/**
 * The team hash-chain client: it appends signed blocks (adding a member,
 * accepting an invitation, creating the team) and pages through the chain
 * from a resume pointer. The server, the signing library and the team
 * identity's local store are collaborators: the server's replies are inputs,
 * the rest are the fields of a `Chain`. The client's mutex is the `locked`
 * flag of the state; a call that finds it held waits forever.
 */
module TeamServices {
  import opened Wrappers
  import opened Json
  import opened HashChain

  // ---- server replies -------------------------------------------------------

  datatype ServerError = ServerError(message: string)

  /** `TeamService.Errors` as far as the modelled code raises them, and the errors of its collaborators. */
  datatype TeamError =
    | BadResponse
    | BadInviteSeed
    | PayloadSignature
    | NeedNewestBlock
    | CheckpointNotReached
    | MissingLastBlockHash
    | Server(serverError: ServerError)
    | PayloadEncoding
    | Storage(description: string)
    | Processing(description: string)
    | Unreadable(description: string)

  datatype ServerResponse<T> = ServerFailure(error: ServerError) | ServerSuccess(value: T)

  /**
   * `ServerResponse.init(json:)`: a "success" object wins (and its content
   * must decode), then an "error" string; anything else is a bad response.
   */
  function DecodeServerResponse<T>(json: Object, decodeSuccess: Object -> Result<T, TeamError>): (r: Result<ServerResponse<T>, TeamError>)
    ensures ObjectAt(json, "success").Some? ==>
      match decodeSuccess(ObjectAt(json, "success").value)
      case Success(v) => r == Success(ServerSuccess(v))
      case Failure(e) => r == Failure(e)
    ensures ObjectAt(json, "success").None? ==>
      match StringAt(json, "error")
      case Some(message) => r == Success(ServerFailure(ServerError(message)))
      case None => r == Failure(BadResponse)
  {
    var success := ObjectAt(json, "success");
    if success.Some? then
      match decodeSuccess(success.value)
      case Success(v) => Success(ServerSuccess(v))
      case Failure(e) => Failure(e)
    else
      var message := StringAt(json, "error");
      if message.Some? then Success(ServerFailure(ServerError(message.value)))
      else Failure(BadResponse)
  }

  /** The two forms of reply the server sends. */
  function ServerReplyObject<T>(reply: ServerResponse<T>, encodeSuccess: T -> Object): (o: Object)
    ensures reply.ServerSuccess? ==> o.Keys == {"success"}
    ensures reply.ServerFailure? ==> o.Keys == {"error"}
  {
    match reply
    case ServerSuccess(v) => map["success" := Obj(encodeSuccess(v))]
    case ServerFailure(e) => map["error" := Str(e.message)]
  }

  /** Every reply the server can send decodes to itself, when its content does. */
  lemma ServerReplyRoundTrip<T>(reply: ServerResponse<T>, encodeSuccess: T -> Object, decodeSuccess: Object -> Result<T, TeamError>)
    requires forall v :: decodeSuccess(encodeSuccess(v)) == Success(v)
    ensures DecodeServerResponse(ServerReplyObject(reply, encodeSuccess), decodeSuccess) == Success(reply)
  {
    var o := ServerReplyObject(reply, encodeSuccess);
    match reply
    case ServerSuccess(v) =>
      assert ObjectAt(o, "success") == Some(encodeSuccess(v));
    case ServerFailure(e) =>
      assert ObjectAt(o, "success").None?;
      assert StringAt(o, "error") == Some(e.message);
  }

  /** `EmptyResponse`: the content of a successful append, which any object decodes to. */
  datatype EmptyResponse = EmptyResponse

  function DecodeEmpty(o: Object): (r: Result<EmptyResponse, TeamError>)
    ensures r == Success(EmptyResponse)
  {
    Success(EmptyResponse)
  }

  /** A reply holding both a "success" object and an "error" string is a success. */
  lemma SuccessWinsOverError(json: Object)
    requires ObjectAt(json, "success").Some? && StringAt(json, "error").Some?
    ensures DecodeServerResponse(json, DecodeEmpty) == Success(ServerSuccess(EmptyResponse))
  {
  }

  // ---- the client's state and collaborators ------------------------------------

  datatype KeyPair = KeyPair(publicKey: Bytes, secretKey: Bytes)

  /** The fields of `TeamIdentity` the client reads. */
  datatype TeamIdentity = TeamIdentity(keyPair: KeyPair, email: string, initialTeamPublicKey: Bytes)

  /** The device keys `accept` puts into the new member (from the key manager). */
  datatype DeviceKeys = DeviceKeys(sshPublicKeyWire: Bytes, pgpPublicKey: Bytes)

  datatype TeamInvite = TeamInvite(seed: Bytes, initialTeamPublicKey: Bytes)

  /** The team identity's local store: the members and blocks its data manager holds. */
  datatype TeamData = TeamData(members: seq<MemberIdentity>, blocks: seq<Block>)

  /**
   * The helpers of the team identity and of the signing library, whose
   * definitions are not part of this model. A `Result` is a call that can
   * throw; `store` answers the error (if any) the data manager throws when
   * adding a member and its block.
   */
  datatype Chain = Chain(
    lastBlockHash: TeamData -> Result<Option<Bytes>, string>,
    isCheckPointReached: TeamData -> Result<bool, string>,
    verifyAndProcessBlocks: (TeamData, ChainResponse) -> Result<TeamData, string>,
    store: (TeamData, MemberIdentity, Block) -> Option<string>,
    payloadJson: Payload -> Option<string>,
    sign: (string, Bytes) -> Option<Bytes>,
    keyPairFromSeed: Bytes -> Option<KeyPair>)

  /** What the data manager holds after adding a member and its block. */
  function AddedMember(d: TeamData, m: MemberIdentity, b: Block): (r: TeamData)
    ensures r.members == d.members + [m] && r.blocks == d.blocks + [b]
  {
    TeamData(d.members + [m], d.blocks + [b])
  }

  /** The local store, the requests sent to the server so far, and whether the mutex is held. */
  datatype ServiceState = ServiceState(data: TeamData, sent: seq<ChainRequest>, locked: bool)

  /** How a call ends: its completion handler ran with a result or an error, it waits for the server, or it waits for the mutex. */
  datatype Completion = Done | Failed(error: TeamError) | AwaitingReply | Blocked

  datatype TeamOutcome = TeamOutcome(completion: Completion, state: ServiceState)

  /** The outcome with the mutex released, unless the call never acquired it. */
  function Released(o: TeamOutcome): (r: TeamOutcome)
    ensures !o.completion.Blocked? ==> r.state.locked == false
    ensures r.completion == o.completion && r.state.data == o.state.data && r.state.sent == o.state.sent
  {
    if o.completion.Blocked? then o else o.(state := o.state.(locked := false))
  }

  // ---- resume pointers ------------------------------------------------------

  /** `TeamIdentity.teamPointer()`: after the last known block, or at the genesis key when none is known. */
  function TeamPointerOf(chain: Chain, id: TeamIdentity, d: TeamData): (r: Result<TeamPointer, TeamError>)
    ensures r.Failure? <==> chain.lastBlockHash(d).Failure?
    ensures r.Success? ==> (r.value.LastBlockHash? <==> chain.lastBlockHash(d).value.Some?)
    ensures r.Success? && r.value.LastBlockHash? ==> r.value.hash == chain.lastBlockHash(d).value.value
    ensures r.Success? && r.value.PublicKey? ==> r.value.key == id.initialTeamPublicKey
  {
    match chain.lastBlockHash(d)
    case Failure(e) => Failure(Storage(e))
    case Success(Some(h)) => Success(LastBlockHash(h))
    case Success(None) => Success(PublicKey(id.initialTeamPublicKey))
  }

  /** `TeamInvite.teamPointer`: an invitee knows no block, so always the genesis key. */
  function InvitePointer(invite: TeamInvite): (p: TeamPointer)
    ensures p.PublicKey? && p.key == invite.initialTeamPublicKey
  {
    PublicKey(invite.initialTeamPublicKey)
  }

  /** A member that knows no block yet reads from where an invitee to the same team reads. */
  lemma FreshMemberReadsLikeInvitee(chain: Chain, id: TeamIdentity, d: TeamData, invite: TeamInvite)
    requires chain.lastBlockHash(d) == Success(None) && invite.initialTeamPublicKey == id.initialTeamPublicKey
    ensures TeamPointerOf(chain, id, d) == Success(InvitePointer(invite))
  {
  }

  // ---- appending blocks -------------------------------------------------------

  /**
   * What `add` and `accept` do once they hold the chain's last block hash:
   * encode and sign the append payload, send it, and on the server's success
   * store the member with the block. An encoding failure is thrown without
   * releasing the mutex; every other exit releases it.
   */
  function PostAppendSpec(chain: Chain, signer: KeyPair, member: MemberIdentity, op: Operation, lastHash: Bytes,
                      reply: ServerResponse<EmptyResponse>, held: ServiceState): (o: TeamOutcome)
    ensures o.state.sent == held.sent || (|o.state.sent| == |held.sent| + 1 && o.state.sent[..|held.sent|] == held.sent)
    ensures |o.state.sent| == |held.sent| + 1 ==>
      var p := chain.payloadJson(Append(AppendBlock(lastHash, op)));
      && p.Some?
      && chain.sign(p.value, signer.secretKey).Some?
      && o.state.sent[|held.sent|] == ChainRequest(signer.publicKey, p.value, chain.sign(p.value, signer.secretKey).value)
    ensures o.state.data != held.data ==> o.completion.Done?
    ensures o.completion.Done? ==>
      && reply.ServerSuccess? && |o.state.sent| == |held.sent| + 1
      && o.state.data == AddedMember(held.data, member, Block(signer.publicKey, o.state.sent[|held.sent|].payload, o.state.sent[|held.sent|].signature))
    ensures reply.ServerFailure? ==> o.state.data == held.data && !o.completion.Done?
    ensures o.completion.Done? || o.completion.Failed?
  {
    var payload := chain.payloadJson(Append(AppendBlock(lastHash, op)));
    if payload.None? then TeamOutcome(Failed(PayloadEncoding), held)
    else
      var signature := chain.sign(payload.value, signer.secretKey);
      if signature.None? then TeamOutcome(Failed(PayloadSignature), held.(locked := false))
      else
        var request := ChainRequest(signer.publicKey, payload.value, signature.value);
        var sent := held.(sent := held.sent + [request], locked := false);
        match reply
        case ServerFailure(e) => TeamOutcome(Failed(Server(e)), sent)
        case ServerSuccess(_) =>
          var block := Block(signer.publicKey, payload.value, signature.value);
          var stored := chain.store(held.data, member, block);
          if stored.Some? then TeamOutcome(Failed(Storage(stored.value)), sent)
          else TeamOutcome(Done, sent.(data := AddedMember(held.data, member, block)))
  }

  /**
   * `add(member:)` as written: with the mutex held it needs the last block
   * hash. The two throws without an unlock, `lastBlockHash()` here and the
   * payload's `jsonData()` in `PostAppendSpec`, leave the mutex held; a store
   * error inside the server callback releases it.
   */
  function AddAsWritten(chain: Chain, id: TeamIdentity, member: MemberIdentity, reply: ServerResponse<EmptyResponse>,
                        st: ServiceState): (o: TeamOutcome)
    ensures st.locked ==> o == TeamOutcome(Blocked, st)
    ensures !st.locked && chain.lastBlockHash(st.data).Failure? ==>
      o == TeamOutcome(Failed(Storage(chain.lastBlockHash(st.data).error)), st.(locked := true))
    ensures !st.locked && chain.lastBlockHash(st.data) == Success(None) ==> o == TeamOutcome(Failed(MissingLastBlockHash), st)
  {
    if st.locked then TeamOutcome(Blocked, st)
    else
      var held := st.(locked := true);
      match chain.lastBlockHash(st.data)
      case Failure(e) => TeamOutcome(Failed(Storage(e)), held)
      case Success(None) => TeamOutcome(Failed(MissingLastBlockHash), st)
      case Success(Some(h)) => PostAppendSpec(chain, id.keyPair, member, AddMember(member), h, reply, held)
  }

  /** `add(member:)` with the mutex released on every exit. */
  function AddSpec(chain: Chain, id: TeamIdentity, member: MemberIdentity, reply: ServerResponse<EmptyResponse>,
                   st: ServiceState): (o: TeamOutcome)
    ensures st.locked ==> o == TeamOutcome(Blocked, st)
    ensures !st.locked ==> !o.state.locked
  {
    Released(AddAsWritten(chain, id, member, reply, st))
  }

  /** The new member `accept` announces: the team identity's own key with this device's keys. */
  function InvitedMember(id: TeamIdentity, device: DeviceKeys): MemberIdentity {
    MemberIdentity(id.keyPair.publicKey, id.email, device.sshPublicKeyWire, device.pgpPublicKey)
  }

  /**
   * `accept(invite:)` as written: the invitation seed is checked before the
   * chain, the append is signed with the nonce keypair derived from the seed.
   * The throws without an unlock, `lastBlockHash()` here and the payload's
   * `jsonData()` in `PostAppendSpec`, leave the mutex held; a store error
   * inside the server callback releases it.
   */
  function AcceptAsWritten(chain: Chain, id: TeamIdentity, device: DeviceKeys, invite: TeamInvite,
                           reply: ServerResponse<EmptyResponse>, st: ServiceState): (o: TeamOutcome)
    ensures st.locked ==> o == TeamOutcome(Blocked, st)
    ensures !st.locked && chain.keyPairFromSeed(invite.seed).None? ==> o == TeamOutcome(Failed(BadInviteSeed), st)
    ensures !st.locked && chain.keyPairFromSeed(invite.seed).Some? && chain.lastBlockHash(st.data).Failure? ==>
      o == TeamOutcome(Failed(Storage(chain.lastBlockHash(st.data).error)), st.(locked := true))
  {
    if st.locked then TeamOutcome(Blocked, st)
    else
      var held := st.(locked := true);
      var newMember := InvitedMember(id, device);
      match chain.keyPairFromSeed(invite.seed)
      case None => TeamOutcome(Failed(BadInviteSeed), st)
      case Some(nonce) =>
        match chain.lastBlockHash(st.data)
        case Failure(e) => TeamOutcome(Failed(Storage(e)), held)
        case Success(None) => TeamOutcome(Failed(NeedNewestBlock), st)
        case Success(Some(h)) => PostAppendSpec(chain, nonce, newMember, AcceptInvite(newMember), h, reply, held)
  }

  /** `accept(invite:)` with the mutex released on every exit. */
  function AcceptSpec(chain: Chain, id: TeamIdentity, device: DeviceKeys, invite: TeamInvite,
                      reply: ServerResponse<EmptyResponse>, st: ServiceState): (o: TeamOutcome)
    ensures st.locked ==> o == TeamOutcome(Blocked, st)
    ensures !st.locked ==> !o.state.locked
  {
    Released(AcceptAsWritten(chain, id, device, invite, reply, st))
  }

  /** `createTeam`: sends the genesis block as is; nothing is stored locally. */
  function CreateTeamSpec(createBlock: Block, reply: ServerResponse<EmptyResponse>, st: ServiceState): (o: TeamOutcome)
    ensures st.locked ==> o == TeamOutcome(Blocked, st)
    ensures !st.locked ==>
      && o.state == st.(sent := st.sent + [ChainRequest(createBlock.publicKey, createBlock.payload, createBlock.signature)])
      && (o.completion.Done? <==> reply.ServerSuccess?)
      && (reply.ServerFailure? ==> o.completion == Failed(Server(reply.error)))
  {
    if st.locked then TeamOutcome(Blocked, st)
    else
      var sent := st.(sent := st.sent + [ChainRequest(createBlock.publicKey, createBlock.payload, createBlock.signature)]);
      match reply
      case ServerFailure(e) => TeamOutcome(Failed(Server(e)), sent)
      case ServerSuccess(_) => TeamOutcome(Done, sent)
  }

  // ---- properties of appending ------------------------------------------------

  /** Without a last block hash `add` fails before sending anything, and changes nothing. */
  lemma AddNeedsLastBlockHash(chain: Chain, id: TeamIdentity, member: MemberIdentity, reply: ServerResponse<EmptyResponse>, st: ServiceState)
    requires !st.locked && chain.lastBlockHash(st.data) == Success(None)
    ensures AddSpec(chain, id, member, reply, st) == TeamOutcome(Failed(MissingLastBlockHash), st)
  {
  }

  /** A bad invitation seed fails `accept` first, whatever the chain's state, and changes nothing. */
  lemma AcceptChecksSeedFirst(chain: Chain, id: TeamIdentity, device: DeviceKeys, invite: TeamInvite,
                              reply: ServerResponse<EmptyResponse>, st: ServiceState)
    requires !st.locked && chain.keyPairFromSeed(invite.seed).None?
    ensures AcceptSpec(chain, id, device, invite, reply, st) == TeamOutcome(Failed(BadInviteSeed), st)
  {
  }

  /** With a good seed but no last block hash, `accept` fails with `needNewestBlock` and changes nothing. */
  lemma AcceptNeedsNewestBlock(chain: Chain, id: TeamIdentity, device: DeviceKeys, invite: TeamInvite,
                               reply: ServerResponse<EmptyResponse>, st: ServiceState)
    requires !st.locked && chain.keyPairFromSeed(invite.seed).Some? && chain.lastBlockHash(st.data) == Success(None)
    ensures AcceptSpec(chain, id, device, invite, reply, st) == TeamOutcome(Failed(NeedNewestBlock), st)
  {
  }

  /**
   * `add` sends at most one request: the append of `addMember(member)` after
   * the last block hash, signed by the team identity. The member and its
   * block are stored locally exactly when the server reports success and
   * the store does not throw.
   */
  lemma AddWritesOnlyOnSuccess(chain: Chain, id: TeamIdentity, member: MemberIdentity, reply: ServerResponse<EmptyResponse>, st: ServiceState)
    requires !st.locked
    ensures var o := AddSpec(chain, id, member, reply, st);
      && (o.state.sent == st.sent || |o.state.sent| == |st.sent| + 1)
      && o.state.sent[..|st.sent|] == st.sent
      && (|o.state.sent| == |st.sent| + 1 ==>
            && chain.lastBlockHash(st.data).Success? && chain.lastBlockHash(st.data).value.Some?
            && var p := chain.payloadJson(Append(AppendBlock(chain.lastBlockHash(st.data).value.value, AddMember(member))));
               p.Some? && o.state.sent[|st.sent|].payload == p.value && o.state.sent[|st.sent|].publicKey == id.keyPair.publicKey)
      && (o.state.data != st.data <==> o.completion.Done?)
      && (o.completion.Done? ==>
            && reply.ServerSuccess?
            && o.state.data.members == st.data.members + [member]
            && o.state.data.blocks == st.data.blocks + [Block(id.keyPair.publicKey, o.state.sent[|st.sent|].payload, o.state.sent[|st.sent|].signature)])
      && (reply.ServerFailure? ==> o.state.data == st.data)
  {
    var o := AddSpec(chain, id, member, reply, st);
    if chain.lastBlockHash(st.data).Success? && chain.lastBlockHash(st.data).value.Some? {
      var h := chain.lastBlockHash(st.data).value.value;
      var p := PostAppendSpec(chain, id.keyPair, member, AddMember(member), h, reply, st.(locked := true));
      assert o.state.sent == p.state.sent && o.state.data == p.state.data;
      if o.completion.Done? {
        assert o.state.data.members == st.data.members + [member];
      }
    }
  }

  /**
   * An accepted invitation is announced and stored as a block signed by the
   * invitation's nonce keypair, not the team identity's key, while the new
   * member carries the team identity's key.
   */
  lemma AcceptRecordsNonceKey(chain: Chain, id: TeamIdentity, device: DeviceKeys, invite: TeamInvite,
                              reply: ServerResponse<EmptyResponse>, st: ServiceState)
    requires AcceptSpec(chain, id, device, invite, reply, st).completion.Done?
    ensures var o := AcceptSpec(chain, id, device, invite, reply, st);
      && chain.keyPairFromSeed(invite.seed).Some?
      && var nonce := chain.keyPairFromSeed(invite.seed).value;
         && reply.ServerSuccess?
         && |o.state.sent| == |st.sent| + 1
         && o.state.sent[|st.sent|].publicKey == nonce.publicKey
         && o.state.data.members == st.data.members + [InvitedMember(id, device)]
         && o.state.data.members[|st.data.members|].publicKey == id.keyPair.publicKey
         && o.state.data.blocks == st.data.blocks + [Block(nonce.publicKey, o.state.sent[|st.sent|].payload, o.state.sent[|st.sent|].signature)]
  {
    var nonce := chain.keyPairFromSeed(invite.seed).value;
    var h := chain.lastBlockHash(st.data).value.value;
    var m := InvitedMember(id, device);
    var p := PostAppendSpec(chain, nonce, m, AcceptInvite(m), h, reply, st.(locked := true));
    assert AcceptAsWritten(chain, id, device, invite, reply, st) == p;
  }

  /**
   * As written, `add` keeps the mutex when reading the last block hash
   * throws: every later call of the client then waits forever.
   */
  lemma AddAsWrittenKeepsLock(chain: Chain, id: TeamIdentity, member: MemberIdentity, reply: ServerResponse<EmptyResponse>,
                              st: ServiceState, later: ServerResponse<EmptyResponse>)
    requires !st.locked && chain.lastBlockHash(st.data).Failure?
    ensures var o := AddAsWritten(chain, id, member, reply, st);
      && o.completion.Failed? && o.state.locked
      && AddAsWritten(chain, id, member, later, o.state).completion.Blocked?
  {
  }

  /** As written, `accept` keeps the mutex when the append payload cannot be encoded. */
  lemma AcceptAsWrittenKeepsLock(chain: Chain, id: TeamIdentity, device: DeviceKeys, invite: TeamInvite,
                                 reply: ServerResponse<EmptyResponse>, st: ServiceState)
    requires !st.locked && chain.keyPairFromSeed(invite.seed).Some? && chain.lastBlockHash(st.data).Success?
    requires chain.lastBlockHash(st.data).value.Some?
    requires chain.payloadJson(Append(AppendBlock(chain.lastBlockHash(st.data).value.value, AcceptInvite(InvitedMember(id, device))))).None?
    ensures var o := AcceptAsWritten(chain, id, device, invite, reply, st);
      o == TeamOutcome(Failed(PayloadEncoding), st.(locked := true))
  {
  }

  /** With the mutex released on every exit, a failed append never blocks the next call. */
  lemma AppendFailureDoesNotBlock(chain: Chain, id: TeamIdentity, member: MemberIdentity, reply: ServerResponse<EmptyResponse>,
                                  st: ServiceState, nextMember: MemberIdentity, later: ServerResponse<EmptyResponse>)
    requires !st.locked
    ensures var o := AddSpec(chain, id, member, reply, st);
      !AddSpec(chain, id, nextMember, later, o.state).completion.Blocked?
  {
  }

  // ---- paging through the chain -----------------------------------------------------

  /** Whose read it is: the member's own (`getVerifiedTeamUpdates`) or an invitee's (`getTeam(using:)`). */
  datatype SyncMode = MemberSync | InviteSync(invite: TeamInvite)

  /** One page of the sync: the nonce and time of its read, and the server's reply to it. */
  datatype Round = Round(nonce: Bytes, unixSeconds: nat, reply: ServerResponse<ChainResponse>)

  /** The outcome of one page, and whether the sync goes on to the next. */
  datatype StepResult = StepResult(more: bool, completion: Completion, state: ServiceState)

  /** The keypair a read is signed with and where it starts. */
  function ReadSetup(chain: Chain, id: TeamIdentity, mode: SyncMode, d: TeamData): (r: Result<(KeyPair, TeamPointer), TeamError>)
    ensures mode.MemberSync? ==> r == (match TeamPointerOf(chain, id, d) case Success(p) => Success((id.keyPair, p)) case Failure(e) => Failure(e))
    ensures mode.InviteSync? ==> (r.Success? <==> chain.keyPairFromSeed(mode.invite.seed).Some?)
    ensures mode.InviteSync? && r.Success? ==>
      r.value.0 == chain.keyPairFromSeed(mode.invite.seed).value && r.value.1 == InvitePointer(mode.invite)
  {
    match mode
    case MemberSync =>
      var pointer :- TeamPointerOf(chain, id, d);
      Success((id.keyPair, pointer))
    case InviteSync(invite) =>
      match chain.keyPairFromSeed(invite.seed)
      case None => Failure(BadInviteSeed)
      case Some(nonce) => Success((nonce, InvitePointer(invite)))
  }

  function ReadPayload(pointer: TeamPointer, round: Round): Payload {
    Read(ReadBlock(pointer, round.nonce, round.unixSeconds))
  }

  /** What the client does with a page of blocks: an empty page ends the sync, at the checkpoint or with an error. */
  function PageStep(chain: Chain, page: ChainResponse, st: ServiceState): (r: StepResult)
    ensures r.state.sent == st.sent && r.state.locked == st.locked
    ensures !HasBlocks(page) ==> !r.more && r.state == st
    ensures !HasBlocks(page) ==> (r.completion.Done? <==> chain.isCheckPointReached(st.data) == Success(true))
    ensures !HasBlocks(page) && chain.isCheckPointReached(st.data) == Success(false) ==> r.completion == Failed(CheckpointNotReached)
    ensures r.more <==> HasBlocks(page) && page.hasMore && chain.verifyAndProcessBlocks(st.data, page).Success?
    ensures r.completion.AwaitingReply? <==> r.more
    ensures r.state.data != st.data ==> HasBlocks(page) && chain.verifyAndProcessBlocks(st.data, page) == Success(r.state.data)
  {
    if !HasBlocks(page) then
      match chain.isCheckPointReached(st.data)
      case Failure(e) => StepResult(false, Failed(Storage(e)), st)
      case Success(false) => StepResult(false, Failed(CheckpointNotReached), st)
      case Success(true) => StepResult(false, Done, st)
    else
      match chain.verifyAndProcessBlocks(st.data, page)
      case Failure(e) => StepResult(false, Failed(Processing(e)), st)
      case Success(d) => StepResult(page.hasMore, if page.hasMore then AwaitingReply else Done, st.(data := d))
  }

  /** One read: sign and send it, then handle the server's reply. */
  function SyncStep(chain: Chain, id: TeamIdentity, mode: SyncMode, round: Round, st: ServiceState): (r: StepResult)
    ensures r.state.locked == st.locked
    ensures r.more ==> |r.state.sent| == |st.sent| + 1
    ensures r.state.sent == st.sent || (|r.state.sent| == |st.sent| + 1 && r.state.sent[..|st.sent|] == st.sent)
    ensures r.completion.AwaitingReply? <==> r.more
    ensures r.state.sent != st.sent ==>
      ReadSetup(chain, id, mode, st.data).Success?
      && Some(r.state.sent[|st.sent|].payload) == chain.payloadJson(ReadPayload(ReadSetup(chain, id, mode, st.data).value.1, round))
      && r.state.sent[|st.sent|].publicKey == ReadSetup(chain, id, mode, st.data).value.0.publicKey
    ensures r.state.data != st.data ==> round.reply.ServerSuccess?
  {
    match ReadSetup(chain, id, mode, st.data)
    case Failure(e) => StepResult(false, Failed(e), st)
    case Success((signer, pointer)) =>
      var payload := chain.payloadJson(ReadPayload(pointer, round));
      if payload.None? then StepResult(false, Failed(PayloadEncoding), st)
      else
        var signature := chain.sign(payload.value, signer.secretKey);
        if signature.None? then StepResult(false, Failed(PayloadSignature), st)
        else
          var sent := st.(sent := st.sent + [ChainRequest(signer.publicKey, payload.value, signature.value)]);
          match round.reply
          case ServerFailure(e) => StepResult(false, Failed(Server(e)), sent)
          case ServerSuccess(page) => PageStep(chain, page, sent)
  }

  /**
   * The recursion of the sync over the pages the server sends, one per
   * round; when the rounds run out while the server has more, the client is
   * still waiting for a reply.
   */
  function SyncRounds(chain: Chain, id: TeamIdentity, mode: SyncMode, rounds: seq<Round>, st: ServiceState): (o: TeamOutcome)
    ensures o.state.locked == st.locked
    ensures o.completion != Blocked
    decreases |rounds|
  {
    if |rounds| == 0 then TeamOutcome(AwaitingReply, st)
    else
      var s := SyncStep(chain, id, mode, rounds[0], st);
      if s.more then SyncRounds(chain, id, mode, rounds[1..], s.state) else TeamOutcome(s.completion, s.state)
  }

  /** One unfolding of the recursion at round `i`. */
  lemma SyncRoundsAt(chain: Chain, id: TeamIdentity, mode: SyncMode, rounds: seq<Round>, i: nat, st: ServiceState)
    requires i < |rounds|
    ensures var s := SyncStep(chain, id, mode, rounds[i], st);
      SyncRounds(chain, id, mode, rounds[i..], st)
      == if s.more then SyncRounds(chain, id, mode, rounds[i + 1..], s.state) else TeamOutcome(s.completion, s.state)
  {
    assert rounds[i..][0] == rounds[i] && rounds[i..][1..] == rounds[i + 1..];
  }

  /** `getVerifiedTeamUpdates` / `getTeam(using:)`: hold the mutex for the whole sync and release it when it completes. */
  function SyncSpec(chain: Chain, id: TeamIdentity, mode: SyncMode, rounds: seq<Round>, st: ServiceState): (o: TeamOutcome)
    ensures st.locked ==> o == TeamOutcome(Blocked, st)
    ensures !st.locked ==> (o.state.locked <==> o.completion.AwaitingReply?)
  {
    if st.locked then TeamOutcome(Blocked, st)
    else
      var o := SyncRounds(chain, id, mode, rounds, st.(locked := true));
      if o.completion.AwaitingReply? then o else Released(o)
  }

  // ---- properties of the sync ---------------------------------------------------------

  /** An empty page ends the sync: it succeeds exactly at the checkpoint, and the local store is unchanged. */
  lemma EmptyPageChecksCheckpoint(chain: Chain, id: TeamIdentity, mode: SyncMode, rounds: seq<Round>, st: ServiceState)
    requires |rounds| > 0 && rounds[0].reply.ServerSuccess? && !HasBlocks(rounds[0].reply.value)
    ensures var o := SyncRounds(chain, id, mode, rounds, st);
      && o.state.data == st.data
      && (o.completion.Done? ==> chain.isCheckPointReached(st.data) == Success(true))
      && (|o.state.sent| > |st.sent| ==>
            && (chain.isCheckPointReached(st.data) == Success(true) ==> o.completion.Done?)
            && (chain.isCheckPointReached(st.data) == Success(false) ==> o.completion == Failed(CheckpointNotReached)))
  {
  }

  /** A processed page without more ends the sync: later pages are never asked for. */
  lemma LastPageEndsSync(chain: Chain, id: TeamIdentity, mode: SyncMode, rounds: seq<Round>, st: ServiceState)
    requires |rounds| > 0 && rounds[0].reply.ServerSuccess? && !rounds[0].reply.value.hasMore
    ensures SyncRounds(chain, id, mode, rounds, st) == SyncRounds(chain, id, mode, rounds[..1], st)
    ensures !SyncRounds(chain, id, mode, rounds, st).completion.AwaitingReply?
  {
  }

  /** The sync reads at most one page per round, and only appends to what was sent. */
  lemma {:induction false} SyncSendsOnePerRound(chain: Chain, id: TeamIdentity, mode: SyncMode, rounds: seq<Round>, st: ServiceState)
    ensures var o := SyncRounds(chain, id, mode, rounds, st);
      |st.sent| <= |o.state.sent| <= |st.sent| + |rounds| && o.state.sent[..|st.sent|] == st.sent
    decreases |rounds|
  {
    if |rounds| > 0 {
      var s := SyncStep(chain, id, mode, rounds[0], st);
      if s.more {
        SyncSendsOnePerRound(chain, id, mode, rounds[1..], s.state);
        var o := SyncRounds(chain, id, mode, rounds[1..], s.state);
        assert o.state.sent[..|st.sent|] == o.state.sent[..|s.state.sent|][..|st.sent|];
      }
    }
  }

  /** The sync only goes on while the server says it has more: every round before the last ended with a page with more. */
  lemma {:induction false} SyncContinuesOnlyWithMore(chain: Chain, id: TeamIdentity, mode: SyncMode, rounds: seq<Round>, st: ServiceState)
    requires SyncRounds(chain, id, mode, rounds, st).completion.AwaitingReply?
    ensures forall j | 0 <= j < |rounds| :: rounds[j].reply.ServerSuccess? && rounds[j].reply.value.hasMore && HasBlocks(rounds[j].reply.value)
    ensures |SyncRounds(chain, id, mode, rounds, st).state.sent| == |st.sent| + |rounds|
    decreases |rounds|
  {
    if |rounds| > 0 {
      var s := SyncStep(chain, id, mode, rounds[0], st);
      if s.more {
        SyncContinuesOnlyWithMore(chain, id, mode, rounds[1..], s.state);
        forall j | 0 <= j < |rounds|
          ensures rounds[j].reply.ServerSuccess? && rounds[j].reply.value.hasMore && HasBlocks(rounds[j].reply.value)
        {
          if j > 0 {
            assert rounds[j] == rounds[1..][j - 1];
          }
        }
      }
    }
  }

  /** Every request in `sent` is the read of the matching round, starting at `pointer`. */
  predicate ReadsAt(chain: Chain, pointer: TeamPointer, sent: seq<ChainRequest>, rounds: seq<Round>) {
    |sent| <= |rounds| && forall j | 0 <= j < |sent| :: Some(sent[j].payload) == chain.payloadJson(ReadPayload(pointer, rounds[j]))
  }

  lemma ReadsAtCons(chain: Chain, pointer: TeamPointer, first: ChainRequest, rest: seq<ChainRequest>, rounds: seq<Round>)
    requires |rounds| > 0 && Some(first.payload) == chain.payloadJson(ReadPayload(pointer, rounds[0]))
    requires ReadsAt(chain, pointer, rest, rounds[1..])
    ensures ReadsAt(chain, pointer, [first] + rest, rounds)
  {
    forall j | 0 <= j < |[first] + rest|
      ensures Some(([first] + rest)[j].payload) == chain.payloadJson(ReadPayload(pointer, rounds[j]))
    {
      if j > 0 {
        assert ([first] + rest)[j] == rest[j - 1];
        assert rounds[j] == rounds[1..][j - 1];
      }
    }
  }

  /**
   * An invitee's sync never advances its pointer: every read it sends, on
   * every round, starts at the team's genesis key.
   */
  lemma {:induction false} InviteSyncRereadsGenesis(chain: Chain, id: TeamIdentity, invite: TeamInvite, rounds: seq<Round>, st: ServiceState)
    ensures var o := SyncRounds(chain, id, InviteSync(invite), rounds, st);
      && |st.sent| <= |o.state.sent| && o.state.sent[..|st.sent|] == st.sent
      && ReadsAt(chain, InvitePointer(invite), o.state.sent[|st.sent|..], rounds)
    decreases |rounds|
  {
    var n := |st.sent|;
    var o := SyncRounds(chain, id, InviteSync(invite), rounds, st);
    if |rounds| == 0 {
      assert o.state.sent[n..] == [];
    } else {
      var s := SyncStep(chain, id, InviteSync(invite), rounds[0], st);
      if s.state.sent == st.sent {
        assert !s.more;
        assert o.state.sent[n..] == [];
      } else {
        var first := s.state.sent[n];
        assert s.state.sent == st.sent + [first];
        assert Some(first.payload) == chain.payloadJson(ReadPayload(InvitePointer(invite), rounds[0]));
        if s.more {
          InviteSyncRereadsGenesis(chain, id, invite, rounds[1..], s.state);
          assert o == SyncRounds(chain, id, InviteSync(invite), rounds[1..], s.state);
          assert o.state.sent[..n + 1] == s.state.sent;
          assert o.state.sent[..n] == s.state.sent[..n];
          assert o.state.sent[n..] == [first] + o.state.sent[n + 1..];
          ReadsAtCons(chain, InvitePointer(invite), first, o.state.sent[n + 1..], rounds);
        } else {
          assert o.state.sent[n..] == [first];
        }
      }
    }
  }

  /** A member's sync starts where its team pointer says: after the last known block, or at genesis. */
  lemma MemberSyncResumes(chain: Chain, id: TeamIdentity, rounds: seq<Round>, st: ServiceState)
    requires |rounds| > 0
    requires |SyncRounds(chain, id, MemberSync, rounds, st).state.sent| > |st.sent|
    ensures TeamPointerOf(chain, id, st.data).Success?
    ensures Some(SyncRounds(chain, id, MemberSync, rounds, st).state.sent[|st.sent|].payload)
         == chain.payloadJson(ReadPayload(TeamPointerOf(chain, id, st.data).value, rounds[0]))
  {
    var s := SyncStep(chain, id, MemberSync, rounds[0], st);
    if s.more {
      SyncSendsOnePerRound(chain, id, MemberSync, rounds[1..], s.state);
      var o := SyncRounds(chain, id, MemberSync, rounds[1..], s.state);
      assert o.state.sent[..|s.state.sent|] == s.state.sent;
      assert o.state.sent[|st.sent|] == s.state.sent[|st.sent|];
    }
  }

  /** A server error ends the sync with the error and without touching the local store. */
  lemma ServerErrorEndsSync(chain: Chain, id: TeamIdentity, mode: SyncMode, rounds: seq<Round>, st: ServiceState)
    requires |rounds| > 0 && rounds[0].reply.ServerFailure?
    ensures var o := SyncRounds(chain, id, mode, rounds, st);
      o.state.data == st.data && o.completion.Failed? && |o.state.sent| <= |st.sent| + 1
  {
  }

  // ---- the client -------------------------------------------------------------------

  /** The team client: its team identity's local store, what it has sent, and its mutex. */
  class TeamService {
    var data: TeamData
    var sent: seq<ChainRequest>
    var locked: bool

    function State(): ServiceState
      reads this
    {
      ServiceState(data, sent, locked)
    }

    constructor (initial: TeamData)
      ensures State() == ServiceState(initial, [], false)
    {
      data := initial;
      sent := [];
      locked := false;
    }

    /** `createTeam`: sends the genesis block. */
    method CreateTeam(createBlock: Block, reply: ServerResponse<EmptyResponse>) returns (completion: Completion)
      modifies this
      ensures TeamOutcome(completion, State()) == CreateTeamSpec(createBlock, reply, old(State()))
    {
      if locked {
        return Blocked;
      }
      locked := true;
      sent := sent + [ChainRequest(createBlock.publicKey, createBlock.payload, createBlock.signature)];
      match reply {
        case ServerFailure(e) => completion := Failed(Server(e));
        case ServerSuccess(_) => completion := Done;
      }
      locked := false;
    }

    /** The signed append shared by `add` and `accept`, called with the mutex held and the last block hash known. */
    method PostAppend(chain: Chain, signer: KeyPair, member: MemberIdentity, op: Operation, lastHash: Bytes,
                      reply: ServerResponse<EmptyResponse>) returns (completion: Completion)
      modifies this
      ensures Released(TeamOutcome(completion, State())) == Released(PostAppendSpec(chain, signer, member, op, lastHash, reply, old(State())))
    {
      var payload := chain.payloadJson(Append(AppendBlock(lastHash, op)));
      if payload.None? {
        return Failed(PayloadEncoding);
      }
      var signature := chain.sign(payload.value, signer.secretKey);
      if signature.None? {
        locked := false;
        return Failed(PayloadSignature);
      }
      sent := sent + [ChainRequest(signer.publicKey, payload.value, signature.value)];
      locked := false;
      if reply.ServerFailure? {
        return Failed(Server(reply.error));
      }
      var block := Block(signer.publicKey, payload.value, signature.value);
      var stored := chain.store(data, member, block);
      if stored.Some? {
        return Failed(Storage(stored.value));
      }
      data := AddedMember(data, member, block);
      return Done;
    }

    /** `add(member:)`, releasing the mutex on every exit. */
    method Add(chain: Chain, id: TeamIdentity, member: MemberIdentity, reply: ServerResponse<EmptyResponse>)
      returns (completion: Completion)
      modifies this
      ensures TeamOutcome(completion, State()) == AddSpec(chain, id, member, reply, old(State()))
    {
      if locked {
        return Blocked;
      }
      locked := true;
      var lastHash := chain.lastBlockHash(data);
      if lastHash.Failure? {
        locked := false;
        return Failed(Storage(lastHash.error));
      }
      if lastHash.value.None? {
        locked := false;
        return Failed(MissingLastBlockHash);
      }
      completion := PostAppend(chain, id.keyPair, member, AddMember(member), lastHash.value.value, reply);
      locked := false;
    }

    /** `accept(invite:)`, releasing the mutex on every exit. */
    method Accept(chain: Chain, id: TeamIdentity, device: DeviceKeys, invite: TeamInvite, reply: ServerResponse<EmptyResponse>)
      returns (completion: Completion)
      modifies this
      ensures TeamOutcome(completion, State()) == AcceptSpec(chain, id, device, invite, reply, old(State()))
    {
      if locked {
        return Blocked;
      }
      locked := true;
      var newMember := InvitedMember(id, device);
      var nonce := chain.keyPairFromSeed(invite.seed);
      if nonce.None? {
        locked := false;
        return Failed(BadInviteSeed);
      }
      var lastHash := chain.lastBlockHash(data);
      if lastHash.Failure? {
        locked := false;
        return Failed(Storage(lastHash.error));
      }
      if lastHash.value.None? {
        locked := false;
        return Failed(NeedNewestBlock);
      }
      completion := PostAppend(chain, nonce.value, newMember, AcceptInvite(newMember), lastHash.value.value, reply);
      locked := false;
    }

    /** One round of the sync: sign and send a read, then handle the page. */
    method Step(chain: Chain, id: TeamIdentity, mode: SyncMode, round: Round) returns (more: bool, completion: Completion)
      modifies this
      ensures StepResult(more, completion, State()) == SyncStep(chain, id, mode, round, old(State()))
    {
      var setup := ReadSetup(chain, id, mode, data);
      if setup.Failure? {
        return false, Failed(setup.error);
      }
      var (signer, pointer) := setup.value;
      var payload := chain.payloadJson(ReadPayload(pointer, round));
      if payload.None? {
        return false, Failed(PayloadEncoding);
      }
      var signature := chain.sign(payload.value, signer.secretKey);
      if signature.None? {
        return false, Failed(PayloadSignature);
      }
      sent := sent + [ChainRequest(signer.publicKey, payload.value, signature.value)];
      if round.reply.ServerFailure? {
        return false, Failed(Server(round.reply.error));
      }
      var page := round.reply.value;
      if !HasBlocks(page) {
        var reached := chain.isCheckPointReached(data);
        if reached.Failure? {
          return false, Failed(Storage(reached.error));
        }
        if !reached.value {
          return false, Failed(CheckpointNotReached);
        }
        return false, Done;
      }
      var processed := chain.verifyAndProcessBlocks(data, page);
      if processed.Failure? {
        return false, Failed(Processing(processed.error));
      }
      data := processed.value;
      if !page.hasMore {
        return false, Done;
      }
      return true, AwaitingReply;
    }

    /**
     * `getVerifiedTeamUpdates` / `getTeam(using:)`: the per-page recursion
     * as a loop over the rounds, holding the mutex until the sync completes.
     */
    method Sync(chain: Chain, id: TeamIdentity, mode: SyncMode, rounds: seq<Round>) returns (completion: Completion)
      modifies this
      ensures TeamOutcome(completion, State()) == SyncSpec(chain, id, mode, rounds, old(State()))
    {
      if locked {
        return Blocked;
      }
      locked := true;
      ghost var start := State();
      var i := 0;
      while i < |rounds|
        invariant 0 <= i <= |rounds|
        invariant locked
        invariant SyncRounds(chain, id, mode, rounds[i..], State()) == SyncRounds(chain, id, mode, rounds, start)
        decreases |rounds| - i
      {
        SyncRoundsAt(chain, id, mode, rounds, i, State());
        var more;
        more, completion := Step(chain, id, mode, rounds[i]);
        if !more {
          locked := false;
          return;
        }
        i := i + 1;
      }
      return AwaitingReply;
    }
  }
}
