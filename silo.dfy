/**
 * The request admission cache: the one place where a request from a paired
 * workstation becomes a response. It holds a time-limited cache of encoded
 * responses, a time-limited set of requests waiting for the user's approval,
 * and (standing in for the session manager) the set of registered session
 * ids. Everything the app does to the outside world — sending a response,
 * signing, writing the audit log, notifying the user — is recorded as an
 * event. The collaborators the handler consults (approval policy, key
 * manager, known hosts, signing) are the fields of an `Env`; the clock is the
 * `now` parameter, in whole seconds.
 */
module Silo {
  import opened Wrappers
  import opened Json
  import opened CommitInfos
  import opened GitInfos
  import opened Responses
  import opened Requests
  import opened SignatureLogs

  // ---- rejection and cache keys ---------------------------------------------

  /** `UserRejectedError.rejectedConstant`, the text of the user's refusal. */
  const RejectedConstant: string := "rejected"

  /** `UserRejectedError.isRejected(errorString:)`. */
  predicate IsRejected(errorString: string) {
    errorString == RejectedConstant
  }

  /** `CacheKey.init(_:_:)`: session id and request id joined by an underscore. */
  function CacheKey(s: Session, r: Request): (key: string)
    ensures key == s.id + "_" + r.id
  {
    s.id + "_" + r.id
  }

  /** Within one session the key determines the request id: requests collide exactly when their ids are equal. */
  lemma CacheKeySameSession(s: Session, r1: Request, r2: Request)
    ensures CacheKey(s, r1) == CacheKey(s, r2) <==> r1.id == r2.id
  {
    if CacheKey(s, r1) == CacheKey(s, r2) {
      assert r1.id == CacheKey(s, r1)[|s.id| + 1..];
      assert r2.id == CacheKey(s, r2)[|s.id| + 1..];
    }
  }

  /** Across sessions the key is ambiguous: an underscore in an id lets two different pairs share a key. */
  lemma CacheKeyAmbiguousAcrossSessions()
    ensures CacheKey(Session("a_b", "x", "x"), Request("c", 0, None, None, None, None, false))
         == CacheKey(Session("a", "x", "x"), Request("b_c", 0, None, None, None, None, false))
  {
  }

  // ---- time-limited maps ------------------------------------------------------

  /** A cache entry and the second after which it is expired. */
  datatype Expiring<T> = Expiring(value: T, expires: int)

  /** An entry is live while the clock has not passed its expiry. */
  predicate IsLive<T>(e: Expiring<T>, now: int) {
    now <= e.expires
  }

  /** `removeExpiredObjects()`: only the live entries remain, unchanged. */
  function Purge<T>(m: map<string, Expiring<T>>, now: int): (r: map<string, Expiring<T>>)
    ensures forall k :: k in r <==> k in m && IsLive(m[k], now)
    ensures forall k | k in r :: r[k] == m[k]
  {
    map k | k in m && IsLive(m[k], now) :: m[k]
  }

  /** The expiry the source gives both the response cache and the pending markers: twice the tolerance. */
  function ExpiresAt(now: int, tolerance: nat): int {
    now + 2 * tolerance
  }

  function Abs(x: int): nat {
    if x < 0 then -x else x
  }

  // ---- state, events, collaborators ------------------------------------------

  /** The audit-log record of one signature or refusal. */
  datatype LogRecord = SSHLog(ssh: SSHSignatureLog) | CommitLog(commit: CommitSignatureLog) | TagLog(tag: TagSignatureLog)

  datatype Event =
    | Sent(session: string, response: Response)          // TransportControl send
    | Unpaired(session: string)                          // the transport forgets the session
    | Signed(session: string, request: string)           // the signing key was used
    | Logged(record: LogRecord, deviceName: string)      // LogManager save
    | ApprovalRequested(session: string, request: string)// pending authorization recorded and the user asked
    | UserNotified(session: string, request: string)     // Policy.notifyUser(session:request:)
    | ErrorNotified(session: string, message: string)    // Policy.notifyUser(errorMessage:session:)

  /** No signature was made. */
  predicate Unsigned(events: seq<Event>) {
    forall e | e in events :: !e.Signed?
  }

  /** The event log only grows: `before` is a prefix of `after`. */
  predicate AppendsTo(before: seq<Event>, after: seq<Event>) {
    |before| <= |after| && after[..|before|] == before
  }

  datatype SiloError =
    | SessionRemoved
    | InvalidRequestTime
    | RequestPending
    | KeyDoesNotExist                   // the request names another key's fingerprint
    | InvalidFingerprint                // the fingerprint is not base64
    | KeyManagerFailure(description: string)
    | CachedResponseUnreadable(error: DecodeError)

  datatype SiloState = SiloState(
    cache: map<string, Expiring<Object>>,
    pending: map<string, Expiring<string>>,
    sessions: set<string>,
    events: seq<Event>)

  /** The known-hosts check of an attached host assertion. */
  datatype HostCheck = HostOk | HostMismatch(description: string) | HostCheckFailed(description: string)

  /** A PGP signature as packet data in base64, and its ASCII-armored text (the input of the commit hash). */
  datatype ArmoredSignature = ArmoredSignature(packetBase64: string, armored: string)

  /**
   * What the collaborators answer during one call: the approval policy, the
   * endpoint and tracking id stamped on responses, the key manager, the
   * known-hosts store and the signing operations. An error is its description.
   */
  datatype Env = Env(
    signNeedsApproval: bool,                 // Policy.needsUserApproval(for:and:)
    gitNeedsApproval: bool,                  // Policy.needsUserApproval(for:)
    approvedUntil: Option<int>,              // Policy.approvedUntilUnixSeconds(for:)
    endpointARN: string,                     // "" when the keychain has none
    trackingID: string,                      // the analytics user id, or "disabled"
    localFingerprint: Result<Bytes, string>, // KeyManager.sharedInstance() and the key's fingerprint(), either of which can throw
    checkHost: VerifiedHostAuth -> HostCheck,
    hostAuthJson: VerifiedHostAuth -> Option<string>,
    sshSign: Bytes -> Result<string, string>,
    pgpKeyID: Result<Bytes, string>,
    signCommit: (CommitInfo, Bytes) -> Result<ArmoredSignature, string>,
    commitHash: (CommitInfo, string) -> Result<string, string>,
    signTag: (TagInfo, Bytes) -> Result<string, string>,
    email: Result<string, string>,
    publicKeyWire: Result<Bytes, string>,
    pgpPublicKey: string -> Result<Bytes, string>)

  /** The settings: `Properties.requestTimeTolerance`, the codecs and `Properties.currentVersion`. */
  datatype Config = Config(tolerance: nat, b64: Codec<Bytes>, versions: Codec<Version>, currentVersion: Version)

  // ---- responseFor, part by part -----------------------------------------------

  /** A sub-response and the events that producing it caused. */
  datatype Part<T> = Part(response: T, events: seq<Event>)

  /** The SSH audit log of a sign request, as written by `responseFor`. */
  function SSHLogEvent(env: Env, s: Session, req: SignRequest, signature: string, displayName: string, now: int): Event {
    Logged(SSHLog(NewSSHLog(s.id, req.hostAuth, env.hostAuthJson, signature, displayName, now)), s.pairingName)
  }

  /** The request names the local key: the key manager answers and its fingerprint is the decoded one. */
  predicate FingerprintMatches(env: Env, b64: Codec<Bytes>, req: SignRequest) {
    env.localFingerprint.Success? && b64.decode(req.fingerprint) == Some(env.localFingerprint.value)
  }

  /**
   * The sign part of `responseFor`: a key manager that fails, or a
   * fingerprint that is not the local key's, aborts; a refusal, a host
   * mismatch or a failed signature becomes the error of the sub-response.
   */
  function SignPart(env: Env, b64: Codec<Bytes>, s: Session, requestID: string, req: SignRequest, allowed: bool, now: int)
    : (r: Result<Part<SignResponse>, SiloError>)
    ensures env.localFingerprint.Failure? ==> r == Failure(KeyManagerFailure(env.localFingerprint.error))
    ensures env.localFingerprint.Success? && b64.decode(req.fingerprint).None? ==> r == Failure(InvalidFingerprint)
    ensures env.localFingerprint.Success? && b64.decode(req.fingerprint).Some?
            && b64.decode(req.fingerprint).value != env.localFingerprint.value ==>
      r == Failure(KeyDoesNotExist)
    ensures r.Success? <==> FingerprintMatches(env, b64, req)
    ensures r.Success? ==> (r.value.response.signature.Some? <==> r.value.response.error.None?)
    ensures r.Success? ==> (r.value.response.signature.Some? <==> !Unsigned(r.value.events))
    ensures r.Success? && !allowed ==>
      r.value.response == SignResponse(None, Some(RejectedConstant)) && Unsigned(r.value.events)
  {
    var local :- FromKeyManager(env.localFingerprint);
    match b64.decode(req.fingerprint)
    case None => Failure(InvalidFingerprint)
    case Some(fp) =>
      if fp != local then Failure(KeyDoesNotExist)
      else if !allowed then
        Success(Part(SignResponse(None, Some(RejectedConstant)),
                     [SSHLogEvent(env, s, req, "request failed", "rejected: " + req.display, now)]))
      else
        var check := if req.hostAuth.Some? then env.checkHost(req.hostAuth.value) else HostOk;
        match check
        case HostMismatch(d) =>
          Success(Part(SignResponse(None, Some(d)), [SSHLogEvent(env, s, req, "request failed", "rejected: " + d, now)]))
        case HostCheckFailed(d) =>
          Success(Part(SignResponse(None, Some(d)), []))
        case HostOk =>
          match env.sshSign(req.data)
          case Failure(d) => Success(Part(SignResponse(None, Some(d)), []))
          case Success(sig) =>
            var events := [Signed(s.id, requestID), SSHLogEvent(env, s, req, sig, req.display, now)];
            assert events[0] in events;
            Success(Part(SignResponse(Some(sig), None), events))
  }

  /**
   * The git-sign part of `responseFor`, which never aborts: every failure is
   * the error of the sub-response. The signature of a commit is kept even
   * when hashing the signed commit fails afterwards.
   */
  function GitSignPart(env: Env, s: Session, requestID: string, req: GitSignRequest, allowed: bool, now: int)
    : (r: Part<GitSignResponse>)
    ensures r.response.signature.None? ==> r.response.error.Some?
    ensures r.response.signature.Some? <==> !Unsigned(r.events)
    ensures !allowed ==> r.response == GitSignResponse(None, Some(RejectedConstant)) && Unsigned(r.events)
  {
    if !allowed then
      var record := match req.git
        case Commit(c) => CommitLog(CommitSignatureLog(s.id, now, RejectedSignature, c, ""))
        case Tag(t) => TagLog(TagSignatureLog(s.id, RejectedSignature, now, t));
      Part(GitSignResponse(None, Some(RejectedConstant)), [Logged(record, s.pairingName)])
    else
      match env.pgpKeyID
      case Failure(d) => Part(GitSignResponse(None, Some(d)), [])
      case Success(keyID) =>
        match req.git
        case Commit(c) =>
          (match env.signCommit(c, keyID)
           case Failure(d) => Part(GitSignResponse(None, Some(d)), [])
           case Success(a) =>
             match env.commitHash(c, a.armored)
             case Failure(d) =>
               var events := [Signed(s.id, requestID)];
               assert events[0] in events;
               Part(GitSignResponse(Some(a.packetBase64), Some(d)), events)
             case Success(h) =>
               var events := [Signed(s.id, requestID), Logged(CommitLog(CommitSignatureLog(s.id, now, a.packetBase64, c, h)), s.pairingName)];
               assert events[0] in events;
               Part(GitSignResponse(Some(a.packetBase64), None), events))
        case Tag(t) =>
          match env.signTag(t, keyID)
          case Failure(d) => Part(GitSignResponse(None, Some(d)), [])
          case Success(sig) =>
            var events := [Signed(s.id, requestID), Logged(TagLog(TagSignatureLog(s.id, sig, now, t)), s.pairingName)];
            assert events[0] in events;
            Part(GitSignResponse(Some(sig), None), events)
  }

  /** A key-manager answer; its error aborts `responseFor`. */
  function FromKeyManager<T>(r: Result<T, string>): (x: Result<T, SiloError>)
    ensures x.Success? <==> r.Success?
    ensures x.Success? ==> x.value == r.value
    ensures x.Failure? ==> x.error == KeyManagerFailure(r.error)
  {
    match r
    case Success(v) => Success(v)
    case Failure(d) => Failure(KeyManagerFailure(d))
  }

  /**
   * The me part of `responseFor`: the PGP public key (only when a user id is
   * asked for), the email and the SSH public key; any of them failing aborts.
   */
  function MePart(env: Env, req: MeRequest): (r: Result<MeResponse, SiloError>)
    ensures r.Success? ==> (r.value.me.pgpPublicKey.Some? <==> req.pgpUserId.Some?)
    ensures r.Success? ==> Success(r.value.me.email) == env.email && Success(r.value.me.publicKeyWire) == env.publicKeyWire
    ensures req.pgpUserId.None? && env.email.Success? && env.publicKeyWire.Success? ==> r.Success?
  {
    var pgp :- if req.pgpUserId.Some? then
                 var k :- FromKeyManager(env.pgpPublicKey(req.pgpUserId.value)); Success(Some(k))
               else Success(None);
    var email :- FromKeyManager(env.email);
    var wire :- FromKeyManager(env.publicKeyWire);
    Success(MeResponse(Me(email, wire, pgp)))
  }

  /** What `responseFor` returns and the state it leaves. */
  datatype Outcome = Outcome(result: Result<Response, SiloError>, state: SiloState)

  /** The response `responseFor` builds from its parts. */
  function AssembleResponse(env: Env, cfg: Config, req: Request, sign: Option<SignResponse>,
                            gitSign: Option<GitSignResponse>, me: Option<MeResponse>): Response {
    NewResponse(req.id, env.endpointARN, env.approvedUntil, sign, gitSign, me, None, None, Some(env.trackingID), cfg.currentVersion)
  }

  /**
   * `responseFor(request:session:signatureAllowed:)`: the sign part (which may
   * abort before anything happens), the git-sign part, the me part (which may
   * abort after signatures were made and logged), then the response, which is
   * cached in encoded form under the request's key for twice the tolerance.
   */
  function ResponseForSpec(env: Env, cfg: Config, s: Session, req: Request, allowed: bool, now: int, st: SiloState)
    : (o: Outcome)
    ensures o.state.sessions == st.sessions && o.state.pending == st.pending
    ensures AppendsTo(st.events, o.state.events)
    ensures req.sign.Some? && !FingerprintMatches(env, cfg.b64, req.sign.value) ==>
      o.result.Failure? && o.state == st
    ensures o.result.Failure? ==>
      && o.state.cache == st.cache
      && (o.result.error.InvalidFingerprint? || o.result.error.KeyDoesNotExist? || o.result.error.KeyManagerFailure?)
    ensures o.result.Success? ==>
      o.state.cache == st.cache[CacheKey(s, req) :=
        Expiring(ResponseObject(o.result.value, cfg.b64, cfg.versions), ExpiresAt(now, cfg.tolerance))]
    ensures o.result.Success? ==>
      var r := o.result.value;
      && r.requestID == req.id && r.version == Some(cfg.currentVersion)
      && (r.sign.Some? <==> req.sign.Some?) && (r.gitSign.Some? <==> req.gitSign.Some?) && (r.me.Some? <==> req.me.Some?)
      && (r.me.Some? ==> (r.me.value.me.pgpPublicKey.Some? <==> req.me.value.pgpUserId.Some?))
      && r.unpair.None? && r.ack.None?
    ensures o.result.Success? && !allowed ==>
      && (o.result.value.sign.Some? ==> o.result.value.sign.value == SignResponse(None, Some(RejectedConstant)))
      && (o.result.value.gitSign.Some? ==> o.result.value.gitSign.value == GitSignResponse(None, Some(RejectedConstant)))
      && Unsigned(o.state.events[|st.events|..])
  {
    var signPart := if req.sign.Some? then SignPart(env, cfg.b64, s, req.id, req.sign.value, allowed, now)
                    else Success(Part(SignResponse(None, None), []));
    if signPart.Failure? then Outcome(Failure(signPart.error), st)
    else
      var sign := if req.sign.Some? then Some(signPart.value.response) else None;
      var gitPart := if req.gitSign.Some? then GitSignPart(env, s, req.id, req.gitSign.value, allowed, now)
                     else Part(GitSignResponse(None, None), []);
      var gitSign := if req.gitSign.Some? then Some(gitPart.response) else None;
      var events := st.events + signPart.value.events + gitPart.events;
      var mePart := if req.me.Some? then (var m :- MePart(env, req.me.value); Success(Some(m))) else Success(None);
      if mePart.Failure? then Outcome(Failure(mePart.error), st.(events := events))
      else
        var response := AssembleResponse(env, cfg, req, sign, gitSign, mePart.value);
        var entry := Expiring(ResponseObject(response, cfg.b64, cfg.versions), ExpiresAt(now, cfg.tolerance));
        Outcome(Success(response), st.(cache := st.cache[CacheKey(s, req) := entry], events := events))
  }

  // ---- handle -------------------------------------------------------------------

  /** What `handle` leaves behind: the new state, and the error it throws if any. */
  datatype Handled = Handled(state: SiloState, error: Option<SiloError>)

  /** The ack `handleRequestRequiresApproval` sends when asked to. */
  function AckFor(env: Env, cfg: Config, req: Request): (r: Response)
    ensures r.ack.Some? && r.sign.None? && r.gitSign.None? && r.me.None? && r.requestID == req.id
  {
    NewResponse(req.id, env.endpointARN, env.approvedUntil, None, None, None, None, Some(AckResponse), Some(env.trackingID), cfg.currentVersion)
  }

  /**
   * `handleRequestRequiresApproval`: a live pending marker for the key means
   * the request is already waiting; otherwise a marker is set for twice the
   * tolerance, the user is asked, and an ack is sent when the request wants one.
   */
  function ApprovalSpec(env: Env, cfg: Config, s: Session, req: Request, now: int, st: SiloState): (h: Handled)
    ensures h.state.cache == st.cache && h.state.sessions == st.sessions
    ensures AppendsTo(st.events, h.state.events) && Unsigned(h.state.events[|st.events|..])
    ensures h.error.None? || h.error == Some(RequestPending)
    ensures h.error.None? <==> CacheKey(s, req) !in Purge(st.pending, now)
  {
    var pending := Purge(st.pending, now);
    var key := CacheKey(s, req);
    if key in pending then Handled(st.(pending := pending), Some(RequestPending))
    else
      var ack := if req.sendACK then [Sent(s.id, AckFor(env, cfg, req))] else [];
      Handled(st.(pending := pending[key := Expiring("", ExpiresAt(now, cfg.tolerance))],
                  events := st.events + [ApprovalRequested(s.id, req.id)] + ack),
              None)
  }

  /** The user notifications `handle` posts for an automatically approved response. */
  function NotifyEvents(s: Session, req: Request, response: Response): seq<Event> {
    (if response.sign.Some? then
       [if response.sign.value.error.Some? then ErrorNotified(s.id, response.sign.value.error.value) else UserNotified(s.id, req.id)]
     else [])
    + (if response.gitSign.Some? then
         [if response.gitSign.value.error.Some? then ErrorNotified(s.id, response.gitSign.value.error.value) else UserNotified(s.id, req.id)]
       else [])
  }

  /** Whether `handle` routes the request to the user for approval. */
  predicate NeedsApproval(env: Env, req: Request) {
    (req.sign.Some? && env.signNeedsApproval) || (req.gitSign.Some? && env.gitNeedsApproval)
  }

  /**
   * `handle(request:session:...)`: session check, unpair, time window, cache
   * replay, approval routing, no-op exit, and finally a fresh response that is
   * cached, announced to the user and sent.
   */
  function HandleSpec(env: Env, cfg: Config, s: Session, req: Request, now: int, st: SiloState): (h: Handled)
    ensures AppendsTo(st.events, h.state.events)
    ensures h.state.sessions == if s.id in st.sessions && req.unpair.Some? then st.sessions - {s.id} else st.sessions
    ensures h.error == Some(SessionRemoved) <==> s.id !in st.sessions || req.unpair.Some?
    ensures h.error == Some(InvalidRequestTime) <==>
      s.id in st.sessions && req.unpair.None? && Abs(now - req.unixSeconds) > cfg.tolerance
  {
    if s.id !in st.sessions then Handled(st, Some(SessionRemoved))
    else if req.unpair.Some? then
      Handled(st.(sessions := st.sessions - {s.id}, events := st.events + [Unpaired(s.id)]), Some(SessionRemoved))
    else if Abs(now - req.unixSeconds) > cfg.tolerance then Handled(st, Some(InvalidRequestTime))
    else
      var st1 := st.(cache := Purge(st.cache, now));
      var key := CacheKey(s, req);
      if key in st1.cache then
        match DecodeResponse(st1.cache[key].value, cfg.b64, cfg.versions)
        case Failure(e) => Handled(st1, Some(CachedResponseUnreadable(e)))
        case Success(response) => Handled(st1.(events := st1.events + [Sent(s.id, response)]), None)
      else DispatchSpec(env, cfg, s, req, now, st1)
  }

  /** The rest of `handle` once there is no cached response: approval routing, no-op exit, or a fresh response. */
  function DispatchSpec(env: Env, cfg: Config, s: Session, req: Request, now: int, st: SiloState): (h: Handled)
    ensures AppendsTo(st.events, h.state.events) && h.state.sessions == st.sessions
    ensures h.error != Some(SessionRemoved) && h.error != Some(InvalidRequestTime)
  {
    if NeedsApproval(env, req) then ApprovalSpec(env, cfg, s, req, now, st)
    else if IsNoOp(req) then Handled(st, None)
    else RespondSpec(env, cfg, s, req, now, st)
  }

  /** The last step of `handle`: an automatically approved response is built, announced to the user and sent. */
  function RespondSpec(env: Env, cfg: Config, s: Session, req: Request, now: int, st: SiloState): (h: Handled)
    ensures AppendsTo(st.events, h.state.events) && h.state.sessions == st.sessions
    ensures h.error != Some(SessionRemoved) && h.error != Some(InvalidRequestTime)
  {
    var o := ResponseForSpec(env, cfg, s, req, true, now, st);
    match o.result
    case Failure(e) => Handled(o.state, Some(e))
    case Success(response) =>
      Handled(o.state.(events := o.state.events + NotifyEvents(s, req, response) + [Sent(s.id, response)]), None)
  }

  /** `cachedResponse(for:with:)`: the live cached response for the key, when it decodes. */
  function CachedResponseSpec(cfg: Config, s: Session, req: Request, now: int, st: SiloState): (r: Option<Response>)
    ensures r.Some? <==>
      && CacheKey(s, req) in st.cache && IsLive(st.cache[CacheKey(s, req)], now)
      && DecodeResponse(st.cache[CacheKey(s, req)].value, cfg.b64, cfg.versions).Success?
    ensures r.Some? ==> DecodeResponse(st.cache[CacheKey(s, req)].value, cfg.b64, cfg.versions) == Success(r.value)
  {
    var key := CacheKey(s, req);
    if key in st.cache && IsLive(st.cache[key], now) then
      match DecodeResponse(st.cache[key].value, cfg.b64, cfg.versions)
      case Success(r) => Some(r)
      case Failure(_) => None
    else None
  }

  // ---- the class ------------------------------------------------------------------

  class Silo {
    var requestCache: map<string, Expiring<Object>>
    var pendingRequests: map<string, Expiring<string>>
    var sessions: set<string>
    var events: seq<Event>

    function State(): SiloState
      reads this
    {
      SiloState(requestCache, pendingRequests, sessions, events)
    }

    constructor (registered: set<string>)
      ensures State() == SiloState(map[], map[], registered, [])
    {
      requestCache := map[];
      pendingRequests := map[];
      sessions := registered;
      events := [];
    }

    /** `responseFor`: assembles the sub-responses step by step and caches the result. */
    method ResponseFor(env: Env, cfg: Config, s: Session, req: Request, allowed: bool, now: int)
      returns (result: Result<Response, SiloError>)
      modifies this
      ensures Outcome(result, State()) == ResponseForSpec(env, cfg, s, req, allowed, now, old(State()))
    {
      var sign: Option<SignResponse> := None;
      var gitSign: Option<GitSignResponse> := None;
      var me: Option<MeResponse> := None;

      if req.sign.Some? {
        var signPart := Sign(env, cfg.b64, s, req.id, req.sign.value, allowed, now);
        if signPart.Failure? {
          return Failure(signPart.error);
        }
        sign := Some(signPart.value.response);
        events := events + signPart.value.events;
      }

      if req.gitSign.Some? {
        var gitSignRequest := req.gitSign.value;
        var gitEvents := GitSign(env, s, req.id, gitSignRequest, allowed, now);
        gitSign := Some(gitEvents.response);
        events := events + gitEvents.events;
      }

      if req.me.Some? {
        var mePart := MeFor(env, req.me.value);
        if mePart.Failure? {
          return Failure(mePart.error);
        }
        me := Some(mePart.value);
      }

      var response := AssembleResponse(env, cfg, req, sign, gitSign, me);
      requestCache := requestCache[CacheKey(s, req) := Expiring(ResponseObject(response, cfg.b64, cfg.versions), ExpiresAt(now, cfg.tolerance))];
      return Success(response);
    }

    /**
     * The sign branch of `responseFor`: check the fingerprint, then the host,
     * then sign, or log the refusal.
     */
    static method Sign(env: Env, b64: Codec<Bytes>, s: Session, requestID: string, signRequest: SignRequest, allowed: bool, now: int)
      returns (r: Result<Part<SignResponse>, SiloError>)
      ensures r == SignPart(env, b64, s, requestID, signRequest, allowed, now)
    {
      if env.localFingerprint.Failure? {
        return Failure(KeyManagerFailure(env.localFingerprint.error));
      }
      var fingerprint := b64.decode(signRequest.fingerprint);
      if fingerprint.None? {
        return Failure(InvalidFingerprint);
      }
      if fingerprint.value != env.localFingerprint.value {
        return Failure(KeyDoesNotExist);
      }
      var sig: Option<string> := None;
      var err: Option<string> := None;
      var logged: seq<Event> := [];
      if allowed {
        var check := HostOk;
        if signRequest.hostAuth.Some? {
          check := env.checkHost(signRequest.hostAuth.value);
        }
        match check {
          case HostMismatch(d) =>
            logged := [SSHLogEvent(env, s, signRequest, "request failed", "rejected: " + d, now)];
            err := Some(d);
          case HostCheckFailed(d) =>
            err := Some(d);
          case HostOk =>
            var signed := env.sshSign(signRequest.data);
            if signed.Failure? {
              err := Some(signed.error);
            } else {
              sig := Some(signed.value);
              logged := [Signed(s.id, requestID), SSHLogEvent(env, s, signRequest, signed.value, signRequest.display, now)];
            }
        }
      } else {
        logged := [SSHLogEvent(env, s, signRequest, "request failed", "rejected: " + signRequest.display, now)];
        err := Some(RejectedConstant);
      }
      return Success(Part(SignResponse(sig, err), logged));
    }

    /** The git-sign branch of `responseFor`: sign the commit or tag, or log the refusal. */
    static method GitSign(env: Env, s: Session, requestID: string, req: GitSignRequest, allowed: bool, now: int)
      returns (part: Part<GitSignResponse>)
      ensures part == GitSignPart(env, s, requestID, req, allowed, now)
    {
      var sig: Option<string> := None;
      var err: Option<string> := None;
      var logged: seq<Event> := [];
      if allowed {
        if env.pgpKeyID.Failure? {
          err := Some(env.pgpKeyID.error);
        } else {
          var keyID := env.pgpKeyID.value;
          match req.git {
            case Commit(commit) =>
              var armored := env.signCommit(commit, keyID);
              if armored.Failure? {
                err := Some(armored.error);
              } else {
                var signature := armored.value.packetBase64;
                sig := Some(signature);
                logged := [Signed(s.id, requestID)];
                var commitHash := env.commitHash(commit, armored.value.armored);
                if commitHash.Failure? {
                  err := Some(commitHash.error);
                } else {
                  logged := logged + [Logged(CommitLog(CommitSignatureLog(s.id, now, signature, commit, commitHash.value)), s.pairingName)];
                }
              }
            case Tag(tag) =>
              var signed := env.signTag(tag, keyID);
              if signed.Failure? {
                err := Some(signed.error);
              } else {
                sig := Some(signed.value);
                logged := [Signed(s.id, requestID), Logged(TagLog(TagSignatureLog(s.id, signed.value, now, tag)), s.pairingName)];
              }
          }
        }
      } else {
        match req.git {
          case Commit(commit) =>
            logged := [Logged(CommitLog(CommitSignatureLog(s.id, now, RejectedSignature, commit, "")), s.pairingName)];
          case Tag(tag) =>
            logged := [Logged(TagLog(TagSignatureLog(s.id, RejectedSignature, now, tag)), s.pairingName)];
        }
        err := Some(RejectedConstant);
      }
      part := Part(GitSignResponse(sig, err), logged);
    }

    /** The me branch of `responseFor`: every key-manager failure aborts it. */
    static method MeFor(env: Env, meRequest: MeRequest) returns (r: Result<MeResponse, SiloError>)
      ensures r == MePart(env, meRequest)
    {
      var pgpPublicKey: Option<Bytes> := None;
      if meRequest.pgpUserId.Some? {
        var loaded := env.pgpPublicKey(meRequest.pgpUserId.value);
        if loaded.Failure? {
          return Failure(KeyManagerFailure(loaded.error));
        }
        pgpPublicKey := Some(loaded.value);
      }
      if env.email.Failure? {
        return Failure(KeyManagerFailure(env.email.error));
      }
      if env.publicKeyWire.Failure? {
        return Failure(KeyManagerFailure(env.publicKeyWire.error));
      }
      return Success(MeResponse(Me(env.email.value, env.publicKeyWire.value, pgpPublicKey)));
    }

    /** `lockResponseFor`: `responseFor` under the lock, which this model leaves out. */
    method LockResponseFor(env: Env, cfg: Config, s: Session, req: Request, allowed: bool, now: int)
      returns (result: Result<Response, SiloError>)
      modifies this
      ensures Outcome(result, State()) == ResponseForSpec(env, cfg, s, req, allowed, now, old(State()))
    {
      result := ResponseFor(env, cfg, s, req, allowed, now);
    }

    /** `handleRequestRequiresApproval`. */
    method HandleRequestRequiresApproval(env: Env, cfg: Config, s: Session, req: Request, now: int)
      returns (error: Option<SiloError>)
      modifies this
      ensures Handled(State(), error) == ApprovalSpec(env, cfg, s, req, now, old(State()))
    {
      pendingRequests := Purge(pendingRequests, now);
      var key := CacheKey(s, req);
      if key in pendingRequests {
        return Some(RequestPending);
      }
      pendingRequests := pendingRequests[key := Expiring("", ExpiresAt(now, cfg.tolerance))];
      events := events + [ApprovalRequested(s.id, req.id)];
      if req.sendACK {
        events := events + [Sent(s.id, AckFor(env, cfg, req))];
      }
      return None;
    }

    /** `handle`. */
    method Handle(env: Env, cfg: Config, s: Session, req: Request, now: int) returns (error: Option<SiloError>)
      modifies this
      ensures Handled(State(), error) == HandleSpec(env, cfg, s, req, now, old(State()))
    {
      if s.id !in sessions {
        return Some(SessionRemoved);
      }
      if req.unpair.Some? {
        sessions := sessions - {s.id};
        events := events + [Unpaired(s.id)];
        return Some(SessionRemoved);
      }
      if Abs(now - req.unixSeconds) > cfg.tolerance {
        return Some(InvalidRequestTime);
      }
      requestCache := Purge(requestCache, now);
      var key := CacheKey(s, req);
      if key in requestCache {
        var cached := DecodeResponse(requestCache[key].value, cfg.b64, cfg.versions);
        if cached.Failure? {
          return Some(CachedResponseUnreadable(cached.error));
        }
        events := events + [Sent(s.id, cached.value)];
        return None;
      }
      error := Dispatch(env, cfg, s, req, now);
    }

    /** `handle` after the cache lookup missed. */
    method Dispatch(env: Env, cfg: Config, s: Session, req: Request, now: int) returns (error: Option<SiloError>)
      modifies this
      ensures Handled(State(), error) == DispatchSpec(env, cfg, s, req, now, old(State()))
    {
      if req.sign.Some? && env.signNeedsApproval {
        error := HandleRequestRequiresApproval(env, cfg, s, req, now);
        return;
      }
      if req.gitSign.Some? && env.gitNeedsApproval {
        error := HandleRequestRequiresApproval(env, cfg, s, req, now);
        return;
      }
      if IsNoOp(req) {
        return None;
      }
      error := Respond(env, cfg, s, req, now);
    }

    /** `handle`'s automatic approval: respond, notify the user, send. */
    method Respond(env: Env, cfg: Config, s: Session, req: Request, now: int) returns (error: Option<SiloError>)
      modifies this
      ensures Handled(State(), error) == RespondSpec(env, cfg, s, req, now, old(State()))
    {
      var result := ResponseFor(env, cfg, s, req, true, now);
      if result.Failure? {
        return Some(result.error);
      }
      var response := result.value;
      ghost var responded := State();
      if response.sign.Some? {
        if response.sign.value.error.Some? {
          events := events + [ErrorNotified(s.id, response.sign.value.error.value)];
        } else {
          events := events + [UserNotified(s.id, req.id)];
        }
      }
      if response.gitSign.Some? {
        if response.gitSign.value.error.Some? {
          events := events + [ErrorNotified(s.id, response.gitSign.value.error.value)];
        } else {
          events := events + [UserNotified(s.id, req.id)];
        }
      }
      assert events == responded.events + NotifyEvents(s, req, response);
      events := events + [Sent(s.id, response)];
      assert State() == responded.(events := responded.events + NotifyEvents(s, req, response) + [Sent(s.id, response)]);
      return None;
    }

    /** `cachedResponse(for:with:)`: reads the cache without changing it. */
    method CachedResponse(cfg: Config, s: Session, req: Request, now: int) returns (r: Option<Response>)
      ensures r == CachedResponseSpec(cfg, s, req, now, State())
    {
      var key := CacheKey(s, req);
      if key in requestCache && IsLive(requestCache[key], now) {
        var decoded := DecodeResponse(requestCache[key].value, cfg.b64, cfg.versions);
        if decoded.Success? {
          return Some(decoded.value);
        }
      }
      return None;
    }
  }
}
