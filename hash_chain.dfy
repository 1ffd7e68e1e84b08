/**
 * The values of the team hash chain that the team client builds and reads.
 * Their definitions (HashChain.swift, Team.swift) are not part of this
 * model; the fields below are the ones the team client fills in.
 */
module HashChain {
  import opened Json

  /** `Team.MemberIdentity`: a member's signing key, email and device keys. */
  datatype MemberIdentity = MemberIdentity(publicKey: Bytes, email: string, sshPublicKey: Bytes, pgpPublicKey: Bytes)

  /** The operations an append block can carry. */
  datatype Operation = AddMember(member: MemberIdentity) | AcceptInvite(member: MemberIdentity)

  /** An append names the block it extends. */
  datatype AppendBlock = AppendBlock(lastBlockHash: Bytes, operation: Operation)

  /** Where a read starts: after a known block, or at the chain's genesis, named by the team's first public key. */
  datatype TeamPointer = PublicKey(key: Bytes) | LastBlockHash(hash: Bytes)

  datatype ReadBlock = ReadBlock(teamPointer: TeamPointer, nonce: Bytes, unixSeconds: nat)

  datatype Payload = Append(append: AppendBlock) | Read(read: ReadBlock)

  /** A signed block: the payload's JSON text, signed by `publicKey`. */
  datatype Block = Block(publicKey: Bytes, payload: string, signature: Bytes)

  /** `HashChain.Request`: what is sent to the team server. */
  datatype ChainRequest = ChainRequest(publicKey: Bytes, payload: string, signature: Bytes)

  /** `HashChain.Response`: one page of blocks, and whether the server has more. */
  datatype ChainResponse = ChainResponse(blocks: seq<Block>, hasMore: bool)

  predicate HasBlocks(r: ChainResponse) {
    |r.blocks| > 0
  }
}
