/**
 * A request from a paired workstation and the pairing session it arrives on.
 * Their definitions (Request.swift, Session.swift) are not part of this
 * model; the fields below are the ones the modelled code reads.
 */
module Requests {
  import opened Wrappers
  import opened Json
  import opened GitInfos

  /** A host-identity assertion attached to an SSH sign request; the modelled code only passes it on. */
  datatype VerifiedHostAuth = VerifiedHostAuth(hostName: string, hostKey: Bytes, signature: Bytes)

  datatype SignRequest = SignRequest(data: Bytes, fingerprint: string, display: string, hostAuth: Option<VerifiedHostAuth>)
  datatype GitSignRequest = GitSignRequest(git: GitInfo, userId: string)
  datatype MeRequest = MeRequest(pgpUserId: Option<string>)
  datatype UnpairRequest = UnpairRequest

  datatype Request = Request(
    id: string,
    unixSeconds: int,
    sign: Option<SignRequest>,
    gitSign: Option<GitSignRequest>,
    me: Option<MeRequest>,
    unpair: Option<UnpairRequest>,
    sendACK: bool)

  /** A session and its pairing's `name` (the device name of the audit log) and `displayName` (the notification titles). */
  datatype Session = Session(id: string, pairingName: string, pairingDisplayName: string)

  /** A request that asks for nothing: no sign, git-sign or me part. */
  predicate IsNoOp(r: Request) {
    r.sign.None? && r.gitSign.None? && r.me.None?
  }
}
