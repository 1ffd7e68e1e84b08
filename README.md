# Kryptonite phone-side core, modelled in Dafny

Kryptonite keeps a user's SSH and PGP keys on the phone. A paired workstation
sends requests to it: sign an SSH login, sign a git commit or tag, tell me your
keys, unpair. The phone answers each one. This project models the part of the
app that decides how a request is answered, and the values it reads and writes
along the way:

- **Silo** (`silo.dfy`, `silo_properties.dfy`) handles one request under the silo mutex, in this order:
  - the session must still be registered;
  - an unpair request removes the session;
  - the request's time must be within the tolerance;
  - a cached response is replayed as it was;
  - a request that needs approval sets a pending marker and asks the user;
  - a request that asks for nothing is dropped;
  - anything else gets a fresh response. Building it may sign, writes the audit log, and caches the encoded response for twice the tolerance.

  `Silo` is a class with the request cache, the pending markers, the registered sessions and an event log. Each method is proved equal to a pure function of the old state, and the properties are lemmas about those functions.
- **Response** (`response.dfy`) is the response and its parts, with their JSON encodings and decodings. One property is proved about it: a response round-trips exactly when its me part carries a PGP key.
- **SignatureLog** (`signature_log.dfy`) holds the three audit-log records, their stored dictionaries, their readers and their display names.
- **GitInfo** and **CommitInfo** (`git_info.dfy`, `commit_info.dfy`) are the git object being signed, read from and written to JSON.
- **Notify** (`notify.dfy`) builds the notifications shown to the user. `Notifier.PresentApproved` keeps the per-identifier counters that group repeated approvals.
- **TeamService** (`team_service.dfy`, `hash_chain.dfy`) is the team client of the hash-chain server:
  - to create a team, add a member directly or accept an invitation, it posts signed append blocks;
  - to sync, it reads pages of blocks until the server has no more;
  - all of this happens under the team mutex. The service is a class whose state is the local chain data, the requests sent so far and whether the mutex is held.
- **Resources** (`resources.dfy`) is the integer part of the colour helpers: splitting a 24-bit colour into bytes, and reading `#rgb`, `#rrggbb` and `#aarrggbb` text.

Supporting definitions:

- `wrappers.dfy` defines Option and Result.
- `json.dfy` models a JSON dictionary.
- `request.dfy` defines the fields of a request and a session that the modelled code reads.

Collaborators whose code is not part of this model become parameters:

- the key manager, the approval policy, known hosts and signing (the `Env` record);
- base64 and version parsing (`Codec` records with a round-trip hypothesis);
- the tag helpers (`TagSupport`) and the commit display helpers (`CommitDisplay`);
- the team's data manager, payload encoding, signing and seed-to-keypair derivation (the `Chain` record).

A session carries both names of its pairing: `name`, the device name written with every audit log, and `displayName`, used in notification titles. The hash value of an error message, which names its notification, is a parameter as well.

The clock is a parameter `now`. The server's replies are parameters: one per post, and one per page (`Round`) in a sync.

## Model

| member | source | states |
|---|---|---|
| Silo.IsRejected | Kryptonite/Silo.swift:26-28 | an error text is the user's refusal exactly when it is "rejected" |
| Silo.CacheKey | Kryptonite/Silo.swift:32-37 | the key is the session id, an underscore, then the request id |
| Silo.CacheKeySameSession | Kryptonite/Silo.swift:34-36 | within one session, two requests share a key exactly when their ids are equal |
| Silo.CacheKeyAmbiguousAcrossSessions | Kryptonite/Silo.swift:34-36 | ids that contain an underscore can make two different session/request pairs share a key |
| Silo.Purge | Kryptonite/Silo.swift:96 | removing expired objects keeps exactly the live entries, unchanged |
| Silo.SignPart | Kryptonite/Silo.swift:197-238 | a key manager or local fingerprint that fails aborts with KeyManagerFailure; a fingerprint that is not base64, or names another key, aborts (InvalidFingerprint / KeyDoesNotExist); it succeeds exactly when the request names the local key; otherwise the sub-response has exactly one of signature and error; it has a signature exactly when something was signed; without permission it is the "rejected" error and nothing is signed |
| Silo.GitSignPart | Kryptonite/Silo.swift:240-286 | a git sub-response without a signature has an error; it has a signature exactly when something was signed; without permission it is the "rejected" error and nothing is signed |
| Silo.MePart | Kryptonite/Silo.swift:288-297 | the me part has the key manager's email and wire key; it has a PGP key exactly when a PGP user id was asked for; without a PGP user id it succeeds whenever email and wire key do |
| Silo.ResponseForSpec | Kryptonite/Silo.swift:190-309 | sessions and markers are untouched and events only grow; a sign request whose fingerprint is not the local key's, or whose key manager fails, changes nothing; on failure the cache is untouched and the error comes from the key manager or the fingerprint; on success the encoded response is cached under the request's key for twice the tolerance, and the response answers exactly the parts that were asked for, with the current version and no unpair or ack; without permission every signature part is the "rejected" error and nothing is signed |
| Silo.AckFor | Kryptonite/Silo.swift:166-168 | the ack answers the request's id, carries an ack part and nothing else |
| Silo.ApprovalSpec | Kryptonite/Silo.swift:156-178 | cache and sessions unchanged, nothing signed; the request is refused as pending exactly when its key has a live marker |
| Silo.HandleSpec | Kryptonite/Silo.swift:74-154 | events only grow; the session is removed exactly on an unpair from a registered session; SessionRemoved exactly when the session is unknown or the request unpairs; InvalidRequestTime exactly when a registered, non-unpair request is outside the tolerance |
| Silo.DispatchSpec | Kryptonite/Silo.swift:104-121 | after a cache miss, sessions stay, events only grow, and neither session nor time errors can arise |
| Silo.RespondSpec | Kryptonite/Silo.swift:123-153 | the automatic answer keeps sessions, only appends events, and raises no session or time error |
| Silo.Silo.constructor | Kryptonite/Silo.swift:62-65 | a new silo has an empty cache and no markers |
| Silo.Silo.ResponseFor | Kryptonite/Silo.swift:190-309 | result and new state are those of ResponseForSpec on the old state |
| Silo.Silo.Sign | Kryptonite/Silo.swift:197-238 | returns SignPart, including its key-manager, fingerprint and mismatch aborts |
| Silo.Silo.GitSign | Kryptonite/Silo.swift:240-286 | returns GitSignPart |
| Silo.Silo.MeFor | Kryptonite/Silo.swift:288-297 | returns MePart |
| Silo.Silo.LockResponseFor | Kryptonite/Silo.swift:183-187 | the same outcome as ResponseFor |
| Silo.Silo.HandleRequestRequiresApproval | Kryptonite/Silo.swift:156-178 | error and new state are those of ApprovalSpec |
| Silo.Silo.Handle | Kryptonite/Silo.swift:74-154 | error and new state are those of HandleSpec |
| Silo.Silo.Dispatch | Kryptonite/Silo.swift:104-121 | error and new state are those of DispatchSpec |
| Silo.Silo.Respond | Kryptonite/Silo.swift:123-153 | error and new state are those of RespondSpec |
| Silo.CachedResponseSpec | Kryptonite/Silo.swift:311-320 | a response exactly when a live entry is cached under the request's key and decodes, and then it is the decoded response |
| Silo.Silo.CachedResponse | Kryptonite/Silo.swift:311-320 | the live cached response for the key when it decodes, otherwise none, with nothing changed |
| SiloProperties.UnregisteredSessionChangesNothing | Kryptonite/Silo.swift:78-80 | an unknown session is refused and the whole state is unchanged |
| SiloProperties.UnpairComesFirst | Kryptonite/Silo.swift:82-89 | an unpair removes the session, records the unpair, and does nothing else, whatever else the request holds |
| SiloProperties.UnpairedSessionStaysRemoved | Kryptonite/Silo.swift:78-89 | after an unpair every later request on that session is refused without effect |
| SiloProperties.StaleRequestChangesNothing | Kryptonite/Silo.swift:91-94 | a request outside the tolerance is refused and nothing changes, not even expiry |
| SiloProperties.ToleranceBoundaryAccepted | Kryptonite/Silo.swift:92 | a difference of exactly the tolerance, early or late, passes the time check |
| SiloProperties.CacheHitOnlyResends | Kryptonite/Silo.swift:96-102 | a cache hit purges, resends the decoded response (or fails to read it) and does nothing else: no marker, no signature |
| SiloProperties.FreshAnswerSendsItsResponse | Kryptonite/Silo.swift:123-153 | a fresh answer sends, as its last event, the response responseFor built and cached |
| SiloProperties.FreshResponseDecodes | Kryptonite/Silo.swift:301-305 | the response responseFor caches decodes back to itself when a me part carries a PGP key |
| SiloProperties.HandleTwiceSendsSameResponse | Kryptonite/Silo.swift:96-102 | handling the same request again within the tolerance resends the identical response and signs nothing |
| SiloProperties.ReplayOfMeWithoutPgpKeyFails | Kryptonite/Silo.swift:97-99 | replaying a cached me response without a PGP key fails: the cached response cannot be read (missing pgp_pk) |
| SiloProperties.ApprovalSetsMarker | Kryptonite/Silo.swift:157-174 | approval routing sets a marker for twice the tolerance, asks the user, and sends an ack only when asked |
| SiloProperties.DuplicateWhilePendingIsRefused | Kryptonite/Silo.swift:157-160 | the same request again while its marker is live is refused as pending, with no new event |
| SiloProperties.ExpiredMarkerIsNew | Kryptonite/Silo.swift:157-161 | after its marker expires the request is treated as new and gets a fresh marker |
| SiloProperties.LiveMarkerRefuses | Kryptonite/Silo.swift:157-160 | a live marker refuses and only the purge changes the state |
| SiloProperties.RefusalSignsNothing | Kryptonite/Silo.swift:208-279 | without permission each sign part is the "rejected" error and no signature is made |
| SiloProperties.FingerprintMismatchChangesNothing | Kryptonite/Silo.swift:197-202 | a sign request naming another key aborts with KeyDoesNotExist and nothing changes |
| SiloProperties.KeyManagerFailureAbortsSign | Kryptonite/Silo.swift:197-200 | a sign request whose key manager or local fingerprint fails aborts with that error and nothing changes |
| SiloProperties.CachedAfterResponse | Kryptonite/Silo.swift:303-305 | until twice the tolerance has passed, cachedResponse returns the response just built |
| SiloProperties.CachedResponseExpires | Kryptonite/Silo.swift:305 | after twice the tolerance cachedResponse returns nothing |
| Responses.NewResponse | Kryptonite/Response.swift:25-36 | every field is the argument given, and the version is the current one |
| Responses.SignatureObject | Kryptonite/Response.swift:137-147 | the dictionary holds "signature" and "error" exactly when they are present |
| Responses.DecodeSignResponse | Kryptonite/Response.swift:126-135 | each field is present exactly when its key holds a string |
| Responses.DecodeGitSignResponse | Kryptonite/Response.swift:159-168 | each field is present exactly when its key holds a string |
| Responses.SignResponseRoundTrip | Kryptonite/Response.swift:126-147 | a sign response decodes from its own dictionary |
| Responses.GitSignResponseRoundTrip | Kryptonite/Response.swift:159-180 | a git-sign response decodes from its own dictionary |
| Responses.MeObject | Kryptonite/Response.swift:205-211 | email and wire key always, pgp_pk only when present |
| Responses.DecodeMe | Kryptonite/Response.swift:199-203 | succeeds exactly when email is a string and wire key and pgp_pk are base64; a decoded me always has a PGP key |
| Responses.MeResponseObject | Kryptonite/Response.swift:223-225 | the single key "me" |
| Responses.DecodeMeResponse | Kryptonite/Response.swift:219-222 | a missing "me" object fails with MissingField("me") |
| Responses.MeRoundTrip | Kryptonite/Response.swift:199-211 | a me round-trips exactly when it has a PGP key; without one decoding fails with MissingField("pgp_pk") |
| Responses.MeResponseRoundTrip | Kryptonite/Response.swift:219-225 | a me response with a PGP key round-trips |
| Responses.UnpairObject | Kryptonite/Response.swift:234-236 | an empty dictionary |
| Responses.AckObject | Kryptonite/Response.swift:245-247 | an empty dictionary |
| Responses.DecodeUnpairResponse | Kryptonite/Response.swift:231-233 | accepts any object |
| Responses.DecodeAckResponse | Kryptonite/Response.swift:242-244 | accepts any object |
| Responses.ResponseObject | Kryptonite/Response.swift:72-110 | only response keys are written; request_id and sns_endpoint_arn always, with the response's values; approved_until and me_response exactly when present |
| Responses.ResponseObjectKeys | Kryptonite/Response.swift:72-110 | request_id and sns_endpoint_arn always, each optional key exactly when its field is present |
| Responses.OptionalObject | Kryptonite/Response.swift:47-65 | an optional part is present exactly when its key holds an object |
| Responses.DecodeResponse | Kryptonite/Response.swift:38-70 | request_id, sns_endpoint_arn and v are required, in that order; on success each field is read from its key, and each optional part is present exactly when its key holds an object |
| Responses.OptionalFieldsRoundTrip | Kryptonite/Response.swift:43-103 | approved_until, tracking_id, unpair and ack read back as written |
| Responses.SignFieldsRoundTrip | Kryptonite/Response.swift:47-87 | the sign and git-sign parts read back as written |
| Responses.ResponseRoundTrip | Kryptonite/Response.swift:38-110 | a versioned response whose me part, if any, has a PGP key decodes from its own encoding |
| Responses.ResponseWithoutPgpKeyFailsToDecode | Kryptonite/Response.swift:55-57 | a response whose me part has no PGP key fails to decode from its own encoding |
| CommitInfos.CommitObject | Kryptonite/CommitInfo.swift:35-43 | exactly the five commit keys, each a string |
| CommitInfos.DecodeCommit | Kryptonite/CommitInfo.swift:25-33 | succeeds exactly when all five keys hold base64; a failure is one of those keys' errors |
| CommitInfos.CommitObjectFields | Kryptonite/CommitInfo.swift:35-43 | each key holds the base64 of its field |
| CommitInfos.CommitRoundTrip | Kryptonite/CommitInfo.swift:25-43 | a commit decodes from its own dictionary |
| GitInfos.DecodeGitInfo | Kryptonite/GitInfo.swift:16-29 | both keys as strings is invalid; a commit object wins over a tag object; neither is invalid |
| GitInfos.GitObject | Kryptonite/GitInfo.swift:31-38 | one key, "commit" or "tag", holding the object's dictionary |
| GitInfos.Subtitle | Kryptonite/GitInfo.swift:40-47 | "Git Commit" exactly for commits, "Git Tag" exactly for tags |
| GitInfos.ShortDisplay | Kryptonite/GitInfo.swift:49-56 | the commit's or tag's own short display |
| GitInfos.CommitGitInfoRoundTrip | Kryptonite/GitInfo.swift:16-38 | a commit git info decodes from its own dictionary |
| GitInfos.TagGitInfoRoundTrip | Kryptonite/GitInfo.swift:16-38 | a tag git info decodes from its own dictionary when the tag does |
| SignatureLogs.NewSSHLog | Kryptonite/SignatureLog.swift:52-69 | host auth is its JSON text, or "unknown" when absent or not encodable; the other fields are the arguments |
| SignatureLogs.SSHLogObject | Kryptonite/SignatureLog.swift:71-77 | exactly the five stored keys |
| SignatureLogs.DecodeSSHLog | Kryptonite/SignatureLog.swift:39-50 | succeeds exactly when all five keys have the right type, each field read from its key; otherwise a parsing error |
| SignatureLogs.SSHLogRoundTrip | Kryptonite/SignatureLog.swift:39-77 | an SSH log reads back from its stored dictionary |
| SignatureLogs.CommitLogDisplayName | Kryptonite/SignatureLog.swift:90-101 | a refusal shows "rejected: " and the short display; a hash shorter than 7 shows the short display; otherwise the first seven hash characters in brackets and the message |
| SignatureLogs.CommitLogObject | Kryptonite/SignatureLog.swift:135-142 | the commit's keys plus session, date, signature and commit_hash, the commit's values unchanged |
| SignatureLogs.Base64Field | Kryptonite/SignatureLog.swift:123 | succeeds exactly when the text is base64, with its bytes |
| SignatureLogs.DecodeCommitLog | Kryptonite/SignatureLog.swift:107-124 | any of the eight required keys missing is a parsing error; session, date, signature and commit_hash are read back as stored; tree, author, committer, message and a present parent are the base64 decodings of their stored text; an absent parent is empty |
| SignatureLogs.CommitLogRoundTrip | Kryptonite/SignatureLog.swift:107-142 | a commit log reads back from its stored dictionary |
| SignatureLogs.TagLogDisplayName | Kryptonite/SignatureLog.swift:153-159 | a refusal shows "rejected: " and the tag's short display, otherwise the short display |
| SignatureLogs.TagLogObject | Kryptonite/SignatureLog.swift:191-197 | the tag's keys plus session, date and signature, the tag's other values unchanged |
| SignatureLogs.DecodeTagLog | Kryptonite/SignatureLog.swift:165-180 | any of the eight required keys missing is a parsing error; the fields are read back, the message from base64 |
| SignatureLogs.TagLogRoundTrip | Kryptonite/SignatureLog.swift:165-197 | a tag log reads back from its stored dictionary |
| Notify.DigitChar | Kryptonite/Notify.swift:252 | the digit character of a value below ten |
| Notify.NatToString | Kryptonite/Notify.swift:252 | decimal digits without a leading zero |
| Notify.NatToStringValue | Kryptonite/Notify.swift:252 | the digits read back as the number |
| Notify.IntToString | Kryptonite/Notify.swift:252 | a minus sign before the digits exactly for negatives |
| Notify.IntToStringInjective | Kryptonite/Notify.swift:252 | different counts print differently |
| Notify.NotificationIdentifier | Kryptonite/Notify.swift:235-243 | the sign display, else the git short display, else the request id |
| Notify.RequestNotificationIdentifier | Kryptonite/Notify.swift:247-249 | the session id, an underscore, then the request's identifier |
| Notify.WithCount | Kryptonite/Notify.swift:251-253 | the identifier, an underscore, then the count |
| Notify.WithCountInjective | Kryptonite/Notify.swift:251-253 | different counts give different identifiers |
| Notify.NoteSubtitle | Kryptonite/Notify.swift:34-45 | "SSH Login" for sign requests; the git object's subtitle followed by " Signature" for git requests; empty exactly when there is neither |
| Notify.NoteBody | Kryptonite/Notify.swift:34-45 | the sign display for sign requests, the git object's short display for git requests, "Unknown" when there is neither |
| Notify.ErrorNote | Kryptonite/Notify.swift:204-220 | no note exactly for the rejection message; otherwise the message is the body, the title names the pairing, and the identifier is the session id, an underscore, then the message's hash |
| Notify.ErrorNotesDistinct | Kryptonite/Notify.swift:219 | two errors on one session whose messages hash differently get different identifiers |
| Notify.CarriesRequest | Kryptonite/Notify.swift:52-63 | true exactly when some note carries the request's id |
| Notify.Present | Kryptonite/Notify.swift:30-99 | no note exactly when a pending or delivered note carries the request; otherwise the note with the request's id, title, subtitle and body |
| Notify.ApprovedSpec | Kryptonite/Notify.swift:150-185 | other counters are unchanged; if the previous grouped note is gone the count restarts at 1 with the plain body, otherwise it is replaced, the count goes up by one, and the body gets the count in brackets |
| Notify.Notifier.constructor | Kryptonite/Notify.swift:25-27 | no counters |
| Notify.Notifier.PresentApproved | Kryptonite/Notify.swift:117-187 | note, replaced identifier and new counters are those of ApprovedSpec on the old counters |
| Notify.ApprovedCountsOn | Kryptonite/Notify.swift:157-185 | while the last grouped note is still shown, the next approval replaces it and counts one higher |
| Notify.ApprovedRestartsWhenCleared | Kryptonite/Notify.swift:162-166 | once the last grouped note was cleared, the count restarts at 1 |
| Resources.HexComponents | krSSH/Resources.swift:48-56 | each component is below 256 and, for a 24-bit value, they recompose it |
| Resources.HexComponentsRoundTrip | krSSH/Resources.swift:48-53 | three bytes joined into a 24-bit number split back into the same bytes |
| Resources.AppColorComponents | krSSH/Resources.swift:58-60 | the app colour is (31, 177, 138) |
| Resources.HexDigitValue | krSSH/Resources.swift:69 | a hex digit's value is below 16 |
| Resources.Trim | krSSH/Resources.swift:67 | trimming non-alphanumerics leaves text that starts and ends alphanumeric, or nothing |
| Resources.FirstAlphanumeric | krSSH/Resources.swift:67 | the first alphanumeric position from a start, with none before it |
| Resources.AfterLastAlphanumeric | krSSH/Resources.swift:67 | just past the last alphanumeric position, with none after it |
| Resources.HexRun | krSSH/Resources.swift:69 | the leading run of hex digits |
| Resources.HexValue | krSSH/Resources.swift:69 | the value of a hex digit string lies below 16 to the power of its length |
| Resources.ScanHexInt32 | krSSH/Resources.swift:68-69 | the scanned value never exceeds the 32-bit maximum; it is the value of the leading hex digits, read after a `0x` or `0X` prefix when there is one, and the 32-bit maximum when that value overflows |
| Resources.HexStringComponents | krSSH/Resources.swift:66-82 | every component is below 256; lengths other than 3, 6 and 8 give (1, 1, 1, 0); lengths 3 and 6 are opaque |
| Resources.TwelveBit | krSSH/Resources.swift:72-73 | opaque, each component below 256 |
| Resources.TwentyFourBit | krSSH/Resources.swift:74-75 | opaque, each component below 256 |
| Resources.ThirtyTwoBit | krSSH/Resources.swift:76-77 | each component below 256 |
| Resources.ScanAllDigits | krSSH/Resources.swift:69 | up to eight hex digits scan to their value |
| Resources.HexRunAllDigits | krSSH/Resources.swift:69 | text made only of hex digits is wholly the run |
| Resources.TrimAllAlphanumeric | krSSH/Resources.swift:67 | "#" followed by alphanumeric-bounded text trims to that text |
| Resources.ComponentsOfDigits | krSSH/Resources.swift:66-80 | "#" and 3, 6 or 8 hex digits select the 12-, 24- or 32-bit reading of their value |
| Resources.TwelveBitNibbles | krSSH/Resources.swift:73 | the 12-bit reading gives each nibble times 17 |
| Resources.TwentyFourBitBytes | krSSH/Resources.swift:75 | the 24-bit reading gives the three bytes |
| Resources.ThirtyTwoBitBytes | krSSH/Resources.swift:77 | the 32-bit reading gives the four bytes, alpha first |
| Resources.SixDigitRoundTrip | krSSH/Resources.swift:74-75 | "#rrggbb" reads back as its bytes, opaque |
| Resources.EightDigitRoundTrip | krSSH/Resources.swift:76-77 | "#aarrggbb" reads back as its four bytes |
| Resources.ThreeDigitRoundTrip | krSSH/Resources.swift:72-73 | "#rgb" reads back as each nibble times 17, opaque |
| Resources.SixDigitsAgreeWithHex | krSSH/Resources.swift:48-82 | the six-digit text of a 24-bit value gives the same bytes as the integer constructor |
| TeamServices.DecodeServerResponse | Kryptonite/TeamService.swift:75-83 | a success object wins and its decoding decides; else an error string is a server error; else a bad response |
| TeamServices.ServerReplyObject | Kryptonite/TeamService.swift:71-73 | a success reply has only "success", an error reply only "error" |
| TeamServices.ServerReplyRoundTrip | Kryptonite/TeamService.swift:75-83 | a reply decodes from its own encoding when its payload does |
| TeamServices.DecodeEmpty | Kryptonite/TeamService.swift:100-103 | any object is an empty response |
| TeamServices.SuccessWinsOverError | Kryptonite/TeamService.swift:76-79 | a reply with both success and error reads as success |
| TeamServices.AddedMember | Kryptonite/TeamService.swift:180-183 | storing a member appends it and its block |
| TeamServices.TeamPointerOf | Kryptonite/TeamService.swift:422-428 | after the last block hash when there is one, otherwise at the team's initial public key; a store error propagates |
| TeamServices.InvitePointer | Kryptonite/TeamService.swift:434-436 | the invitation's initial team public key |
| TeamServices.FreshMemberReadsLikeInvitee | Kryptonite/TeamService.swift:422-436 | a member with no blocks yet reads from the same pointer as an invitee of its team |
| TeamServices.PostAppendSpec | Kryptonite/TeamService.swift:156-194 | at most one request is sent, the signed append payload; data changes only on Done, which needs a server success and appends the member and its block; a server error leaves data alone |
| TeamServices.AddAsWritten | Kryptonite/TeamService.swift:144-195 | blocked while the mutex is held; a throwing last block hash fails with the mutex still held; no last block hash fails with nothing changed |
| TeamServices.AddSpec | Kryptonite/TeamService.swift:144-195 | blocked while the mutex is held; otherwise the mutex is free afterwards |
| TeamServices.AcceptAsWritten | Kryptonite/TeamService.swift:201-266 | blocked while the mutex is held; a bad seed fails with nothing changed; a throwing last block hash fails with the mutex still held |
| TeamServices.AcceptSpec | Kryptonite/TeamService.swift:201-266 | blocked while the mutex is held; otherwise the mutex is free afterwards |
| TeamServices.CreateTeamSpec | Kryptonite/TeamService.swift:119-138 | sends the genesis block as is, stores nothing, succeeds exactly on a server success |
| TeamServices.AddNeedsLastBlockHash | Kryptonite/TeamService.swift:147-151 | without a last block hash add fails and changes nothing |
| TeamServices.AcceptChecksSeedFirst | Kryptonite/TeamService.swift:210-214 | a bad invite seed fails before anything else, changing nothing |
| TeamServices.AcceptNeedsNewestBlock | Kryptonite/TeamService.swift:216-220 | without a last block hash accept fails with needNewestBlock, changing nothing |
| TeamServices.AddWritesOnlyOnSuccess | Kryptonite/TeamService.swift:144-195 | at most one request, the add-member append after the last hash, signed by the team key; data changes exactly on Done, which needs a server success and appends the member and its block |
| TeamServices.AcceptRecordsNonceKey | Kryptonite/TeamService.swift:201-264 | an accepted invite was sent and stored under the nonce key derived from the seed, and the new member carries the identity's own key |
| TeamServices.AddAsWrittenKeepsLock | Kryptonite/TeamService.swift:145-156 | as written, a throwing lastBlockHash leaves the mutex held, so the next add is blocked |
| TeamServices.AcceptAsWrittenKeepsLock | Kryptonite/TeamService.swift:202-226 | as written, a payload encoding failure leaves the mutex held |
| TeamServices.AppendFailureDoesNotBlock | Kryptonite/TeamService.swift:144-195 | with every exit unlocking, no add leaves the next add blocked |
| TeamServices.ReadSetup | Kryptonite/TeamService.swift:286-295 | a member signs with its own key from its team pointer; an invitee signs with the seed's keypair from the genesis key, failing exactly when the seed is bad |
| TeamServices.PageStep | Kryptonite/TeamService.swift:315-340 | an empty page ends the sync, with success exactly at the checkpoint; the sync goes on exactly on a non-empty, verified page with more; data changes only by verifying a page |
| TeamServices.SyncStep | Kryptonite/TeamService.swift:363-415 | at most one read is sent, and it is the read payload at the mode's pointer, sent under the public key of the mode's signer; going on needs a sent read; data changes only on a server success |
| TeamServices.SyncRounds | Kryptonite/TeamService.swift:363-417 | the recursion keeps the mutex state and never reports Blocked |
| TeamServices.SyncSpec | Kryptonite/TeamService.swift:349-361 | blocked while the mutex is held; otherwise the mutex stays held exactly while a reply is awaited |
| TeamServices.EmptyPageChecksCheckpoint | Kryptonite/TeamService.swift:390-400 | an empty first page leaves the data alone and succeeds exactly at the checkpoint |
| TeamServices.LastPageEndsSync | Kryptonite/TeamService.swift:405-408 | a page without more ends the sync; later rounds are never used |
| TeamServices.SyncSendsOnePerRound | Kryptonite/TeamService.swift:363-417 | a sync sends at most one read per round and only appends |
| TeamServices.SyncContinuesOnlyWithMore | Kryptonite/TeamService.swift:405-410 | a sync still waiting had a non-empty page with more on every round, and sent one read per round |
| TeamServices.InviteSyncRereadsGenesis | Kryptonite/TeamService.swift:286-343 | every read an invitee sends, on every round, starts at the genesis key |
| TeamServices.MemberSyncResumes | Kryptonite/TeamService.swift:365-367 | a member's first read starts at its team pointer |
| TeamServices.ServerErrorEndsSync | Kryptonite/TeamService.swift:383-386 | a server error ends the sync as a failure, with the data unchanged |
| TeamServices.TeamService.constructor | Kryptonite/TeamService.swift:109-113 | a new service holds the given data, has sent nothing and is unlocked |
| TeamServices.TeamService.CreateTeam | Kryptonite/TeamService.swift:119-138 | completion and new state are those of CreateTeamSpec |
| TeamServices.TeamService.PostAppend | Kryptonite/TeamService.swift:156-194 | once released, the same outcome as PostAppendSpec |
| TeamServices.TeamService.Add | Kryptonite/TeamService.swift:144-195 | completion and new state are those of AddSpec |
| TeamServices.TeamService.Accept | Kryptonite/TeamService.swift:201-266 | completion and new state are those of AcceptSpec |
| TeamServices.TeamService.Step | Kryptonite/TeamService.swift:363-415 | one page as SyncStep |
| TeamServices.TeamService.Sync | Kryptonite/TeamService.swift:349-417 | completion and new state are those of SyncSpec, the recursion written as a loop |

## Left out

- I/O and transport are parameters, not modelled:
  - `TransportControl.send` becomes a `Sent` event;
  - the team server's replies are given as parameters;
  - a throwing `sendRequest` is not modelled.
- Mutexes and callbacks. Each operation runs to completion, and the team mutex is a `locked` flag. Concurrent callers, the notification mutex, and completion handlers that run on other threads are not modelled.
- Singletons, analytics events, `updatedUserIDs` and debug logging are not modelled.
- SSH digest-type selection from the request's version is not modelled: signing is a function of the data.
- Time is an integer `now`. The source compares fractional seconds, and the model does not capture that.
- Cache storage format. Encoded responses are cached as JSON dictionaries; serialising them to bytes and parsing them back is not modelled. Cache expiry is modelled as: an entry is live while `now` is at most its expiry time.
- The silo's caches exist only if `Cache` creation succeeded. The model assumes they always exist.
- Definitions that are not part of this model are taken as given:
  - Request.swift and Session.swift (only the fields read are modelled);
  - TagInfo.swift and commit display text, which become `TagSupport` and `CommitDisplay` fields;
  - base64 and Version, which become `Codec`s;
  - Policy, KnownHostManager and KeyManager, which become `Env` fields;
  - HashChain.swift, Team.swift and the team data manager, which become `Chain` fields.
  - `CommitSignatureLog.rejectedConstant` is defined outside this model. It is taken to be the empty signature, which is what `displayName` tests for.
- TeamServices.AcceptSpec: the key manager that `accept` queries at the start (TeamService.swift:204-208) is not modelled. The device keys are a parameter, so a key manager failure there is not modelled.
- `getTeam` re-reads from the genesis key on every page, and `getVerifiedTeamUpdates` re-reads its team pointer each round. Both behaviours are modelled as written and stated as properties.
- Throws that the model does not raise. The send in `handle` is `try TransportControl.shared.send` (Silo.swift:100, 153). At line 153 a throw would come after the response was cached and logged, and the model reports success there. `try KRSodium.shared()` around signing and seed-to-keypair derivation (TeamService.swift:159, 211, 231, 289, 300, 372) can throw; the model's `Chain.sign` and `Chain.keyPairFromSeed` give an Option, so only their nil results are modelled. In `add` and `accept` such a throw would also keep the mutex held. The read nonce `Data.random(size: 32)` (TeamService.swift:294, 366) is each `Round`'s `nonce` field, so its generation and any failure of it are not modelled.
- The team error cases `noTeam`, `needAdminKeypair` and `blockDidNotPost` are never raised by the modelled code, so they are not modelled.
- The synchronous throw paths of `getTeam` and `getVerifiedTeamUpdates` release the mutex. The model folds them into the same failure completion as errors reported through the callback.
- Resources.Trim, Resources.IsAlphanumeric: `CharacterSet.alphanumerics` is Unicode-wide, and the model uses ASCII letters and digits.
- SignatureLogs.DecodeCommitLog: `CommitSignatureLog.init(object:)` (SignatureLog.swift:123) base64-decodes only `message` and passes `tree`, `parent`, `author` and `committer` as strings to `CommitInfo`, whose initializer takes bytes (CommitInfo.swift:18). The model resolves this the way the stored dictionary is written (every commit field as base64 text) and decodes all five fields; an absent parent becomes empty bytes.
- Resources.ScanHexInt32: `Scanner.scanHexInt32` is modelled on text that was already trimmed. It reads an optional `0x`/`0X` prefix and then the leading run of hex digits. It gives 0 when there are no digits and saturates at the 32-bit maximum. Skipping leading whitespace is not modelled, because trimmed text has none.
- `UIColor` construction divides by 255 in floating point. Only the integer components are modelled.
- `colorFromString` depends on `String.hashValue`, which is not stable, so it is not modelled.
- View controllers and other UI code are not modelled.
- Audit logging: the model logs what the source logs. That is a signature made, a refusal, and a host mismatch. Other signing errors are not logged.
- Responses.DecodeMe requires `pgp_pk`, although `MeObject` writes it only when present. This is modelled as written and stated by MeRoundTrip and SiloProperties.ReplayOfMeWithoutPgpKeyFails.

## Findings

| source | as written | input that shows it | evidently intended | confidence | as-written member | corrected member |
|---|---|---|---|---|---|---|
| Kryptonite/TeamService.swift:145-156 | `add` locks the mutex and then calls `try lastBlockHash()` and `try payload.jsonData()`. A throw from either leaves the function without unlocking. | the data manager fails while reading the last block hash; the next `add` then waits on the mutex forever | every exit of `add` releases the mutex, as the explicit `unlock` calls before each `throw` do | not executed | TeamServices.AddAsWritten, TeamServices.AddAsWrittenKeepsLock | TeamServices.AddSpec, TeamServices.AppendFailureDoesNotBlock |
| Kryptonite/TeamService.swift:202-226 | `accept` locks the mutex and then calls `try lastBlockHash()` and `try payload.jsonData()`. A throw from either leaves the function without unlocking. | the append payload cannot be encoded; the mutex stays held | every exit of `accept` releases the mutex | not executed | TeamServices.AcceptAsWritten, TeamServices.AcceptAsWrittenKeepsLock | TeamServices.AcceptSpec |
