/**
 * The audit-log records written for every SSH, commit and tag signature (or
 * refusal), with their display names and the dictionaries they are stored
 * as. Dates are seconds since 1970.
 */
module SignatureLogs {
  import opened Wrappers
  import opened Json
  import opened CommitInfos
  import opened GitInfos
  import opened Requests

  /** Why a stored dictionary could not be read back as a log record. */
  datatype LogError = LogStatementParsingError | InvalidLogBase64

  /** The signature recorded for a refused git signature: empty, which `displayName` shows as rejected. */
  const RejectedSignature: string := ""

  // ---- SSH ------------------------------------------------------------------

  datatype SSHSignatureLog = SSHSignatureLog(session: string, signature: string, date: int, displayName: string, hostAuth: string)

  /** What is stored when no host identity is known. */
  const UnknownHost: string := "unknown"

  /**
   * `SSHSignatureLog.init(session:hostAuth:signature:displayName:date:)` with a
   * `VerifiedHostAuth?`: the host assertion is kept as its JSON text, or as
   * "unknown" when there is none or it does not encode.
   */
  function NewSSHLog(session: string, hostAuth: Option<VerifiedHostAuth>, jsonString: VerifiedHostAuth -> Option<string>,
                     signature: string, displayName: string, date: int): (l: SSHSignatureLog)
    ensures hostAuth.None? ==> l.hostAuth == UnknownHost
    ensures hostAuth.Some? && jsonString(hostAuth.value).None? ==> l.hostAuth == UnknownHost
    ensures hostAuth.Some? && jsonString(hostAuth.value).Some? ==> l.hostAuth == jsonString(hostAuth.value).value
    ensures l.session == session && l.signature == signature && l.displayName == displayName && l.date == date
  {
    var theHostAuth :=
      if hostAuth.Some? && jsonString(hostAuth.value).Some? then jsonString(hostAuth.value).value else UnknownHost;
    SSHSignatureLog(session, signature, date, displayName, theHostAuth)
  }

  const SSHLogKeys: set<string> := {"session", "signature", "date", "host_auth", "displayName"}

  /** `SSHSignatureLog.managedObject`. */
  function SSHLogObject(l: SSHSignatureLog): (o: Object)
    ensures o.Keys == SSHLogKeys
  {
    map["session" := Str(l.session), "signature" := Str(l.signature), "date" := Date(l.date),
        "host_auth" := Str(l.hostAuth), "displayName" := Str(l.displayName)]
  }

  /** `SSHSignatureLog.init(object:)`: all five keys are required, with their types. */
  function DecodeSSHLog(o: Object): (r: Result<SSHSignatureLog, LogError>)
    ensures r.Success? <==>
      && StringAt(o, "session").Some? && StringAt(o, "signature").Some? && DateAt(o, "date").Some?
      && StringAt(o, "host_auth").Some? && StringAt(o, "displayName").Some?
    ensures r.Failure? ==> r.error == LogStatementParsingError
    ensures r.Success? ==>
      && Some(r.value.session) == StringAt(o, "session") && Some(r.value.signature) == StringAt(o, "signature")
      && Some(r.value.date) == DateAt(o, "date") && Some(r.value.hostAuth) == StringAt(o, "host_auth")
      && Some(r.value.displayName) == StringAt(o, "displayName")
  {
    if && StringAt(o, "session").Some? && StringAt(o, "signature").Some? && DateAt(o, "date").Some?
       && StringAt(o, "host_auth").Some? && StringAt(o, "displayName").Some?
    then
      Success(SSHSignatureLog(StringAt(o, "session").value, StringAt(o, "signature").value, DateAt(o, "date").value,
                              StringAt(o, "displayName").value, StringAt(o, "host_auth").value))
    else
      Failure(LogStatementParsingError)
  }

  /** Reading back a stored SSH log gives the same log. */
  lemma SSHLogRoundTrip(l: SSHSignatureLog)
    ensures DecodeSSHLog(SSHLogObject(l)) == Success(l)
  {
  }

  // ---- commits --------------------------------------------------------------

  datatype CommitSignatureLog = CommitSignatureLog(session: string, date: int, signature: string, commit: CommitInfo, commitHash: string)

  /**
   * `CommitSignatureLog.displayName`: a refused signature shows as rejected;
   * otherwise the commit shows by its first seven hash characters and its
   * message, or by its short display when the hash is shorter than that.
   */
  function CommitLogDisplayName(l: CommitSignatureLog, display: CommitDisplay): (s: string)
    ensures l.signature == "" ==> s == "rejected: " + display.shortDisplay(l.commit)
    ensures l.signature != "" && |l.commitHash| < 7 ==> s == display.shortDisplay(l.commit)
    ensures l.signature != "" && |l.commitHash| >= 7 ==>
      s == "[" + l.commitHash[..7] + "] " + display.messageString(l.commit)
  {
    if l.signature == "" then "rejected: " + display.shortDisplay(l.commit)
    else if |l.commitHash| < 7 then display.shortDisplay(l.commit)
    else "[" + l.commitHash[..7] + "] " + display.messageString(l.commit)
  }

  const CommitLogExtraKeys: set<string> := {"session", "date", "signature", "commit_hash"}

  /** `CommitSignatureLog.managedObject`: the commit's object, then session, date, signature and commit_hash written over it. */
  function CommitLogObject(l: CommitSignatureLog, b64: Codec<Bytes>): (o: Object)
    ensures o.Keys == CommitKeys + CommitLogExtraKeys
    ensures o["session"] == Str(l.session) && o["date"] == Date(l.date)
    ensures o["signature"] == Str(l.signature) && o["commit_hash"] == Str(l.commitHash)
    ensures forall k | k in CommitKeys :: o[k] == CommitObject(l.commit, b64)[k]
  {
    var json := CommitObject(l.commit, b64);
    var json := json["session" := Str(l.session)];
    var json := json["date" := Date(l.date)];
    var json := json["signature" := Str(l.signature)];
    json["commit_hash" := Str(l.commitHash)]
  }

  /** A base64 string field turned back into bytes. */
  function Base64Field(s: string, b64: Codec<Bytes>): (r: Result<Bytes, LogError>)
    ensures r.Success? <==> b64.decode(s).Some?
    ensures r.Success? ==> b64.decode(s) == Some(r.value)
  {
    match b64.decode(s)
    case None => Failure(InvalidLogBase64)
    case Some(d) => Success(d)
  }

  /**
   * `CommitSignatureLog.init(object:)`: session, date, signature, commit_hash,
   * tree, author, committer and message are required; parent is optional and
   * an absent parent becomes empty bytes. The commit fields are base64 text
   * and are decoded into the bytes `CommitInfo` holds.
   */
  function DecodeCommitLog(o: Object, b64: Codec<Bytes>): (r: Result<CommitSignatureLog, LogError>)
    ensures
      (|| StringAt(o, "session").None? || DateAt(o, "date").None? || StringAt(o, "signature").None?
       || StringAt(o, "commit_hash").None? || StringAt(o, "tree").None? || StringAt(o, "author").None?
       || StringAt(o, "committer").None? || StringAt(o, "message").None?)
      ==> r == Failure(LogStatementParsingError)
    ensures r.Success? ==>
      && Some(r.value.session) == StringAt(o, "session") && Some(r.value.date) == DateAt(o, "date")
      && Some(r.value.signature) == StringAt(o, "signature") && Some(r.value.commitHash) == StringAt(o, "commit_hash")
      && b64.decode(o["tree"].s) == Some(r.value.commit.tree)
      && b64.decode(o["author"].s) == Some(r.value.commit.author)
      && b64.decode(o["committer"].s) == Some(r.value.commit.committer)
      && b64.decode(o["message"].s) == Some(r.value.commit.message)
      && (StringAt(o, "parent").None? ==> r.value.commit.parent == [])
      && (StringAt(o, "parent").Some? ==> b64.decode(o["parent"].s) == Some(r.value.commit.parent))
  {
    if || StringAt(o, "session").None? || DateAt(o, "date").None? || StringAt(o, "signature").None?
       || StringAt(o, "commit_hash").None? || StringAt(o, "tree").None? || StringAt(o, "author").None?
       || StringAt(o, "committer").None? || StringAt(o, "message").None?
    then Failure(LogStatementParsingError)
    else
      var tree :- Base64Field(o["tree"].s, b64);
      var parent :- (match StringAt(o, "parent") case None => Success([]) case Some(p) => Base64Field(p, b64));
      var author :- Base64Field(o["author"].s, b64);
      var committer :- Base64Field(o["committer"].s, b64);
      var message :- Base64Field(o["message"].s, b64);
      Success(CommitSignatureLog(o["session"].s, o["date"].seconds, o["signature"].s,
                                 CommitInfo(tree, parent, author, committer, message), o["commit_hash"].s))
  }

  /** Reading back a stored commit log gives the same log, when base64 round-trips. */
  lemma CommitLogRoundTrip(l: CommitSignatureLog, b64: Codec<Bytes>)
    requires RoundTrips(b64)
    ensures DecodeCommitLog(CommitLogObject(l, b64), b64) == Success(l)
  {
    var o := CommitLogObject(l, b64);
    var c := l.commit;
    CommitObjectFields(c, b64);
    assert o["tree"] == Str(b64.encode(c.tree)) && b64.decode(b64.encode(c.tree)) == Some(c.tree);
    assert o["parent"] == Str(b64.encode(c.parent)) && b64.decode(b64.encode(c.parent)) == Some(c.parent);
    assert o["author"] == Str(b64.encode(c.author)) && b64.decode(b64.encode(c.author)) == Some(c.author);
    assert o["committer"] == Str(b64.encode(c.committer)) && b64.decode(b64.encode(c.committer)) == Some(c.committer);
    assert o["message"] == Str(b64.encode(c.message)) && b64.decode(b64.encode(c.message)) == Some(c.message);
  }

  // ---- tags -----------------------------------------------------------------

  datatype TagSignatureLog = TagSignatureLog(session: string, signature: string, date: int, tag: TagInfo)

  /** `TagSignatureLog.displayName`: a refused signature shows as rejected, otherwise the tag's short display. */
  function TagLogDisplayName(l: TagSignatureLog, tags: TagSupport): (s: string)
    ensures l.signature == "" ==> s == "rejected: " + tags.shortDisplay(l.tag)
    ensures l.signature != "" ==> s == tags.shortDisplay(l.tag)
  {
    if l.signature == "" then "rejected: " + tags.shortDisplay(l.tag) else tags.shortDisplay(l.tag)
  }

  const TagLogExtraKeys: set<string> := {"session", "date", "signature"}

  /** `TagSignatureLog.managedObject`: the tag's object, then session, date and signature written over it. */
  function TagLogObject(l: TagSignatureLog, tags: TagSupport): (o: Object)
    ensures o.Keys == tags.logObject(l.tag).Keys + TagLogExtraKeys
    ensures o["session"] == Str(l.session) && o["date"] == Date(l.date) && o["signature"] == Str(l.signature)
    ensures forall k | k in tags.logObject(l.tag) && k !in TagLogExtraKeys :: o[k] == tags.logObject(l.tag)[k]
  {
    var json := tags.logObject(l.tag);
    var json := json["session" := Str(l.session)];
    var json := json["date" := Date(l.date)];
    json["signature" := Str(l.signature)]
  }

  /**
   * `TagSignatureLog.init(object:)`: session, date, signature, object, type,
   * tag, tagger and message are required; the message is base64 text.
   */
  function DecodeTagLog(o: Object, b64: Codec<Bytes>): (r: Result<TagSignatureLog, LogError>)
    ensures
      (|| StringAt(o, "session").None? || DateAt(o, "date").None? || StringAt(o, "signature").None?
       || StringAt(o, "object").None? || StringAt(o, "type").None? || StringAt(o, "tag").None?
       || StringAt(o, "tagger").None? || StringAt(o, "message").None?)
      ==> r == Failure(LogStatementParsingError)
    ensures r.Success? ==>
      && Some(r.value.session) == StringAt(o, "session") && Some(r.value.date) == DateAt(o, "date")
      && Some(r.value.signature) == StringAt(o, "signature")
      && Some(r.value.tag.taggedObject) == StringAt(o, "object") && Some(r.value.tag.tagType) == StringAt(o, "type")
      && Some(r.value.tag.tag) == StringAt(o, "tag") && Some(r.value.tag.tagger) == StringAt(o, "tagger")
      && b64.decode(o["message"].s) == Some(r.value.tag.message)
  {
    if || StringAt(o, "session").None? || DateAt(o, "date").None? || StringAt(o, "signature").None?
       || StringAt(o, "object").None? || StringAt(o, "type").None? || StringAt(o, "tag").None?
       || StringAt(o, "tagger").None? || StringAt(o, "message").None?
    then Failure(LogStatementParsingError)
    else
      var message :- Base64Field(o["message"].s, b64);
      Success(TagSignatureLog(o["session"].s, o["signature"].s, o["date"].seconds,
                              TagInfo(o["object"].s, o["type"].s, o["tag"].s, o["tagger"].s, message)))
  }

  /** The tag's stored dictionary holds its fields in the form `TagSignatureLog.init(object:)` reads them. */
  predicate TagLogObjectHoldsFields(tags: TagSupport, b64: Codec<Bytes>, t: TagInfo) {
    var o := tags.logObject(t);
    && StringAt(o, "object") == Some(t.taggedObject) && StringAt(o, "type") == Some(t.tagType)
    && StringAt(o, "tag") == Some(t.tag) && StringAt(o, "tagger") == Some(t.tagger)
    && StringAt(o, "message") == Some(b64.encode(t.message))
  }

  /** Reading back a stored tag log gives the same log, when the tag's dictionary holds its fields. */
  lemma TagLogRoundTrip(l: TagSignatureLog, tags: TagSupport, b64: Codec<Bytes>)
    requires RoundTrips(b64)
    requires TagLogObjectHoldsFields(tags, b64, l.tag)
    ensures DecodeTagLog(TagLogObject(l, tags), b64) == Success(l)
  {
    var o := TagLogObject(l, tags);
    var t := tags.logObject(l.tag);
    assert o["object"] == t["object"] && o["type"] == t["type"] && o["tag"] == t["tag"];
    assert o["tagger"] == t["tagger"] && o["message"] == t["message"];
    assert b64.decode(b64.encode(l.tag.message)) == Some(l.tag.message);
  }
}
