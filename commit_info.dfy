/**
 * A git commit as the workstation sends it for signing: five byte strings,
 * each carried on the wire as base64 text under a fixed key.
 */
module CommitInfos {
  import opened Wrappers
  import opened Json

  /** The initialiser of the source stores its five arguments unchanged: here it is the constructor. */
  datatype CommitInfo = CommitInfo(tree: Bytes, parent: Bytes, author: Bytes, committer: Bytes, message: Bytes)

  /** `shortDisplay` and `messageString` of a commit; their definitions are not part of this model. */
  datatype CommitDisplay = CommitDisplay(shortDisplay: CommitInfo -> string, messageString: CommitInfo -> string)

  const CommitKeys: set<string> := {"tree", "parent", "author", "committer", "message"}

  /** `CommitInfo.object`: the five fields, base64-encoded. */
  function CommitObject(c: CommitInfo, b64: Codec<Bytes>): (o: Object)
    ensures o.Keys == CommitKeys
    ensures forall k | k in o :: o[k].Str?
  {
    map[
      "tree" := Str(b64.encode(c.tree)),
      "parent" := Str(b64.encode(c.parent)),
      "author" := Str(b64.encode(c.author)),
      "committer" := Str(b64.encode(c.committer)),
      "message" := Str(b64.encode(c.message))
    ]
  }

  /** `CommitInfo.init(json:)`: every key must hold a string that is valid base64. */
  function DecodeCommit(o: Object, b64: Codec<Bytes>): (r: Result<CommitInfo, DecodeError>)
    ensures r.Success? <==> forall k | k in CommitKeys :: RequireBase64(o, k, b64).Success?
    ensures r.Failure? ==> exists k | k in CommitKeys :: RequireBase64(o, k, b64) == Failure(r.error)
  {
    var tree :- RequireBase64(o, "tree", b64);
    var parent :- RequireBase64(o, "parent", b64);
    var author :- RequireBase64(o, "author", b64);
    var committer :- RequireBase64(o, "committer", b64);
    var message :- RequireBase64(o, "message", b64);
    Success(CommitInfo(tree, parent, author, committer, message))
  }

  /** Each value of the encoding is the base64 text of the field of the same name. */
  lemma CommitObjectFields(c: CommitInfo, b64: Codec<Bytes>)
    ensures CommitObject(c, b64)["tree"] == Str(b64.encode(c.tree))
    ensures CommitObject(c, b64)["parent"] == Str(b64.encode(c.parent))
    ensures CommitObject(c, b64)["author"] == Str(b64.encode(c.author))
    ensures CommitObject(c, b64)["committer"] == Str(b64.encode(c.committer))
    ensures CommitObject(c, b64)["message"] == Str(b64.encode(c.message))
  {
  }

  /** Decoding an encoded commit gives it back, when base64 round-trips. */
  lemma CommitRoundTrip(c: CommitInfo, b64: Codec<Bytes>)
    requires RoundTrips(b64)
    ensures DecodeCommit(CommitObject(c, b64), b64) == Success(c)
  {
    var o := CommitObject(c, b64);
    assert b64.decode(b64.encode(c.tree)) == Some(c.tree);
    assert b64.decode(b64.encode(c.parent)) == Some(c.parent);
    assert b64.decode(b64.encode(c.author)) == Some(c.author);
    assert b64.decode(b64.encode(c.committer)) == Some(c.committer);
    assert b64.decode(b64.encode(c.message)) == Some(c.message);
  }
}
