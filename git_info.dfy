/** What a git-sign request asks to sign: a commit or a tag. */
module GitInfos {
  import opened Wrappers
  import opened Json
  import opened CommitInfos

  /** A git tag; its own codec and display are not part of this model. */
  datatype TagInfo = TagInfo(taggedObject: string, tagType: string, tag: string, tagger: string, message: Bytes)

  /**
   * The tag operations the modelled files call but do not define: the wire
   * object (`_object`), its decoder, the dictionary stored in the audit log
   * (`object`) and `shortDisplay`.
   */
  datatype TagSupport = TagSupport(
    wireObject: TagInfo -> Object,
    fromWire: Object -> Result<TagInfo, DecodeError>,
    logObject: TagInfo -> Object,
    shortDisplay: TagInfo -> string)

  datatype GitInfo = Commit(commit: CommitInfo) | Tag(tag: TagInfo)

  /**
   * `GitInfo.init(json:)`: two string values under "commit" and "tag" are
   * refused; otherwise a "commit" object wins over a "tag" object.
   */
  function DecodeGitInfo(o: Object, b64: Codec<Bytes>, tags: TagSupport): (r: Result<GitInfo, DecodeError>)
    ensures StringAt(o, "commit").Some? && StringAt(o, "tag").Some? ==> r == Failure(InvalidGitInfo)
    ensures ObjectAt(o, "commit").Some? ==>
      r == (match DecodeCommit(ObjectAt(o, "commit").value, b64)
            case Success(c) => Success(Commit(c))
            case Failure(e) => Failure(e))
    ensures ObjectAt(o, "commit").None? && ObjectAt(o, "tag").Some? ==>
      r == (match tags.fromWire(ObjectAt(o, "tag").value)
            case Success(t) => Success(Tag(t))
            case Failure(e) => Failure(e))
    ensures ObjectAt(o, "commit").None? && ObjectAt(o, "tag").None? ==> r == Failure(InvalidGitInfo)
  {
    if StringAt(o, "commit").Some? && StringAt(o, "tag").Some? then
      Failure(InvalidGitInfo)
    else if ObjectAt(o, "commit").Some? then
      var c :- DecodeCommit(ObjectAt(o, "commit").value, b64);
      Success(Commit(c))
    else if ObjectAt(o, "tag").Some? then
      var t :- tags.fromWire(ObjectAt(o, "tag").value);
      Success(Tag(t))
    else
      Failure(InvalidGitInfo)
  }

  /** `GitInfo.object`: a single-key object named after the case. */
  function GitObject(g: GitInfo, b64: Codec<Bytes>, tags: TagSupport): (o: Object)
    ensures g.Commit? ==> o.Keys == {"commit"} && o["commit"] == Obj(CommitObject(g.commit, b64))
    ensures g.Tag? ==> o.Keys == {"tag"} && o["tag"] == Obj(tags.wireObject(g.tag))
  {
    match g
    case Commit(c) => map["commit" := Obj(CommitObject(c, b64))]
    case Tag(t) => map["tag" := Obj(tags.wireObject(t))]
  }

  function Subtitle(g: GitInfo): (s: string)
    ensures s == "Git Commit" <==> g.Commit?
    ensures s == "Git Tag" <==> g.Tag?
  {
    match g
    case Commit(_) => "Git Commit"
    case Tag(_) => "Git Tag"
  }

  function ShortDisplay(g: GitInfo, commits: CommitDisplay, tags: TagSupport): (s: string)
    ensures g.Commit? ==> s == commits.shortDisplay(g.commit)
    ensures g.Tag? ==> s == tags.shortDisplay(g.tag)
  {
    match g
    case Commit(c) => commits.shortDisplay(c)
    case Tag(t) => tags.shortDisplay(t)
  }

  /** A commit survives encoding and decoding, when base64 round-trips. */
  lemma CommitGitInfoRoundTrip(c: CommitInfo, b64: Codec<Bytes>, tags: TagSupport)
    requires RoundTrips(b64)
    ensures DecodeGitInfo(GitObject(Commit(c), b64, tags), b64, tags) == Success(Commit(c))
  {
    CommitRoundTrip(c, b64);
  }

  /** A tag survives encoding and decoding when its own codec does. */
  lemma TagGitInfoRoundTrip(t: TagInfo, b64: Codec<Bytes>, tags: TagSupport)
    requires tags.fromWire(tags.wireObject(t)) == Success(t)
    ensures DecodeGitInfo(GitObject(Tag(t), b64, tags), b64, tags) == Success(Tag(t))
  {
  }
}
