/**
 * The response the phone sends back to the workstation, with its sign,
 * git-sign, me, unpair and ack sub-responses, and their JSON encodings.
 */
module Responses {
  import opened Wrappers
  import opened Json

  /** Protocol version; its string form is a codec not part of this model. */
  datatype Version = Version(major: nat, minor: nat, patch: nat)

  datatype SignResponse = SignResponse(signature: Option<string>, error: Option<string>)
  datatype GitSignResponse = GitSignResponse(signature: Option<string>, error: Option<string>)
  datatype Me = Me(email: string, publicKeyWire: Bytes, pgpPublicKey: Option<Bytes>)
  datatype MeResponse = MeResponse(me: Me)
  datatype UnpairResponse = UnpairResponse
  datatype AckResponse = AckResponse

  datatype Response = Response(
    requestID: string,
    snsEndpointARN: string,
    version: Option<Version>,
    approvedUntil: Option<int>,
    sign: Option<SignResponse>,
    gitSign: Option<GitSignResponse>,
    me: Option<MeResponse>,
    unpair: Option<UnpairResponse>,
    ack: Option<AckResponse>,
    trackingID: Option<string>)

  /** `Response.init(requestID:endpoint:...)`: the version is always the current one. */
  function NewResponse(requestID: string, endpoint: string, approvedUntil: Option<int>,
                       sign: Option<SignResponse>, gitSign: Option<GitSignResponse>, me: Option<MeResponse>,
                       unpair: Option<UnpairResponse>, ack: Option<AckResponse>, trackingID: Option<string>,
                       currentVersion: Version): (r: Response)
    ensures r.version == Some(currentVersion)
    ensures r.requestID == requestID && r.snsEndpointARN == endpoint && r.approvedUntil == approvedUntil
    ensures r.sign == sign && r.gitSign == gitSign && r.me == me
    ensures r.unpair == unpair && r.ack == ack && r.trackingID == trackingID
  {
    Response(requestID, endpoint, Some(currentVersion), approvedUntil, sign, gitSign, me, unpair, ack, trackingID)
  }

  // ---- sign and git-sign sub-responses -------------------------------------

  /** The shared `object` of SignResponse and GitSignResponse: nil fields are left out. */
  function SignatureObject(signature: Option<string>, error: Option<string>): (o: Object)
    ensures o.Keys <= {"signature", "error"}
    ensures "signature" in o <==> signature.Some?
    ensures "error" in o <==> error.Some?
  {
    var m: Object := map[];
    var m := if signature.Some? then m["signature" := Str(signature.value)] else m;
    var m := if error.Some? then m["error" := Str(error.value)] else m;
    m
  }

  function SignResponseObject(s: SignResponse): Object {
    SignatureObject(s.signature, s.error)
  }

  /** `SignResponse.init(json:)`: both fields optional, never throws. */
  function DecodeSignResponse(o: Object): (s: SignResponse)
    ensures s.signature.Some? <==> StringAt(o, "signature").Some?
    ensures s.error.Some? <==> StringAt(o, "error").Some?
  {
    SignResponse(StringAt(o, "signature"), StringAt(o, "error"))
  }

  function GitSignResponseObject(s: GitSignResponse): Object {
    SignatureObject(s.signature, s.error)
  }

  /** `GitSignResponse.init(json:)`: both fields optional, never throws. */
  function DecodeGitSignResponse(o: Object): (s: GitSignResponse)
    ensures s.signature.Some? <==> StringAt(o, "signature").Some?
    ensures s.error.Some? <==> StringAt(o, "error").Some?
  {
    GitSignResponse(StringAt(o, "signature"), StringAt(o, "error"))
  }

  lemma SignResponseRoundTrip(s: SignResponse)
    ensures DecodeSignResponse(SignResponseObject(s)) == s
  {
  }

  lemma GitSignResponseRoundTrip(s: GitSignResponse)
    ensures DecodeGitSignResponse(GitSignResponseObject(s)) == s
  {
  }

  // ---- me sub-response ------------------------------------------------------

  /** `MeResponse.Me.object`: `pgp_pk` is emitted only when present. */
  function MeObject(m: Me, b64: Codec<Bytes>): (o: Object)
    ensures o.Keys == {"email", "public_key_wire"} + (if m.pgpPublicKey.Some? then {"pgp_pk"} else {})
  {
    var json := map["email" := Str(m.email), "public_key_wire" := Str(b64.encode(m.publicKeyWire))];
    if m.pgpPublicKey.Some? then json["pgp_pk" := Str(b64.encode(m.pgpPublicKey.value))] else json
  }

  /** `MeResponse.Me.init(json:)`: all three keys are required, `pgp_pk` included. */
  function DecodeMe(o: Object, b64: Codec<Bytes>): (r: Result<Me, DecodeError>)
    ensures r.Success? <==>
      StringAt(o, "email").Some? && RequireBase64(o, "public_key_wire", b64).Success?
      && RequireBase64(o, "pgp_pk", b64).Success?
    ensures r.Success? ==> r.value.pgpPublicKey.Some?
  {
    var email :- RequireString(o, "email");
    var wire :- RequireBase64(o, "public_key_wire", b64);
    var pgp :- RequireBase64(o, "pgp_pk", b64);
    Success(Me(email, wire, Some(pgp)))
  }

  function MeResponseObject(m: MeResponse, b64: Codec<Bytes>): (o: Object)
    ensures o.Keys == {"me"}
  {
    map["me" := Obj(MeObject(m.me, b64))]
  }

  /** `MeResponse.init(json:)`: "me" must be an object that decodes. */
  function DecodeMeResponse(o: Object, b64: Codec<Bytes>): (r: Result<MeResponse, DecodeError>)
    ensures ObjectAt(o, "me").None? ==> r == Failure(MissingField("me"))
  {
    var mo :- (match ObjectAt(o, "me") case None => Failure(MissingField("me")) case Some(x) => Success(x));
    var me :- DecodeMe(mo, b64);
    Success(MeResponse(me))
  }

  /**
   * The encoder leaves `pgp_pk` out when it is nil but the decoder demands it,
   * so a Me round-trips exactly when it carries a PGP public key.
   */
  lemma {:induction false} MeRoundTrip(m: Me, b64: Codec<Bytes>)
    requires RoundTrips(b64)
    ensures DecodeMe(MeObject(m, b64), b64).Success? <==> m.pgpPublicKey.Some?
    ensures m.pgpPublicKey.Some? ==> DecodeMe(MeObject(m, b64), b64) == Success(m)
    ensures m.pgpPublicKey.None? ==> DecodeMe(MeObject(m, b64), b64) == Failure(MissingField("pgp_pk"))
  {
    var o := MeObject(m, b64);
    assert b64.decode(b64.encode(m.publicKeyWire)) == Some(m.publicKeyWire);
    if m.pgpPublicKey.Some? {
      assert b64.decode(b64.encode(m.pgpPublicKey.value)) == Some(m.pgpPublicKey.value);
    } else {
      assert "pgp_pk" !in o;
    }
  }

  lemma {:induction false} MeResponseRoundTrip(m: MeResponse, b64: Codec<Bytes>)
    requires RoundTrips(b64)
    requires m.me.pgpPublicKey.Some?
    ensures DecodeMeResponse(MeResponseObject(m, b64), b64) == Success(m)
  {
    MeRoundTrip(m.me, b64);
  }

  // ---- unpair and ack --------------------------------------------------------

  /** Unpair and ack responses carry no fields. */
  function UnpairObject(u: UnpairResponse): (o: Object)
    ensures o == map[]
  {
    map[]
  }

  function AckObject(a: AckResponse): (o: Object)
    ensures o == map[]
  {
    map[]
  }

  /** Decoding them accepts any object. */
  function DecodeUnpairResponse(o: Object): UnpairResponse { UnpairResponse }

  function DecodeAckResponse(o: Object): AckResponse { AckResponse }

  // ---- the response ------------------------------------------------------------

  /** Every key `Response.object` may emit. */
  const ResponseWireKeys: set<string> := {
    "request_id", "sns_endpoint_arn", "approved_until", "sign_response", "git_sign_response",
    "me_response", "unpair_response", "ack_response", "tracking_id", "v"}

  /** What `Response.object` stores under `key`: nothing when the field is nil. */
  function ResponseField(r: Response, key: string, b64: Codec<Bytes>, versions: Codec<Version>): Option<Value> {
    if key == "request_id" then Some(Str(r.requestID))
    else if key == "sns_endpoint_arn" then Some(Str(r.snsEndpointARN))
    else if key == "approved_until" then
      (if r.approvedUntil.Some? then Some(Int(r.approvedUntil.value)) else None)
    else if key == "sign_response" then
      (if r.sign.Some? then Some(Obj(SignResponseObject(r.sign.value))) else None)
    else if key == "git_sign_response" then
      (if r.gitSign.Some? then Some(Obj(GitSignResponseObject(r.gitSign.value))) else None)
    else if key == "me_response" then
      (if r.me.Some? then Some(Obj(MeResponseObject(r.me.value, b64))) else None)
    else if key == "unpair_response" then
      (if r.unpair.Some? then Some(Obj(UnpairObject(r.unpair.value))) else None)
    else if key == "ack_response" then
      (if r.ack.Some? then Some(Obj(AckObject(r.ack.value))) else None)
    else if key == "tracking_id" then
      (if r.trackingID.Some? then Some(Str(r.trackingID.value)) else None)
    else if key == "v" then
      (if r.version.Some? then Some(Str(versions.encode(r.version.value))) else None)
    else None
  }

  /**
   * `Response.object`. The source inserts the fields one by one into a
   * dictionary, each optional one only when present; no key is written twice,
   * so the result is the dictionary of the present fields.
   */
  function ResponseObject(r: Response, b64: Codec<Bytes>, versions: Codec<Version>): (o: Object)
    ensures o.Keys <= ResponseWireKeys
    ensures "request_id" in o && o["request_id"] == Str(r.requestID)
    ensures "sns_endpoint_arn" in o && o["sns_endpoint_arn"] == Str(r.snsEndpointARN)
    ensures "approved_until" in o <==> r.approvedUntil.Some?
    ensures "me_response" in o <==> r.me.Some?
  {
    map k | k in ResponseWireKeys && ResponseField(r, k, b64, versions).Some? :: ResponseField(r, k, b64, versions).value
  }

  /** The keys of the encoding: the two mandatory ones and one per present optional field. */
  function ResponseKeys(r: Response): set<string> {
    {"request_id", "sns_endpoint_arn"}
    + (if r.approvedUntil.Some? then {"approved_until"} else {})
    + (if r.sign.Some? then {"sign_response"} else {})
    + (if r.gitSign.Some? then {"git_sign_response"} else {})
    + (if r.me.Some? then {"me_response"} else {})
    + (if r.unpair.Some? then {"unpair_response"} else {})
    + (if r.ack.Some? then {"ack_response"} else {})
    + (if r.trackingID.Some? then {"tracking_id"} else {})
    + (if r.version.Some? then {"v"} else {})
  }

  /** Encoding always emits request_id and sns_endpoint_arn, and each optional field only when present. */
  lemma ResponseObjectKeys(r: Response, b64: Codec<Bytes>, versions: Codec<Version>)
    ensures ResponseObject(r, b64, versions).Keys == ResponseKeys(r)
    ensures ResponseObject(r, b64, versions)["request_id"] == Str(r.requestID)
    ensures ResponseObject(r, b64, versions)["sns_endpoint_arn"] == Str(r.snsEndpointARN)
  {
  }

  /** A decoded optional sub-object: absent or mistyped gives nil. */
  function OptionalObject<T>(o: Object, key: string, decode: Object -> T): (r: Option<T>)
    ensures r.Some? <==> ObjectAt(o, key).Some?
  {
    match ObjectAt(o, key)
    case None => None
    case Some(x) => Some(decode(x))
  }

  /**
   * `Response.init(json:)`: request_id, sns_endpoint_arn and v are required
   * (in that order); optional keys that are absent decode to nil; a present
   * me_response that does not decode makes the whole decoding fail.
   */
  function DecodeResponse(o: Object, b64: Codec<Bytes>, versions: Codec<Version>): (r: Result<Response, DecodeError>)
    ensures StringAt(o, "request_id").None? ==> r == Failure(MissingField("request_id"))
    ensures StringAt(o, "request_id").Some? && StringAt(o, "sns_endpoint_arn").None? ==>
      r == Failure(MissingField("sns_endpoint_arn"))
    ensures StringAt(o, "request_id").Some? && StringAt(o, "sns_endpoint_arn").Some? && StringAt(o, "v").None? ==>
      r == Failure(MissingField("v"))
    ensures r.Success? ==>
      && Some(r.value.requestID) == StringAt(o, "request_id")
      && Some(r.value.snsEndpointARN) == StringAt(o, "sns_endpoint_arn")
      && r.value.version.Some?
      && versions.decode(o["v"].s) == r.value.version
      && r.value.approvedUntil == IntAt(o, "approved_until")
      && r.value.trackingID == StringAt(o, "tracking_id")
      && (r.value.sign.Some? <==> ObjectAt(o, "sign_response").Some?)
      && (r.value.gitSign.Some? <==> ObjectAt(o, "git_sign_response").Some?)
      && (r.value.me.Some? <==> ObjectAt(o, "me_response").Some?)
      && (r.value.unpair.Some? <==> ObjectAt(o, "unpair_response").Some?)
      && (r.value.ack.Some? <==> ObjectAt(o, "ack_response").Some?)
  {
    var requestID :- RequireString(o, "request_id");
    var endpoint :- RequireString(o, "sns_endpoint_arn");
    var v :- RequireString(o, "v");
    var version :- (match versions.decode(v) case None => Failure(InvalidVersion) case Some(x) => Success(x));
    var me :- (match ObjectAt(o, "me_response")
               case None => Success(None)
               case Some(mo) => (var m :- DecodeMeResponse(mo, b64); Success(Some(m))));
    Success(Response(
      requestID, endpoint, Some(version), IntAt(o, "approved_until"),
      OptionalObject(o, "sign_response", DecodeSignResponse),
      OptionalObject(o, "git_sign_response", DecodeGitSignResponse),
      me,
      OptionalObject(o, "unpair_response", DecodeUnpairResponse),
      OptionalObject(o, "ack_response", DecodeAckResponse),
      StringAt(o, "tracking_id")))
  }

  /** The optional plain fields of an encoded response decode back to themselves. */
  lemma OptionalFieldsRoundTrip(r: Response, b64: Codec<Bytes>, versions: Codec<Version>)
    ensures IntAt(ResponseObject(r, b64, versions), "approved_until") == r.approvedUntil
    ensures StringAt(ResponseObject(r, b64, versions), "tracking_id") == r.trackingID
    ensures OptionalObject(ResponseObject(r, b64, versions), "unpair_response", DecodeUnpairResponse) == r.unpair
    ensures OptionalObject(ResponseObject(r, b64, versions), "ack_response", DecodeAckResponse) == r.ack
  {
    var o := ResponseObject(r, b64, versions);
    if r.unpair.Some? {
      assert ObjectAt(o, "unpair_response") == Some(map[]);
      assert r.unpair.value == UnpairResponse;
    } else {
      assert "unpair_response" !in o;
    }
    if r.ack.Some? {
      assert ObjectAt(o, "ack_response") == Some(map[]);
      assert r.ack.value == AckResponse;
    } else {
      assert "ack_response" !in o;
    }
  }

  /** The sign and git-sign parts of an encoded response decode back to themselves. */
  lemma SignFieldsRoundTrip(r: Response, b64: Codec<Bytes>, versions: Codec<Version>)
    ensures OptionalObject(ResponseObject(r, b64, versions), "sign_response", DecodeSignResponse) == r.sign
    ensures OptionalObject(ResponseObject(r, b64, versions), "git_sign_response", DecodeGitSignResponse) == r.gitSign
  {
    if r.sign.Some? {
      SignResponseRoundTrip(r.sign.value);
    }
    if r.gitSign.Some? {
      GitSignResponseRoundTrip(r.gitSign.value);
    }
  }

  /** A response that carries a version, and a PGP key in its me part, survives encoding and decoding. */
  lemma ResponseRoundTrip(r: Response, b64: Codec<Bytes>, versions: Codec<Version>)
    requires RoundTrips(b64) && RoundTrips(versions)
    requires r.version.Some?
    requires r.me.Some? ==> r.me.value.me.pgpPublicKey.Some?
    ensures DecodeResponse(ResponseObject(r, b64, versions), b64, versions) == Success(r)
  {
    var o := ResponseObject(r, b64, versions);
    ResponseObjectKeys(r, b64, versions);
    assert RequireString(o, "request_id") == Success(r.requestID);
    assert RequireString(o, "sns_endpoint_arn") == Success(r.snsEndpointARN);
    assert versions.decode(versions.encode(r.version.value)) == Some(r.version.value);
    assert RequireString(o, "v") == Success(versions.encode(r.version.value));
    var me: Result<Option<MeResponse>, DecodeError> :=
      match ObjectAt(o, "me_response")
      case None => Success(None)
      case Some(mo) => (var m :- DecodeMeResponse(mo, b64); Success(Some(m)));
    if r.me.Some? {
      assert ObjectAt(o, "me_response") == Some(MeResponseObject(r.me.value, b64));
      MeResponseRoundTrip(r.me.value, b64);
    } else {
      assert ObjectAt(o, "me_response") == None;
    }
    assert me == Success(r.me);
    OptionalFieldsRoundTrip(r, b64, versions);
    SignFieldsRoundTrip(r, b64, versions);
  }

  /** A response whose me part lacks a PGP key cannot be decoded from its own encoding. */
  lemma {:induction false} ResponseWithoutPgpKeyFailsToDecode(r: Response, b64: Codec<Bytes>, versions: Codec<Version>)
    requires RoundTrips(b64) && RoundTrips(versions)
    requires r.version.Some?
    requires r.me.Some? && r.me.value.me.pgpPublicKey.None?
    ensures DecodeResponse(ResponseObject(r, b64, versions), b64, versions) == Failure(MissingField("pgp_pk"))
  {
    var o := ResponseObject(r, b64, versions);
    ResponseObjectKeys(r, b64, versions);
    assert versions.decode(versions.encode(r.version.value)) == Some(r.version.value);
    assert o["v"] == Str(versions.encode(r.version.value));
    assert o["me_response"] == Obj(MeResponseObject(r.me.value, b64));
    MeRoundTrip(r.me.value.me, b64);
  }
}
