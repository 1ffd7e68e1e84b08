/**
 * The dictionaries the app reads and writes: JSON objects on the wire and the
 * key/value dictionaries handed to the audit-log store. Values are strings,
 * integers, nested objects or dates (seconds since 1970).
 */
module Json {
  import opened Wrappers

  newtype byte = x: int | 0 <= x < 256
  type Bytes = seq<byte>

  datatype Value = Str(s: string) | Int(i: int) | Obj(fields: map<string, Value>) | Date(seconds: int)

  type Object = map<string, Value>

  /** Why decoding a dictionary failed. */
  datatype DecodeError =
    | MissingField(key: string)   // key absent, or present with another type
    | InvalidBase64(key: string)
    | InvalidVersion
    | InvalidGitInfo
    | InvalidTag

  /** `try? json ~> key` for a String. */
  function StringAt(o: Object, key: string): (r: Option<string>)
    ensures r.Some? <==> key in o && o[key].Str?
    ensures r.Some? ==> o[key] == Str(r.value)
  {
    if key in o && o[key].Str? then Some(o[key].s) else None
  }

  /** `try? json ~> key` for an Int. */
  function IntAt(o: Object, key: string): (r: Option<int>)
    ensures r.Some? <==> key in o && o[key].Int?
    ensures r.Some? ==> o[key] == Int(r.value)
  {
    if key in o && o[key].Int? then Some(o[key].i) else None
  }

  /** `try? json ~> key` for a nested Object. */
  function ObjectAt(o: Object, key: string): (r: Option<Object>)
    ensures r.Some? <==> key in o && o[key].Obj?
    ensures r.Some? ==> o[key] == Obj(r.value)
  {
    if key in o && o[key].Obj? then Some(o[key].fields) else None
  }

  /** `object.value(forKey:) as? Date`. */
  function DateAt(o: Object, key: string): (r: Option<int>)
    ensures r.Some? <==> key in o && o[key].Date?
    ensures r.Some? ==> o[key] == Date(r.value)
  {
    if key in o && o[key].Date? then Some(o[key].seconds) else None
  }

  /** `try json ~> key` for a String: a missing or mistyped key throws. */
  function RequireString(o: Object, key: string): (r: Result<string, DecodeError>)
    ensures r.Success? <==> StringAt(o, key).Some?
    ensures r.Success? ==> r.value == StringAt(o, key).value
    ensures r.Failure? ==> r.error == MissingField(key)
  {
    if key in o && o[key].Str? then Success(o[key].s) else Failure(MissingField(key))
  }

  /**
   * A text encoding of values of type T whose definition is not part of this
   * model: base64 for byte strings (`toBase64`/`fromBase64`) and the
   * version string of the wire protocol.
   */
  datatype Codec<!T> = Codec(encode: T -> string, decode: string -> Option<T>)

  /** Decoding what was encoded gives the value back. */
  ghost predicate RoundTrips<T(!new)>(c: Codec<T>) {
    forall x: T :: c.decode(c.encode(x)) == Some(x)
  }

  /** `try ((json ~> key) as String).fromBase64()`. */
  function RequireBase64(o: Object, key: string, b64: Codec<Bytes>): (r: Result<Bytes, DecodeError>)
    ensures r.Success? <==> StringAt(o, key).Some? && b64.decode(StringAt(o, key).value).Some?
    ensures r.Success? ==> Some(r.value) == b64.decode(o[key].s)
  {
    if key !in o || !o[key].Str? then Failure(MissingField(key))
    else match b64.decode(o[key].s)
      case None => Failure(InvalidBase64(key))
      case Some(d) => Success(d)
  }
}
