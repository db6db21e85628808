/** A parsed JSON value, as kotlinx.serialization's `JsonElement` tree holds it. Numbers keep
    their literal text; objects are maps from key to value. */
module JsonValues {
  import opened Wrappers

  datatype Json =
    | JNull
    | JBool(b: bool)
    | JNum(literal: string)
    | JStr(s: string)
    | JArr(items: seq<Json>)
    | JObj(fields: map<string, Json>)

  /** A value that must be a JSON string (strict decoding: numbers and literals are refused). */
  function AsString(j: Json): (r: Option<string>)
    ensures r.Some? <==> j.JStr?
    ensures r.Some? ==> j == JStr(r.value)
  {
    if j.JStr? then Some(j.s) else None
  }

  /** A value of a nullable string property: JSON null or a string. */
  function AsNullableString(j: Json): (r: Option<Option<string>>)
    ensures r == Some(None) <==> j == JNull
    ensures forall s :: r == Some(Some(s)) <==> j == JStr(s)
    ensures r.None? <==> !(j.JNull? || j.JStr?)
  {
    match j
    case JNull => Some(None)
    case JStr(s) => Some(Some(s))
    case _ => None
  }

  /** A value that must be a JSON boolean literal. */
  function AsBool(j: Json): (r: Option<bool>)
    ensures r.Some? <==> j.JBool?
    ensures r.Some? ==> j == JBool(r.value)
  {
    if j.JBool? then Some(j.b) else None
  }

  /** Decode every element with `dec`; one failure fails the whole list. */
  function DecodeAll<T>(items: seq<Json>, dec: Json -> Option<T>): (r: Option<seq<T>>)
    ensures r.Some? <==> forall i :: 0 <= i < |items| ==> dec(items[i]).Some?
    ensures r.Some? ==> |r.value| == |items| && forall i :: 0 <= i < |items| ==> dec(items[i]) == Some(r.value[i])
  {
    if items == [] then Some([])
    else
      match dec(items[0])
      case None => None
      case Some(x) =>
        match DecodeAll(items[1..], dec)
        case None => None
        case Some(rest) => Some([x] + rest)
  }

  /** A value that must be a JSON array whose elements all decode. */
  function AsList<T>(j: Json, dec: Json -> Option<T>): Option<seq<T>>
  {
    if j.JArr? then DecodeAll(j.items, dec) else None
  }

  /** A property without a default: missing means failure. */
  function Required<T>(fields: map<string, Json>, key: string, dec: Json -> Option<T>): Option<T>
  {
    if key in fields then dec(fields[key]) else None
  }

  /** A property with a default: missing means the default, present means it must decode. */
  function WithDefault<T>(fields: map<string, Json>, key: string, dec: Json -> Option<T>, default: T): Option<T>
  {
    if key in fields then dec(fields[key]) else Some(default)
  }

  /** The JSON array of the encodings of `xs`. */
  function EncodeList<T>(xs: seq<T>, enc: T -> Json): (j: Json)
    ensures j.JArr? && |j.items| == |xs| && forall i :: 0 <= i < |xs| ==> j.items[i] == enc(xs[i])
  {
    JArr(seq(|xs|, i requires 0 <= i < |xs| => enc(xs[i])))
  }

  /** Decoding an encoded list gives the list back, whenever each element round-trips. */
  lemma ListRoundTrip<T>(xs: seq<T>, enc: T -> Json, dec: Json -> Option<T>)
    requires forall i :: 0 <= i < |xs| ==> dec(enc(xs[i])) == Some(xs[i])
    ensures AsList(EncodeList(xs, enc), dec) == Some(xs)
  {
    var j := EncodeList(xs, enc);
    var r := DecodeAll(j.items, dec);
    assert r.Some?;
    assert r.value == xs;
  }

  function EncodeString(s: string): Json {
    JStr(s)
  }

  lemma StringListRoundTrip(xs: seq<string>)
    ensures AsList(EncodeList(xs, EncodeString), AsString) == Some(xs)
  {
    ListRoundTrip(xs, EncodeString, AsString);
  }
}
