/** A decoded JSON document, as `response.json()` hands it to the library.
    Floating-point numbers are not modelled. */
module Json {
  import opened Wrappers

  datatype Json =
    | JNull
    | JBool(b: bool)
    | JInt(i: int)
    | JString(s: string)
    | JArray(items: seq<Json>)
    | JObject(fields: map<string, Json>)

  /** `d.get(key)`: a missing key reads as `None`, the same value as JSON `null`. */
  function Get(fields: map<string, Json>, key: string): (v: Json)
    ensures key !in fields ==> v == JNull
    ensures key in fields ==> v == fields[key]
  {
    if key in fields then fields[key] else JNull
  }

  /** Python's `v == n` for a decoded value `v` and an integer literal `n`:
      integers compare by value, `False` and `True` equal 0 and 1, and no
      other decoded value equals an integer. */
  predicate PyEqualsInt(v: Json, n: int) {
    match v
    case JInt(i) => i == n
    case JBool(b) => (if b then 1 else 0) == n
    case _ => false
  }

  predicate IsNullableString(v: Json) {
    v.JNull? || v.JString?
  }

  /** A `str | None` field: `null` is `None`. */
  function NullableString(v: Json): (r: Option<string>)
    requires IsNullableString(v)
    ensures r.None? <==> v.JNull?
    ensures r.Some? ==> v == JString(r.value)
  {
    if v.JNull? then None else Some(v.s)
  }

  function EncodeNullableString(o: Option<string>): (v: Json)
    ensures IsNullableString(v) && NullableString(v) == o
  {
    match o
    case None => JNull
    case Some(s) => JString(s)
  }

  predicate HasInt(fields: map<string, Json>, key: string) {
    key in fields && fields[key].JInt?
  }

  predicate HasString(fields: map<string, Json>, key: string) {
    key in fields && fields[key].JString?
  }
}
