/** Decoded JSON values, as Go's `encoding/json` hands them to code that decodes
    into `interface{}` (numbers are `float64`, here `real`) and as the browser's
    `JSON.parse` returns them. Text encoding and parsing are not modelled:
    a body that does not parse is an absent value. */
module Json {
  import opened Basics

  datatype Json =
    | JNull
    | JBool(b: bool)
    | JNum(n: real)
    | JStr(s: string)
    | JArr(items: seq<Json>)
    | JObj(fields: map<string, Json>)

  /** Decoding a body into `map[string]interface{}`: a malformed body or one that
      is not an object is an error, and `null` gives the nil map, which reads as empty. */
  function DecodeObject(body: Option<Json>): (r: Option<map<string, Json>>)
    ensures r.Some? <==> body.Some? && (body.value.JNull? || body.value.JObj?)
    ensures r.Some? && body.value.JObj? ==> r.value == body.value.fields
  {
    match body
    case None => None
    case Some(JNull) => Some(map[])
    case Some(JObj(m)) => Some(m)
    case Some(_) => None
  }

  /** The type assertion `m[k].(string)`. */
  function StrField(m: map<string, Json>, k: string): (r: Option<string>)
    ensures r.Some? <==> k in m && m[k].JStr?
    ensures r.Some? ==> m[k] == JStr(r.value)
  {
    if k in m && m[k].JStr? then Some(m[k].s) else None
  }

  /** The type assertion `m[k].(float64)`. */
  function NumField(m: map<string, Json>, k: string): (r: Option<real>)
    ensures r.Some? <==> k in m && m[k].JNum?
    ensures r.Some? ==> m[k] == JNum(r.value)
  {
    if k in m && m[k].JNum? then Some(m[k].n) else None
  }

  /** The type assertion `m[k].(bool)`. */
  function BoolField(m: map<string, Json>, k: string): (r: Option<bool>)
    ensures r.Some? <==> k in m && m[k].JBool?
    ensures r.Some? ==> m[k] == JBool(r.value)
  {
    if k in m && m[k].JBool? then Some(m[k].b) else None
  }

  /** The JSON text functions the sources call: `json.Marshal` / `JSON.stringify`
      and `json.Unmarshal` / `JSON.parse`. They are parameters of the model. */
  datatype Codec = Codec(encode: Json -> string, decode: string -> Option<Json>)

  /** Parsing what was printed gives the value back. */
  ghost predicate Lawful(c: Codec) {
    forall j :: c.decode(c.encode(j)) == Some(j)
  }

  /** `json.Unmarshal(text, &m)` into a nil `map[string]interface{}` whose error is
      ignored: the map is left nil (None) unless the text holds an object. */
  function GoMap(j: Option<Json>): (m: Option<map<string, Json>>)
    ensures m.Some? <==> j.Some? && j.value.JObj?
    ensures m.Some? ==> m.value == j.value.fields
  {
    if j.Some? && j.value.JObj? then Some(j.value.fields) else None
  }

  /** Reading `m[k]` from a map that may be nil: a nil map reads as empty. */
  function Member(m: Option<map<string, Json>>, k: string): (r: Option<Json>)
    ensures r.Some? <==> m.Some? && k in m.value
    ensures r.Some? ==> r.value == m.value[k]
  {
    if m.Some? && k in m.value then Some(m.value[k]) else None
  }

  // Decoding one member of an object into a typed Go struct field: an absent member
  // or `null` leaves the zero value, a member of another type is an error (None).

  function StrMember(m: map<string, Json>, k: string): (r: Option<string>)
    ensures k !in m || m[k].JNull? ==> r == Some("")
    ensures k in m && m[k].JStr? ==> r == Some(m[k].s)
    ensures r.None? <==> k in m && !m[k].JNull? && !m[k].JStr?
  {
    if k !in m then Some("")
    else match m[k]
      case JNull => Some("")
      case JStr(s) => Some(s)
      case _ => None
  }

  function BoolMember(m: map<string, Json>, k: string): (r: Option<bool>)
    ensures k !in m || m[k].JNull? ==> r == Some(false)
    ensures k in m && m[k].JBool? ==> r == Some(m[k].b)
    ensures r.None? <==> k in m && !m[k].JNull? && !m[k].JBool?
  {
    if k !in m then Some(false)
    else match m[k]
      case JNull => Some(false)
      case JBool(b) => Some(b)
      case _ => None
  }

  /** A whole number in range, as decoding into an `int` / `int64` field demands. */
  function IntMember(m: map<string, Json>, k: string): (r: Option<int>)
    ensures k !in m || m[k].JNull? ==> r == Some(0)
    ensures r.Some? ==> InInt64(r.value)
    ensures r.Some? && k in m && m[k].JNum? ==> r.value as real == m[k].n
  {
    if k !in m then Some(0)
    else match m[k]
      case JNull => Some(0)
      case JNum(n) => if n.Floor as real == n && InInt64(n.Floor) then Some(n.Floor) else None
      case _ => None
  }

  function FloatMember(m: map<string, Json>, k: string): (r: Option<real>)
    ensures k !in m || m[k].JNull? ==> r == Some(0.0)
    ensures k in m && m[k].JNum? ==> r == Some(m[k].n)
    ensures r.None? <==> k in m && !m[k].JNull? && !m[k].JNum?
  {
    if k !in m then Some(0.0)
    else match m[k]
      case JNull => Some(0.0)
      case JNum(n) => Some(n)
      case _ => None
  }

  /** The entries of an object that hold strings, as decoding into `map[string]string`
      keeps them (entries of another type are skipped with an error that callers ignore). */
  function StringEntries(m: Option<map<string, Json>>): (r: map<string, string>)
    ensures forall k :: k in r <==> m.Some? && k in m.value && m.value[k].JStr?
    ensures forall k :: k in r ==> m.value[k] == JStr(r[k])
  {
    if m.None? then map[] else map k | k in m.value && m.value[k].JStr? :: m.value[k].s
  }
}
