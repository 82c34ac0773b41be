/** What Go's json.Unmarshal does when the target is a map[string]json.RawMessage or a string,
    the two targets the weather handler decodes into besides the forecast list. */
module Unmarshal {
  import opened Errors
  import opened JsonValues

  /** Go's `int` on a 64-bit platform. */
  const MinInt: int := -0x8000_0000_0000_0000
  const MaxInt: int := 0x7FFF_FFFF_FFFF_FFFF

  predicate InIntRange(n: int) { MinInt <= n <= MaxInt }

  /** json.Unmarshal checks that its whole input is one JSON value before decoding anything. */
  function Parse(raw: Raw): (r: Result<Json>)
    ensures r.Ok? <==> raw.Text?
    ensures raw.Empty? ==> r == Err(UnexpectedEnd)
    ensures raw.Malformed? ==> r == Err(SyntaxError)
  {
    match raw
    case Empty => Err(UnexpectedEnd)
    case Malformed => Err(SyntaxError)
    case Text(j) => Ok(j)
  }

  /** A Go map[string]json.RawMessage: nil, or a map from keys to the values' text. */
  datatype GoMap = Nil | NonNil(entries: map<string, Json>)

  /** json.Unmarshal into a nil map[string]json.RawMessage: an object fills a new map,
      `null` leaves the map nil without an error, any other value is a type error. */
  function UnmarshalMap(raw: Raw): (r: Result<GoMap>)
    ensures r.Ok? <==> raw.Text? && (raw.value.JObject? || raw.value.JNull?)
    ensures r == Ok(Nil) <==> raw == Text(JNull)
    ensures r.Ok? && r.value.NonNil? ==> raw == Text(JObject(r.value.entries))
    ensures raw.Text? && !r.Ok? ==> r == Err(TypeMismatch)
  {
    var j :- Parse(raw);
    match j
    case JObject(fields) => Ok(NonNil(fields))
    case JNull => Ok(Nil)
    case _ => Err(TypeMismatch)
  }

  /** Go's `m[key]` on a map[string]json.RawMessage: the value's text, or a nil
      json.RawMessage when the map is nil or the key is missing. */
  function Index(m: GoMap, key: string): (r: Raw)
    ensures r != Malformed
    ensures r.Empty? <==> m.Nil? || key !in m.entries
    ensures r.Text? ==> m.NonNil? && key in m.entries && r.value == m.entries[key]
  {
    match m
    case Nil => Empty
    case NonNil(entries) => if key in entries then Text(entries[key]) else Empty
  }

  /** json.Unmarshal into a Go string that starts out empty: a JSON string is taken as it is,
      `null` leaves the empty string without an error, any other value is a type error. */
  function UnmarshalString(raw: Raw): (r: Result<string>)
    ensures r.Ok? <==> raw.Text? && (raw.value.JString? || raw.value.JNull?)
    ensures r.Ok? && raw.value.JString? ==> r.value == raw.value.s
    ensures r.Ok? && raw.value.JNull? ==> r.value == ""
    ensures raw.Text? && !r.Ok? ==> r == Err(TypeMismatch)
  {
    var j :- Parse(raw);
    match j
    case JString(s) => Ok(s)
    case JNull => Ok("")
    case _ => Err(TypeMismatch)
  }
}
