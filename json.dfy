/** JSON values, and the byte strings that json.Unmarshal is handed, seen through what it makes of them. */
module JsonValues {

  /** A JSON value. Numbers are the integral literals; an object's keys are distinct. */
  datatype Json =
    | JNull
    | JBool(b: bool)
    | JNumber(n: int)
    | JString(s: string)
    | JArray(elems: seq<Json>)
    | JObject(fields: map<string, Json>)

  /** The input of one json.Unmarshal call: no bytes (a missing key's nil json.RawMessage,
      or an empty response body), bytes that are not one JSON value, or the text of a value. */
  datatype Raw = Empty | Malformed | Text(value: Json)

  /** `j` is an object whose `outer` member is an object that has an `inner` member. */
  predicate HasPath(j: Json, outer: string, inner: string) {
    j.JObject? && outer in j.fields && j.fields[outer].JObject? && inner in j.fields[outer].fields
  }

  /** The value at `outer.inner`. */
  function PathValue(j: Json, outer: string, inner: string): Json
    requires HasPath(j, outer, inner)
  {
    j.fields[outer].fields[inner]
  }
}
