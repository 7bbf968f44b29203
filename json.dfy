/**
 * Parsed JSON values as `json.loads` returns them. Objects keep their pairs
 * in document order, which is the iteration order of the Python dict.
 */
module Json {
  import opened Wrappers
  import opened Dicts

  datatype Json =
    | JNull
    | JBool(b: bool)
    | JNum(n: int)
    | JString(s: string)
    | JArray(items: seq<Json>)
    | JObject(fields: seq<(string, Json)>)

  /** Python truthiness: null, false, 0, "", [] and {} are false. */
  predicate Truthy(j: Json) {
    match j
    case JNull => false
    case JBool(b) => b
    case JNum(n) => n != 0
    case JString(s) => s != ""
    case JArray(items) => items != []
    case JObject(fields) => fields != []
  }

  /** `j.get(key)` on an object; None for a missing key or a non-object. */
  function Member(j: Json, key: string): Option<Json> {
    if j.JObject? then Get(j.fields, key) else None
  }
}
