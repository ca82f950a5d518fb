/** A JSON document decoded the way `encoding/json` decodes into
    `interface{}`: objects become `map[string]interface{}`, arrays
    `[]interface{}`, numbers `float64`. */
module Json {
  datatype Json =
    | JNull
    | JBool(b: bool)
    | JNumber(n: real)
    | JString(s: string)
    | JArray(elems: seq<Json>)
    | JObject(fields: map<string, Json>)

  /** A decoded JSON state: the top-level `map[string]interface{}`. */
  type JsonMap = map<string, Json>
}
