/** JSON-compatible values, the shape of `Record<string, any>` payload data
    and of what `JSON.stringify` preserves. */
module Json {

  datatype Json =
    | JNull
    | JBool(b: bool)
    | JNumber(n: int)
    | JString(s: string)
    | JArray(items: seq<Json>)
    | JObject(fields: map<string, Json>)

  /** A plain object with JSON-compatible values. */
  type Record = map<string, Json>
}
