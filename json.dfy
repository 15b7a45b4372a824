/** JSON values as `JSON.parse` produces them, and JavaScript truthiness on them. */
module JsonValues {
  import opened Records

  datatype Json =
    | JNull
    | JBool(b: bool)
    | JNumber(n: real)
    | JString(s: string)
    | JArray(items: seq<Json>)
    | JObject(fields: Record<Json>)

  /** `if (j)`: `null`, `false`, `0` and `""` are falsy; arrays and objects, even empty, are truthy. */
  predicate Truthy(j: Json)
  {
    match j
    case JNull => false
    case JBool(b) => b
    case JNumber(n) => n != 0.0
    case JString(s) => s != ""
    case JArray(_) => true
    case JObject(_) => true
  }
}
