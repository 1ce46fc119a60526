/** A decoded JSON document, as `response.json()` and `json.loads` hand it to the dashboard.
    Numbers are kept as exact rationals: nothing in the core computes with them. */
module Json {

  datatype Value =
    | JNull
    | JBool(b: bool)
    | JNumber(n: real)
    | JString(s: string)
    | JArray(items: seq<Value>)
    | JObject(fields: map<string, Value>)

  /** Python truthiness of the decoded document, as tested by `if weather_data:`
      and `if not weather_data:`. */
  predicate Truthy(v: Value)
  {
    match v
    case JNull => false
    case JBool(b) => b
    case JNumber(n) => n != 0.0
    case JString(s) => s != ""
    case JArray(items) => items != []
    case JObject(fields) => fields != map[]
  }
}
