/** The JSON values the tools and prompts pass around, and the codec the source
    borrows from Python's `json` module. */
module Json {

  datatype JsonValue =
    | JNull
    | JBool(b: bool)
    | JNumber(n: real)
    | JString(s: string)
    | JArray(items: seq<JsonValue>)
    | JObject(members: seq<(string, JsonValue)>)

  /** Python truthiness of a parsed JSON value (`if context_data:`). */
  predicate Truthy(v: JsonValue) {
    match v
    case JNull => false
    case JBool(b) => b
    case JNumber(n) => n != 0.0
    case JString(s) => s != ""
    case JArray(items) => items != []
    case JObject(members) => members != []
  }

  /** `json.loads`, `json.dumps` and `json.dumps(_, indent=2)`, taken as given. */
  datatype Codec = Codec(
    loads: string -> JsonValue,
    dumps: JsonValue -> string,
    dumpsIndented: JsonValue -> string)
}
