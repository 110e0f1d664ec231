/**
 * Parsed JSON values, as Python's `json` module and Flask's `jsonify` see
 * them, and Python's truthiness of such values (`if x:`).
 */
module Json {

  datatype Json =
    | JNull
    | JBool(b: bool)
    | JNum(n: int)
    | JStr(s: string)
    | JArr(items: seq<Json>)
    | JObj(fields: map<string, Json>)

  /** Python's `bool(x)`: null, false, zero and empty containers are falsy. */
  predicate Truthy(j: Json) {
    match j
    case JNull => false
    case JBool(b) => b
    case JNum(n) => n != 0
    case JStr(s) => |s| > 0
    case JArr(items) => |items| > 0
    case JObj(fields) => |fields| > 0
  }

  /** The one-entry object `{"error": message}` used for degraded results. */
  function ErrorObject(message: string): (j: Json)
    ensures j.JObj? && j.fields.Keys == {"error"} && j.fields["error"] == JStr(message)
  {
    JObj(map["error" := JStr(message)])
  }
}
