/** The JSON values a `json.loads` call can return, with Python's truthiness. */
module JsonValues {

  /** Numbers are kept as reals and never computed with. */
  datatype Json =
    | JNull
    | JBool(b: bool)
    | JNum(n: real)
    | JStr(s: string)
    | JArr(items: seq<Json>)
    | JObj(fields: map<string, Json>)

  /** Python's `bool(v)`: null, false, zero and empty containers are falsy. */
  predicate Truthy(v: Json) {
    match v
    case JNull => false
    case JBool(b) => b
    case JNum(n) => n != 0.0
    case JStr(s) => s != []
    case JArr(items) => items != []
    case JObj(fields) => fields != map[]
  }

  /** `d.get(key)`: `None` for a missing key. */
  function Get(d: map<string, Json>, key: string): Json {
    if key in d then d[key] else JNull
  }
}
