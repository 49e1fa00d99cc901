/**
 * The Python values `json.loads` produces, Python truthiness over them,
 * `dict.get`, and the exceptions the pipeline can raise.
 */
module PyJson {
  import opened Results

  /** A parsed JSON value: None, bool, int/float (as a real), str, list, dict.
      A dict is a map: `json.loads` keeps the last of duplicate keys. */
  datatype Json =
    | JNull
    | JBool(b: bool)
    | JNum(n: real)
    | JStr(s: string)
    | JArr(elems: seq<Json>)
    | JObj(fields: map<string, Json>)

  /** Python's `bool(v)`. */
  predicate Truthy(v: Json) {
    match v
    case JNull => false
    case JBool(b) => b
    case JNum(n) => n != 0.0
    case JStr(s) => s != ""
    case JArr(elems) => elems != []
    case JObj(fields) => fields != map[]
  }

  /** `d.get(key)`: the value, or None when the key is absent. */
  function Get(d: map<string, Json>, key: string): (v: Json)
    ensures key !in d ==> v == JNull
    ensures key in d ==> v == d[key]
  {
    if key in d then d[key] else JNull
  }

  /** `float(s)` on a string: `None` where Python raises ValueError. */
  type NumberParser = string -> Option<real>

  /** `json.loads(s)`: `None` where Python raises JSONDecodeError. */
  type JsonParser = string -> Option<Json>

  /** The exceptions the pipeline can raise, by kind. */
  datatype PyError =
    | JsonDecodeError(content: string)   // json.loads rejected the candidate; carries the reply that was logged
    | AttributeError(key: string)        // `.get` on something that is not a dict
    | TypeError(key: string)             // `**` on a non-mapping, iteration or `len` on the wrong type
    | ValidationError(model: string)     // a record type rejected its fields
}
