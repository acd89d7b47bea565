/** Decoded JSON values and the Python exceptions the proxy's translation
    code can raise while it inspects them. */
module JsonModel {

  /** A decoded JSON document. Numbers are exact reals: Python compares the
      int -1 and the float -1.0 as equal, and so does this model. */
  datatype Json =
    | JNull
    | JBool(b: bool)
    | JNumber(n: real)
    | JString(s: string)
    | JArray(items: seq<Json>)
    | JObject(fields: map<string, Json>)

  datatype Option<+T> = None | Some(value: T)

  /** The Python exception a translation step raises. */
  datatype Error =
    | KeyError(key: string)   // dict subscript on a missing key
    | TypeError               // subscript, `in` or iteration on the wrong kind of value
    | AttributeError          // `.get` on something that is not a dict
    | NoModels                // the backend catalog came back empty (a ValueError)

  datatype Result<+T> = Ok(value: T) | Err(error: Error)

  /** Python truthiness of a decoded JSON value. */
  predicate Truthy(j: Json)
  {
    match j
    case JNull => false
    case JBool(b) => b
    case JNumber(n) => n != 0.0
    case JString(s) => s != ""
    case JArray(items) => items != []
    case JObject(fields) => fields != map[]
  }

  /** `d.get(key, default)` on a dict. */
  function GetOr(d: map<string, Json>, key: string, default: Json): Json
  {
    if key in d then d[key] else default
  }
}
