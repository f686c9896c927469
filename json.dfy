/**
 * Decoded JSON values, as the Python code builds them with dict and list
 * literals and as `json.dumps` / `response.json()` exchange them. Integers and
 * floats are kept apart because the query builder writes `2` and `100.0`
 * differently. An object is a map: Python dicts carry no order that the wire
 * format promises.
 */
module Json {
  import opened Wrappers

  datatype Json =
    | JNull
    | JBool(b: bool)
    | JInt(i: int)
    | JFloat(r: real)
    | JStr(s: string)
    | JArr(items: seq<Json>)
    | JObj(fields: map<string, Json>)

  /** `j[name]`: None where Python raises (j is not a dict, or the key is missing). */
  function Field(j: Json, name: string): Option<Json>
  {
    if j.JObj? && name in j.fields then Some(j.fields[name]) else None
  }

  /** `j[path[0]][path[1]]...`, None as soon as one step fails. */
  function At(j: Json, path: seq<string>): Option<Json>
    decreases |path|
  {
    if path == [] then Some(j)
    else
      match Field(j, path[0])
      case None => None
      case Some(child) => At(child, path[1..])
  }

  /** Python truthiness of a decoded JSON value (`if value:`). */
  predicate Truthy(j: Json)
  {
    match j
    case JNull => false
    case JBool(b) => b
    case JInt(i) => i != 0
    case JFloat(r) => r != 0.0
    case JStr(s) => s != []
    case JArr(a) => a != []
    case JObj(m) => m != map[]
  }
}
