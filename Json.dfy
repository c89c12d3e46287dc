/**
 * The JSON-like values that travel between the upstream catalogue, the cache
 * and the HTTP responses, together with the two pieces of Python semantics the
 * views rely on: `dict.get` with a default and truthiness (`if cached:`).
 */
module Json {

  datatype Json =
    | JNull
    | JBool(b: bool)
    | JInt(i: int)
    | JStr(s: string)
    | JList(items: seq<Json>)
    | JObj(fields: map<string, Json>)

  /** `d.get(key, default)` on a dictionary. */
  function Get(fields: map<string, Json>, key: string, default: Json): (r: Json)
    ensures key in fields ==> r == fields[key]
    ensures key !in fields ==> r == default
  {
    if key in fields then fields[key] else default
  }

  /** Python truthiness: `None`, `False`, `0`, `""`, `[]` and `{}` are false. */
  predicate Truthy(j: Json)
    ensures Truthy(j) <==>
      j != JNull && j != JBool(false) && j != JInt(0) && j != JStr("") && j != JList([]) && j != JObj(map[])
  {
    match j
    case JNull => false
    case JBool(b) => b
    case JInt(i) => i != 0
    case JStr(s) => s != ""
    case JList(items) => items != []
    case JObj(fields) => fields != map[]
  }

}
