/** The JSON values that profile.json and the extracted lead are made of, with
    Python's truthiness on them. Floating-point numbers are not modelled. */
module Json {
  import opened Wrappers

  datatype Json =
    | JNull
    | JBool(b: bool)
    | JNum(n: int)
    | JStr(s: string)
    | JList(items: seq<Json>)
    | JObj(fields: map<string, Json>)

  /** The `{}` that lookups return when a key is absent. */
  const EmptyObject: Json := JObj(map[])

  /** bool(v) in Python: None, False, 0 and empty strings, lists and dicts are false. */
  predicate Truthy(j: Json) {
    match j
    case JNull => false
    case JBool(b) => b
    case JNum(n) => n != 0
    case JStr(s) => s != ""
    case JList(items) => items != []
    case JObj(fields) => fields != map[]
  }

  /** v.get(key) on a JSON object; None when the key is absent or v is not an object. */
  function Field(j: Json, key: string): Option<Json> {
    if j.JObj? && key in j.fields then Some(j.fields[key]) else None
  }

  /** The elements of a JSON list; other values have none. */
  function Items(j: Json): seq<Json> {
    if j.JList? then j.items else []
  }
}
