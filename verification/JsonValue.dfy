/** Parsed JSON, and how the scripts look into it. Objects are maps: the order of their keys plays no
    part in what is modelled. */
module JsonValue {
  import opened Text

  datatype Json =
    | JNull
    | JBool(b: bool)
    | JInt(i: int)
    | JReal(r: real)
    | JStr(s: string)
    | JList(items: seq<Json>)
    | JObj(fields: map<string, Json>)

  /** `isinstance(x, int)`: Python's booleans are integers. */
  predicate IsInt(j: Json) {
    j.JInt? || j.JBool?
  }

  predicate Truthy(j: Json) {
    match j
    case JNull => false
    case JBool(b) => b
    case JInt(i) => i != 0
    case JReal(r) => r != 0.0
    case JStr(s) => s != ""
    case JList(items) => items != []
    case JObj(fields) => fields != map[]
  }

  /** `item.get(key)` */
  function Field(item: map<string, Json>, key: string): Json {
    if key in item then item[key] else JNull
  }

  /** `str(item.get(key) or "").strip()` */
  function TextField(show: Json -> string, item: map<string, Json>, key: string): string {
    var j := Field(item, key);
    if !Truthy(j) then "" else if j.JStr? then Strip(j.s) else Strip(show(j))
  }
}
