/** The values PHP arrays hold once decoded from, or destined to, JSON. */
module JsonValue {

  /** A PHP array with string keys is a `JObject`; a list is a `JList`. */
  datatype Json =
    | JNull
    | JBool(b: bool)
    | JInt(i: int)
    | JStr(s: string)
    | JList(items: seq<Json>)
    | JObject(fields: map<string, Json>)

  /** PHP's `empty($v)`: null, false, 0, "", "0" and the empty array. */
  predicate IsEmpty(v: Json)
  {
    match v
    case JNull => true
    case JBool(b) => !b
    case JInt(i) => i == 0
    case JStr(s) => s == "" || s == "0"
    case JList(items) => items == []
    case JObject(fields) => fields == map[]
  }

  /** PHP's `empty()` (equivalently `!$v`) on a nullable string. */
  predicate IsEmptyText(s: string)
  {
    s == "" || s == "0"
  }
}
