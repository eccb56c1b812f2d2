/** JSON values as the browser store and the hosted backend hand them around.
    Numbers are integers: the modelled code only stores and compares them. */
module JsonValues {

  datatype Json =
    | JNull
    | JBool(b: bool)
    | JNum(n: int)
    | JStr(s: string)
    | JArr(items: seq<Json>)
    | JObj(fields: map<string, Json>)

  /** A record: an object's fields. A key that is absent stands for JavaScript's
      `undefined`, which a JSON round trip drops anyway. */
  type Record = map<string, Json>

  /** JavaScript truthiness of a JSON value. */
  predicate Truthy(v: Json)
  {
    match v
    case JNull => false
    case JBool(b) => b
    case JNum(n) => n != 0
    case JStr(s) => s != ""
    case _ => true
  }

  /** `a || b` */
  function Or(a: Json, b: Json): Json
  {
    if Truthy(a) then a else b
  }

  /** `record.key`, with an absent key read as `undefined` (modelled as null). */
  function Field(r: Record, key: string): Json
  {
    if key in r then r[key] else JNull
  }

  /** The one-field record `{ key: record.key }`, empty when the key is undefined. */
  function Pick(r: Record, key: string): (p: Record)
    ensures p.Keys == if key in r then {key} else {}
    ensures key in r ==> p[key] == r[key]
  {
    if key in r then map[key := r[key]] else map[]
  }
}
