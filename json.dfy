/** The JavaScript values the artboard and the printer read out of a stored resume. */
module Json {

  /** A JavaScript value as it appears in parsed JSON (plus `undefined`, which structured clones keep). */
  datatype Json =
    | JUndefined
    | JNull
    | JBool(b: bool)
    | JNum(n: real)
    | JStr(s: string)
    | JArr(items: seq<Json>)
    | JObj(fields: map<string, Json>)

  /** JavaScript truthiness (NaN is not modelled: numbers are reals). */
  predicate Truthy(v: Json) {
    match v
    case JUndefined => false
    case JNull => false
    case JBool(b) => b
    case JNum(n) => n != 0.0
    case JStr(s) => s != ""
    case JArr(_) => true
    case JObj(_) => true
  }

  /** `typeof v === "object"`: true for null, arrays and plain objects. */
  predicate IsObjectType(v: Json) {
    v.JNull? || v.JArr? || v.JObj?
  }

  /** `v?.[key]`: a missing key, or a value that is not a plain object, reads as `undefined`. */
  function Get(v: Json, key: string): (r: Json)
    ensures !v.JObj? ==> r == JUndefined
    ensures v.JObj? && key !in v.fields ==> r == JUndefined
  {
    if v.JObj? && key in v.fields then v.fields[key] else JUndefined
  }

  /** `v.key === undefined`. */
  predicate IsUndefinedAt(m: map<string, Json>, key: string) {
    key !in m || m[key] == JUndefined
  }

  /** The `type` field of a message's data, when it is a string. */
  function TypeOf(data: Json): string {
    var t := Get(data, "type");
    if t.JStr? then t.s else ""
  }
}
