/**
 * JSON values as `JSON.parse` produces them, and the JavaScript notions the
 * handlers apply to them: truthiness and optional property access.
 */
module Json {
  import opened Wrappers

  datatype Json =
    | JNull
    | JBool(b: bool)
    | JNum(n: real)
    | JStr(s: string)
    | JArr(items: seq<Json>)
    | JObj(fields: map<string, Json>)

  /** JavaScript truthiness of a parsed value: `null`, `false`, `0` and `""` are falsy. */
  predicate Truthy(j: Json) {
    match j
    case JNull => false
    case JBool(b) => b
    case JNum(n) => n != 0.0
    case JStr(s) => s != ""
    case JArr(_) => true
    case JObj(_) => true
  }

  /** Truthiness of a possibly-undefined value: `undefined` is falsy. */
  predicate TruthyOpt(v: Option<Json>) {
    v.Some? && Truthy(v.value)
  }

  /**
   * `v?.name`: the property `name` of an object, and `undefined` for every
   * other value (a string, number, array or boolean has no such own property)
   * and for `undefined` itself. `null?.name` is `undefined` too.
   */
  function Prop(v: Option<Json>, name: string): (r: Option<Json>)
    ensures r.Some? <==> v.Some? && v.value.JObj? && name in v.value.fields
    ensures r.Some? ==> r.value == v.value.fields[name]
  {
    if v.Some? && v.value.JObj? && name in v.value.fields then Some(v.value.fields[name]) else None
  }

  /** `v?.[i]` on an array; `undefined` for anything else or out of range. */
  function Index(v: Option<Json>, i: nat): (r: Option<Json>)
    ensures r.Some? <==> v.Some? && v.value.JArr? && i < |v.value.items|
    ensures r.Some? ==> r.value == v.value.items[i]
  {
    if v.Some? && v.value.JArr? && i < |v.value.items| then Some(v.value.items[i]) else None
  }

  /** The empty object `{}`, the value of `JSON.parse('{}')`. */
  const EmptyObject: Json := JObj(map[])
}
