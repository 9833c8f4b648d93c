/**
 * The JSON values the components receive from web services, with the JavaScript
 * reading of them the components rely on: truthiness and property access.
 */
module Json {
  import opened Wrappers

  /** Numbers are integers here; fractional values are not modelled. */
  datatype Json =
    | JNull
    | JBool(b: bool)
    | JNum(n: int)
    | JStr(s: string)
    | JArr(items: seq<Json>)
    | JObj(fields: map<string, Json>)

  /** JavaScript truthiness of a JSON value; arrays and objects are always truthy. */
  predicate Truthy(j: Json) {
    match j
    case JNull => false
    case JBool(b) => b
    case JNum(n) => n != 0
    case JStr(s) => s != ""
    case JArr(_) => true
    case JObj(_) => true
  }

  /**
   * `j.key` on a value that is not `null`: an object's own field, `undefined` (None) otherwise.
   * Reading a property of `null` throws, so callers test `JNull?` first.
   */
  function Prop(j: Json, key: string): (r: Option<Json>)
    requires !j.JNull?
    ensures r.Some? <==> j.JObj? && key in j.fields
    ensures r.Some? ==> r.value == j.fields[key]
  {
    if j.JObj? && key in j.fields then Some(j.fields[key]) else None
  }

  /** Truthiness of a property read, `undefined` being falsy. */
  predicate PropTruthy(j: Json, key: string)
    requires !j.JNull?
  {
    var p := Prop(j, key);
    p.Some? && Truthy(p.value)
  }

  /** A value read from `undefined` or `null` by optional chaining, `x?.key`. */
  function OptionalProp(j: Option<Json>, key: string): (r: Option<Json>)
    ensures r.Some? ==> j.Some? && j.value.JObj? && key in j.value.fields
    ensures j.Some? && j.value.JObj? && key in j.value.fields ==> r == Some(j.value.fields[key])
  {
    if j.None? || j.value.JNull? then None else Prop(j.value, key)
  }

  /** `x ?? fallback`: the value unless it is `null` or `undefined`. */
  function Coalesce(j: Option<Json>, fallback: Json): (r: Json)
    ensures r == fallback || (j.Some? && r == j.value && !r.JNull?)
    ensures j.None? || j.value.JNull? ==> r == fallback
    ensures j.Some? && !j.value.JNull? ==> r == j.value
  {
    if j.None? || j.value.JNull? then fallback else j.value
  }
}
