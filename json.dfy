/**
 * The `any` values that cross the bridge (tool inputs and outputs, user-action data, request
 * options, network responses), as JSON-shaped data, and JavaScript's truthiness on them.
 */
module Json {
  import opened Wrappers

  datatype Json =
    | JNull
    | JBool(b: bool)
    | JNumber(n: int)
    | JString(s: string)
    | JArray(items: seq<Json>)
    | JObject(fields: seq<(string, Json)>)

  /** The empty object literal `{}`. */
  const EmptyObject: Json := JObject([])

  /**
   * JavaScript truthiness of a value: `null`, `false`, `0` and `""` are falsy, every other value
   * (including every array and object, empty or not) is truthy.
   */
  predicate Truthy(v: Json) {
    match v
    case JNull => false
    case JBool(b) => b
    case JNumber(n) => n != 0
    case JString(s) => s != ""
    case JArray(_) => true
    case JObject(_) => true
  }

  /** Truthiness of a value that may be `undefined` (`None`). */
  predicate Present(v: Option<Json>) {
    v.Some? && Truthy(v.value)
  }

  /**
   * `v || fallback`: the result is one of the two operands, it is truthy exactly when either operand
   * is, and a truthy value wins over the fallback.
   */
  function OrElse(v: Option<Json>, fallback: Json): (r: Json)
    ensures r == fallback || (v.Some? && r == v.value)
    ensures Truthy(r) <==> Present(v) || Truthy(fallback)
    ensures Present(v) ==> r == v.value
  {
    if Present(v) then v.value else fallback
  }
}
