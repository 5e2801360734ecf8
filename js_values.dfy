/**
 * The handful of JavaScript values that the client code stores in filter
 * objects and action payloads, with JavaScript's notion of truthiness.
 */
module JsValues {
  import opened Wrappers

  /** A JavaScript value as far as the modelled code distinguishes them. */
  datatype Value =
    | Undefined
    | Null
    | Num(n: int)
    | NaN
    | Str(s: string)

  /** JavaScript truthiness: `undefined`, `null`, `0`, `NaN` and `""` are falsy. */
  predicate Truthy(v: Value)
  {
    match v
    case Undefined => false
    case Null => false
    case Num(n) => n != 0
    case NaN => false
    case Str(s) => s != ""
  }

  /** A plain object: its own enumerable properties. Property order is not modelled. */
  type Object = map<string, Value>

  /**
   * `message || fallback` for a message that may be missing: a missing or
   * empty message gives the fallback.
   */
  function MessageOr(message: Option<string>, fallback: string): (r: string)
    ensures r == fallback || Some(r) == message
    ensures r != "" <==> (message.Some? && message.value != "") || fallback != ""
    ensures message.Some? && message.value != "" ==> r == message.value
    ensures message == None || message == Some("") ==> r == fallback
  {
    if message.Some? && message.value != "" then message.value else fallback
  }
}
