/**
 * The few JavaScript value semantics the dashboard code relies on: truthiness
 * and the value-returning `&&` operator.
 */
module Js {
  import opened Optional

  /** The JavaScript values that the boolean expressions of this model can produce. */
  datatype JsValue = Undefined | Null | Str(s: string) | Bool(b: bool)

  /** JavaScript's truthiness, restricted to the values above: `""` is falsy. */
  predicate Truthy(v: JsValue) {
    match v
    case Undefined => false
    case Null => false
    case Str(s) => s != ""
    case Bool(b) => b
  }

  /** A `string | null` field, seen as a JavaScript value. */
  function FromNullable(s: Option<string>): (v: JsValue)
    ensures Truthy(v) <==> s.Some? && s.value != ""
  {
    match s
    case None => Null
    case Some(x) => Str(x)
  }

  /** `a && b`: the left operand when it is falsy, otherwise the right one. */
  function And(a: JsValue, b: JsValue): (v: JsValue)
    ensures Truthy(v) <==> Truthy(a) && Truthy(b)
    ensures !Truthy(a) ==> v == a
  {
    if Truthy(a) then b else a
  }

  /** Truthiness of a nullable string, the test `if (x)` applies to it. */
  predicate TruthyString(s: Option<string>) {
    Truthy(FromNullable(s))
  }
}
