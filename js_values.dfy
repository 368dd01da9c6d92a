/**
 * The few pieces of JavaScript value semantics that the validators rely on:
 * the numbers `Number(...)` can produce (including NaN and the infinities),
 * the comparisons `<=` and `>` on them, the values a parsed JSON request body
 * can hold, which of those are truthy, and what `Number(...)` makes of them.
 * Floating-point rounding is not modelled: finite numbers are exact reals.
 */
module JsValues {

  /** A JavaScript number: NaN, a finite value, or one of the two infinities. */
  datatype Numeric = NaN | Finite(x: real) | Infinity(negative: bool)

  /** `n <= bound`: false for NaN, true for -Infinity, false for +Infinity. */
  predicate AtMost(n: Numeric, bound: real)
  {
    match n
    case NaN => false
    case Finite(x) => x <= bound
    case Infinity(negative) => negative
  }

  /** `n > bound`: false for NaN, false for -Infinity, true for +Infinity. */
  predicate Above(n: Numeric, bound: real)
  {
    match n
    case NaN => false
    case Finite(x) => x > bound
    case Infinity(negative) => !negative
  }

  /** NaN is the one number for which both comparisons are false. */
  lemma NaNEscapesBothComparisons(n: Numeric, bound: real)
    ensures !AtMost(n, bound) && !Above(n, bound) <==> n == NaN
  {
  }

  /**
   * A value found in a field of a parsed JSON body. A field that is absent
   * reads as `Undefined`; an array or object is `Compound`, carrying the string
   * it converts to as a primitive (`String([5])` is "5", `String({})` is
   * "[object Object]"), which is what `Number(...)` reads. A JSON number is
   * taken as the exact real its literal denotes: the rounding `JSON.parse`
   * applies to a literal (a huge one becomes Infinity, a tiny one 0) is not
   * modelled.
   */
  datatype JsValue =
    | Undefined
    | Null
    | Bool(b: bool)
    | Num(x: real)
    | Str(s: string)
    | Compound(primitive: string)

  /** JavaScript truthiness: `!v` is `!Truthy(v)`. The falsy values are exactly the five listed. */
  predicate Truthy(v: JsValue)
    ensures Truthy(v) <==>
              v != Undefined && v != Null && v != Bool(false) && v != Num(0.0) && v != Str("")
  {
    match v
    case Undefined => false
    case Null => false
    case Bool(b) => b
    case Num(x) => x != 0.0
    case Str(s) => s != []
    case Compound(_) => true
  }

  /**
   * `Number(v)`. How a string is read as a number is a parameter: it is the
   * engine's string-to-number grammar, which this model does not spell out.
   */
  function ToNumber(v: JsValue, parse: string -> Numeric): (n: Numeric)
    ensures v.Str? ==> n == parse(v.s)
    ensures v.Num? ==> n == Finite(v.x)
    ensures v.Compound? ==> n == parse(v.primitive)
    ensures v.Bool? ==> n == Finite(if v.b then 1.0 else 0.0)
    ensures v.Null? ==> n == Finite(0.0)
    ensures !v.Str? && !v.Compound? ==> (n == NaN <==> v == Undefined)
    ensures v.Null? || v.Bool? || v.Num? ==> n.Finite? && (n.x != 0.0 <==> Truthy(v))
  {
    match v
    case Undefined => NaN
    case Null => Finite(0.0)
    case Bool(b) => Finite(if b then 1.0 else 0.0)
    case Num(x) => Finite(x)
    case Str(s) => parse(s)
    case Compound(p) => parse(p)
  }
}
