/**
 * JavaScript Number values, idealised: a finite value is an exact real (no
 * rounding to binary64, no negative zero), plus the two infinities and NaN.
 * The comparison and Math helpers follow the language's rules for NaN:
 * every comparison with NaN is false and Math.min / Math.max propagate it.
 */
module JsNumbers {

  datatype JsNumber = Finite(r: real) | PosInf | NegInf | NaN

  /** The relational operator `a < b` on two numbers. */
  predicate Less(a: JsNumber, b: JsNumber) {
    match (a, b)
    case (Finite(x), Finite(y)) => x < y
    case (NegInf, Finite(_)) => true
    case (NegInf, PosInf) => true
    case (Finite(_), PosInf) => true
    case _ => false
  }

  /** `a >= b`, which is false whenever either side is NaN. */
  predicate AtLeast(a: JsNumber, b: JsNumber) {
    a != NaN && b != NaN && !Less(a, b)
  }

  /** Math.abs */
  function Abs(a: JsNumber): JsNumber {
    match a
    case Finite(x) => Finite(if x < 0.0 then -x else x)
    case NegInf => PosInf
    case _ => a
  }

  /** Math.min of two arguments that are already numbers. */
  function Min(a: JsNumber, b: JsNumber): JsNumber {
    if a == NaN || b == NaN then NaN else if Less(b, a) then b else a
  }

  /** Math.max of two arguments that are already numbers. */
  function Max(a: JsNumber, b: JsNumber): JsNumber {
    if a == NaN || b == NaN then NaN else if Less(a, b) then b else a
  }

  /** `a <= b` on numbers: neither is NaN and `b < a` does not hold. */
  predicate AtMost(a: JsNumber, b: JsNumber) {
    a != NaN && b != NaN && !Less(b, a)
  }

  /** Math.min never yields more than either argument, unless one of them is NaN. */
  lemma MinIsLowerBound(a: JsNumber, b: JsNumber)
    requires a != NaN && b != NaN
    ensures AtMost(Min(a, b), a) && AtMost(Min(a, b), b)
  {
  }

  /** Math.max never yields less than either argument, unless one of them is NaN. */
  lemma MaxIsUpperBound(a: JsNumber, b: JsNumber)
    requires a != NaN && b != NaN
    ensures AtMost(a, Max(a, b)) && AtMost(b, Max(a, b))
  {
  }
}
