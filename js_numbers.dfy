/**
 * The part of JavaScript's number semantics that the billing module relies on.
 *
 * A setting that was never assigned holds `undefined`; adding `undefined` to a
 * number yields `NaN`, and `NaN` absorbs every later addition. Every relational
 * comparison (`>=`, `<`) that involves `undefined` or `NaN` is false. Finite
 * values are modelled as exact reals, so no rounding happens.
 */
module JsNumbers {

  datatype JsNumber = Undefined | NaN | Num(value: real)

  /** JavaScript `a + b` on numbers that may be `undefined` or `NaN`. */
  function Plus(a: JsNumber, b: JsNumber): (r: JsNumber)
    ensures r.Num? <==> a.Num? && b.Num?
    ensures r.Num? ==> r.value == a.value + b.value
    ensures !r.Undefined?
  {
    match a
    case Num(x) => (match b case Num(y) => Num(x + y) case _ => NaN)
    case _ => NaN
  }

  /** JavaScript `a >= b`: false as soon as either side is not a number. */
  function AtLeast(a: JsNumber, b: JsNumber): bool
  {
    a.Num? && b.Num? && a.value >= b.value
  }

  /** JavaScript `a < b`: false as soon as either side is not a number. */
  function Below(a: JsNumber, b: JsNumber): bool
  {
    a.Num? && b.Num? && a.value < b.value
  }

  /** `a < b` is the negation of `a >= b` only when both sides are numbers;
      with `undefined` or `NaN` on either side both comparisons are false. */
  lemma Comparisons(a: JsNumber, b: JsNumber)
    ensures Below(a, b) ==> !AtLeast(a, b)
    ensures a.Num? && b.Num? ==> (Below(a, b) <==> !AtLeast(a, b))
    ensures !a.Num? || !b.Num? ==> !Below(a, b) && !AtLeast(a, b)
  {
  }

  /** The model's addition (exact reals, with `NaN` absorbing) is associative
      and commutative: whichever way a sum is grouped or ordered, the result
      is the same number or `NaN`. JavaScript's double addition is only
      commutative; its rounding is not modelled. */
  lemma PlusRegroup(a: JsNumber, b: JsNumber, c: JsNumber)
    ensures Plus(Plus(a, b), c) == Plus(a, Plus(b, c))
    ensures Plus(Plus(a, b), c) == Plus(Plus(a, c), b)
    ensures Plus(a, b) == Plus(b, a)
  {
  }
}
