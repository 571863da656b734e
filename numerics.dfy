/**
 * Scalar helpers shared by the analytics: float64 division with its
 * non-finite outcome, Python's float comparison, square roots given as
 * values, and the absolute value.
 */
module Numerics {

  /**
   * A float64 result of the analytics: either a finite number or a value
   * that numpy produces without raising when it divides by zero (NaN, or
   * an infinity).
   */
  datatype Float = Finite(value: real) | NonFinite

  /** numpy's float64 division: a zero divisor gives a non-finite value instead of an error. */
  function Div(a: real, b: real): (r: Float)
    ensures r.Finite? <==> b != 0.0
    ensures r.Finite? ==> r.value * b == a
  {
    if b == 0.0 then NonFinite else Finite(a / b)
  }

  /** numpy's product of a scalar and a float64: a non-finite factor stays non-finite. */
  function Scale(c: real, x: Float): (r: Float)
    ensures r.Finite? <==> x.Finite?
    ensures r.Finite? ==> r.value == c * x.value
  {
    match x
    case Finite(v) => Finite(c * v)
    case NonFinite => NonFinite
  }

  /** numpy's division of two float64 values. */
  function FDiv(a: Float, b: Float): (r: Float)
    ensures r.Finite? <==> a.Finite? && b.Finite? && b.value != 0.0
    ensures r.Finite? ==> r.value * b.value == a.value
  {
    if a.Finite? && b.Finite? then Div(a.value, b.value) else NonFinite
  }

  /**
   * Python's `<` on floats. A non-finite key here always stands for NaN,
   * which compares false with everything.
   */
  predicate Below(a: Float, b: Float)
  {
    a.Finite? && b.Finite? && a.value < b.value
  }

  /**
   * `r` is the non-negative square root of `x`. Dafny has no square root on
   * reals, so every root the analytics take is passed in as a value with
   * this relation.
   */
  predicate IsRoot(r: real, x: real)
  {
    r >= 0.0 && r * r == x
  }

  function Abs(x: real): (r: real)
    ensures r >= 0.0
    ensures r == x || r == -x
  {
    if x < 0.0 then -x else x
  }

  function MinNat(a: nat, b: nat): (r: nat)
    ensures r <= a && r <= b
    ensures r == a || r == b
  {
    if a <= b then a else b
  }

  /** A product of two positive numbers is positive. */
  lemma ProductPositive(a: real, b: real)
    requires a > 0.0 && b > 0.0
    ensures a * b > 0.0
  {
  }

  /** Dividing by a positive number keeps the sign and multiplies back. */
  lemma QuotientSign(x: real, d: real)
    requires d > 0.0
    ensures x >= 0.0 ==> x / d >= 0.0
    ensures x <= 0.0 ==> x / d <= 0.0
    ensures x / d > 0.0 <==> x > 0.0
    ensures (x / d) * d == x
  {
  }
}
