/**
 * Small facts about real numbers shared by the sensors: Python's `max` and
 * `min` on two floats, and the sign of a product, kept in lemmas of their
 * own so that nonlinear arithmetic stays out of the larger proofs.
 */
module Reals {
  function Max(a: real, b: real): (r: real)
    ensures r >= a && r >= b && (r == a || r == b)
  {
    if a >= b then a else b
  }

  function Min(a: real, b: real): (r: real)
    ensures r <= a && r <= b && (r == a || r == b)
  {
    if a <= b then a else b
  }

  lemma NonNegativeProduct(a: real, b: real)
    requires a >= 0.0 && b >= 0.0
    ensures a * b >= 0.0
  {
  }

  lemma PositiveProduct(a: real, b: real)
    requires a > 0.0 && b > 0.0
    ensures a * b > 0.0
  {
  }

  /** Two quotients over the same denominator add up to 1 when their numerators add up to it. */
  lemma QuotientsSumToOne(a: real, b: real, t: real)
    requires t != 0.0 && a + b == t
    ensures a / t + b / t == 1.0
  {
    assert a / t + b / t == (a + b) / t;
  }
}
