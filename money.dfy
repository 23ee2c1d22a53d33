/**
 * Money arithmetic. Every amount of money is held as a whole number of
 * cents (hundredths of a Hong Kong dollar). The program computes fee rates
 * in floating point and rounds with `Math.round` or `toFixed(2)`; here a
 * rate is an exact rational and the rounding is written out.
 */
module Money {

  /** `r` is the integer nearest to `n / d`, halves going up: `r - 1/2 <= n / d < r + 1/2`. */
  predicate NearestTo(r: int, n: int, d: int) {
    d * (2 * r - 1) <= 2 * n < d * (2 * r + 1)
  }

  /** `Math.round(n / d)` for a positive divisor: the nearest integer, halves rounded up. */
  function RoundDiv(n: int, d: int): (r: int)
    requires d > 0
    ensures NearestTo(r, n, d)
  {
    (2 * n + d) / (2 * d)
  }

  /** Rounding a quotient of non-negatives gives a non-negative result. */
  lemma RoundDivNonNegative(n: int, d: int)
    requires n >= 0 && d > 0
    ensures RoundDiv(n, d) >= 0
  {
  }

  /** Rounding is monotone in the numerator. */
  lemma RoundDivMonotone(n: int, m: int, d: int)
    requires d > 0 && n <= m
    ensures RoundDiv(n, d) <= RoundDiv(m, d)
  {
    var q, p := RoundDiv(n, d), RoundDiv(m, d);
    assert d * (2 * q - 1) < d * (2 * p + 1);
    DistinctProducts(d, 2 * q - 1, 2 * p + 1);
  }

  /** With a positive factor, a smaller product means a smaller other factor. */
  lemma DistinctProducts(d: int, a: int, b: int)
    requires d > 0 && d * a < d * b
    ensures a < b
  {
    assert d * b - d * a == d * (b - a);
  }

  /** Dividing by one needs no rounding. */
  lemma RoundDivOne(n: int)
    ensures RoundDiv(n, 1) == n
  {
  }

  /** `x.toFixed(2)` of an amount held in cents: the nearest whole cent, halves rounded away from zero. */
  function ToFixedCents(x: real): (r: int)
    ensures r as real - 0.5 <= x <= r as real + 0.5
    ensures x >= 0.0 ==> r >= 0
  {
    if x >= 0.0 then (x + 0.5).Floor else -((-x + 0.5).Floor)
  }

  /** An amount that is already a whole number of cents is unchanged by `toFixed(2)`. */
  lemma ToFixedCentsWhole(n: int)
    ensures ToFixedCents(n as real) == n
  {
  }
}
