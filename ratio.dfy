/**
 * The ratios the generator writes into its output (coverage, average
 * lengths and frequencies, fractions, histogram bounds). Each is the
 * quotient of two counts; the model keeps the exact pair and reads its
 * value as a real, without float rounding.
 */
module Ratios {
  /** The quotient `numerator / denominator`. */
  datatype Ratio = Ratio(numerator: int, denominator: int)

  /** The exact value of a ratio with a non-zero denominator. */
  function RealValue(q: Ratio): (v: real)
    requires q.denominator != 0
    ensures v * q.denominator as real == q.numerator as real
  {
    q.numerator as real / q.denominator as real
  }

  /** A ratio whose numerator lies between `lo` and `hi` times its positive
      denominator has a value between `lo` and `hi`. */
  lemma ValueBetween(q: Ratio, lo: int, hi: int)
    requires q.denominator > 0
    requires lo * q.denominator <= q.numerator <= hi * q.denominator
    ensures lo as real <= RealValue(q) <= hi as real
  {
    var d := q.denominator as real;
    var v := RealValue(q);
    assert (lo as real) * d <= v * d;
    assert v * d <= (hi as real) * d;
  }

  /** A ratio of a count to a count at least as large lies in [0, 1]. */
  lemma UnitValue(q: Ratio)
    requires 0 <= q.numerator <= q.denominator && q.denominator > 0
    ensures 0.0 <= RealValue(q) <= 1.0
  {
    ValueBetween(q, 0, 1);
  }

  /** Over the same positive denominator, a larger numerator has a larger
      value. */
  lemma ValueIncreasing(a: Ratio, b: Ratio)
    requires a.denominator == b.denominator > 0
    requires a.numerator < b.numerator
    ensures RealValue(a) < RealValue(b)
  {
    var d := a.denominator as real;
    assert RealValue(a) * d < RealValue(b) * d;
  }
}
