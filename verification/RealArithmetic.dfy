/** Products and quotients of reals, one small fact at a time. */
module RealArithmetic {

  lemma ProductNonNegative(a: real, b: real)
    requires a >= 0.0 && b >= 0.0
    ensures a * b >= 0.0
  {
  }

  lemma ProductStrict(a: real, b: real, c: real)
    requires a < b && c > 0.0
    ensures a * c < b * c
  {
    assert (b - a) * c == b * c - a * c;
  }

  /** A positive common factor can be cancelled from an inequality. */
  lemma CancelFactor(a: real, b: real, c: real)
    requires c > 0.0 && a * c <= b * c
    ensures a <= b
  {
    if b < a {
      ProductStrict(b, a, c);
    }
  }

  lemma QuotientTimes(a: real, b: real)
    requires b != 0.0
    ensures a / b * b == a
  {
  }

  /** A quotient by a positive divisor is bounded like its numerator. */
  lemma QuotientBetween(a: real, b: real)
    requires b > 0.0 && 0.0 <= a <= b
    ensures 0.0 <= a / b <= 1.0
  {
    QuotientTimes(a, b);
    CancelFactor(0.0, a / b, b);
    CancelFactor(a / b, 1.0, b);
  }

  /** Falling to v from a higher peak is a larger relative fall. */
  lemma RelativeFallMonotone(low: real, high: real, v: real)
    requires 0.0 < low <= high && v >= 0.0
    ensures (low - v) / low <= (high - v) / high
  {
    var (p, q) := ((low - v) / low, (high - v) / high);
    QuotientTimes(low - v, low);
    QuotientTimes(high - v, high);
    assert (1.0 - q) * high == v;
    CancelFactor(0.0, 1.0 - q, high);
    ProductNonNegative(1.0 - q, high - low);
    assert (1.0 - q) * (high - low) == (1.0 - q) * high - (1.0 - q) * low;
    CancelFactor(p, q, low);
  }

  /** Falling below zero is a larger relative fall from a lower start. */
  lemma RelativeShortfallAntitone(low: real, high: real, v: real)
    requires 0.0 < low <= high && v < 0.0
    ensures (high - v) / high <= (low - v) / low
  {
    var (p, q) := ((low - v) / low, (high - v) / high);
    QuotientTimes(low - v, low);
    QuotientTimes(high - v, high);
    assert (p - 1.0) * low == -v;
    CancelFactor(0.0, p - 1.0, low);
    ProductNonNegative(p - 1.0, high - low);
    assert (p - 1.0) * (high - low) == (p - 1.0) * high - (p - 1.0) * low;
    CancelFactor(q, p, high);
  }

  lemma KeepsShare(amount: real, rate: real)
    requires amount >= 0.0 && rate <= 1.0
    ensures amount - amount * rate >= 0.0
  {
    ProductNonNegative(amount, 1.0 - rate);
    assert amount * (1.0 - rate) == amount - amount * rate;
  }
}
