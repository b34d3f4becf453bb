/** Products, quotients and multiples of integers. */
module IntArithmetic {

  lemma ProductMonotone(a: int, b: int, d: int)
    requires a <= b && d >= 0
    ensures a * d <= b * d
  {
  }

  lemma CancelLess(a: int, b: int, d: int)
    requires d > 0 && a * d < b * d
    ensures a < b
  {
    if b <= a {
      ProductMonotone(b, a, d);
    }
  }

  lemma CancelEqual(a: int, b: int, d: int)
    requires d > 0 && a * d == b * d
    ensures a == b
  {
    NextProduct(a, d);
    NextProduct(b, d);
    CancelLess(a, b + 1, d);
    CancelLess(b, a + 1, d);
  }

  lemma NextProduct(a: int, d: int)
    ensures (a + 1) * d == a * d + d
  {
  }

  lemma MultipleOfProduct(n: int, d: int)
    requires d > 0
    ensures (n * d) % d == 0
  {
    var (q, r) := (n * d / d, n * d % d);
    assert n * d == q * d + r && 0 <= r < d;
    NextProduct(q, d);
    CancelLess(n, q + 1, d);
    NextProduct(n, d);
    CancelLess(q, n + 1, d);
  }

  lemma MultipleSum(x: int, y: int, d: int)
    requires d > 0 && x % d == 0 && y % d == 0
    ensures (x + y) % d == 0
  {
    assert x == (x / d) * d && y == (y / d) * d;
    assert x + y == (x / d + y / d) * d;
    MultipleOfProduct(x / d + y / d, d);
  }

  lemma MultipleMinus(x: int, y: int, d: int)
    requires d > 0 && x % d == 0 && y % d == 0
    ensures (x - y) % d == 0
  {
    assert x == (x / d) * d && y == (y / d) * d;
    assert x - y == (x / d - y / d) * d;
    MultipleOfProduct(x / d - y / d, d);
  }

  /** The next multiple after x is at least a whole divisor away. */
  lemma MultiplesApart(x: int, y: int, d: int)
    requires d > 0 && x % d == 0 && y % d == 0 && x < y
    ensures x + d <= y
  {
    MultipleMinus(y, x, d);
  }

  lemma MultipleOfMultiple(x: int, d: int, q: nat)
    requires d > 0 && d * q > 0 && x % (d * q) == 0
    ensures x % d == 0
  {
    var n := x / (d * q);
    assert x == n * (d * q) == (n * q) * d;
    MultipleOfProduct(n * q, d);
  }

  lemma NextMultiple(x: int, d: int)
    requires d > 0 && x % d == 0
    ensures (x + d) % d == 0
  {
    MultipleOfProduct(1, d);
    MultipleSum(x, d, d);
  }
}
