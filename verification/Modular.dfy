/** Remainders of products and sums. */
module Modular {
  lemma NoWrap(d: int, e: int)
    requires d > 0 && -d < d * e < d
    ensures e == 0
  {
    assert e >= 1 ==> d * e >= d;
    assert e <= -1 ==> d * e <= -d;
  }

  lemma MulDiv(q: int, d: int, r: int)
    requires d > 0 && 0 <= r < d
    ensures (q * d + r) / d == q && (q * d + r) % d == r
  {
    var n := q * d + r;
    assert n == d * (n / d) + n % d;
    assert d * (n / d - q) == r - n % d;
    NoWrap(d, n / d - q);
  }

  lemma SameRest(x: int, y: int, k: int, d: int)
    requires d > 0 && x == y + k * d
    ensures x % d == y % d
  {
    assert y == (y / d) * d + y % d;
    assert x == (y / d + k) * d + y % d;
    MulDiv(y / d + k, d, y % d);
  }

  lemma MulSameRest(x: int, y: int, a: int, d: int)
    requires d > 0 && x % d == y % d
    ensures (x * a) % d == (y * a) % d
  {
    var k := x / d - y / d;
    assert x == y + k * d;
    assert x * a == y * a + (k * a) * d by {
      assert (y + k * d) * a == y * a + (k * d) * a;
      assert (k * d) * a == (k * a) * d;
    }
    SameRest(x * a, y * a, k * a, d);
  }
}
