/** Facts about products and quotients. */
module Arithmetic {
  lemma Monotone(a: nat, b: nat, c: nat)
    requires a <= b
    ensures a * c <= b * c
  {
    assert (b - a) * c >= 0;
  }

  lemma QuotientIs(n: nat, d: nat, q: nat, r: nat)
    requires d > 0 && n == q * d + r && r < d
    ensures q == n / d && r == n % d
  {
    var k := n / d;
    assert n == k * d + n % d;
    if q < k {
      Monotone(q + 1, k, d);
    } else if k < q {
      Monotone(k + 1, q, d);
    }
  }

  lemma Euclid(n: nat, d: nat)
    requires d > 0
    ensures n == n / d * d + n % d && n % d < d
  {
  }
}
