/** Facts about multiplication and floor division that the linear solver does not find alone. */
module Arith {
  lemma MulSign(k: int, d: int)
    requires d > 0
    ensures k >= 1 ==> k * d >= d
    ensures k <= -1 ==> k * d <= -d
  {
  }

  lemma DivUnique(n: int, d: int, q: int, r: int)
    requires d > 0 && n == q * d + r && 0 <= r < d
    ensures n / d == q && n % d == r
  {
    var k := n / d - q;
    assert n == (n / d) * d + n % d;
    assert k * d == (n / d) * d - q * d;
    MulSign(k, d);
  }

  lemma DivMonotone(a: int, b: int, d: int)
    requires a <= b && d > 0
    ensures a / d <= b / d
  {
    var k := b / d - a / d;
    assert a == (a / d) * d + a % d && b == (b / d) * d + b % d;
    assert k * d == (b / d) * d - (a / d) * d;
    MulSign(k, d);
  }

  lemma MulDiv(a: int, d: int)
    requires d > 0
    ensures (a * d) / d == a
  {
    DivUnique(a * d, d, a, 0);
  }

  /** A floor quotient is below `k` exactly when the dividend is below `k` divisors. */
  lemma DivBelow(n: int, d: int, k: int)
    requires d > 0
    ensures n / d < k <==> n < k * d
  {
    assert n == (n / d) * d + n % d;
    assert (k - n / d) * d == k * d - (n / d) * d;
    MulSign(k - n / d, d);
    MulSign(n / d - k, d);
    assert (n / d - k) * d == (n / d) * d - k * d;
  }

  lemma MulMonotone(a: int, b: int, c: int)
    requires a <= b && c >= 0
    ensures a * c <= b * c
  {
  }

  /** A bigger divisor gives no bigger quotient. */
  lemma DivAntitone(n: nat, d: nat, e: nat)
    requires 0 < d <= e
    ensures n / e <= n / d
  {
    var k := n / e;
    assert n == k * e + n % e;
    MulMonotone(d, e, k);
    assert d * k <= n && k * d == d * k;
    DivMonotone(k * d, n, d);
    MulDiv(k, d);
  }
}
