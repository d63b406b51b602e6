/** Facts about products and quotients that the solver should not rediscover in context. */
module Arithmetic {

  lemma {:induction false} MulMonotone(a: int, b: int, c: nat)
    requires a <= b
    ensures a * c <= b * c
  {
    if c > 0 {
      MulMonotone(a, b, c - 1);
      assert a * c == a * (c - 1) + a && b * c == b * (c - 1) + b;
    }
  }

  /** x / d <= q exactly when x < d * (q + 1). */
  lemma DivBound(x: nat, d: nat, q: nat)
    requires d >= 1
    ensures x / d <= q <==> x < d * (q + 1)
    ensures x / d * d <= x
  {
    var k := x / d;
    assert x == d * k + x % d;
    if k <= q { MulMonotone(k, q, d); } else { MulMonotone(q + 1, k, d); }
  }

  lemma DivAntitone(x: nat, d: nat, e: nat)
    requires 1 <= d <= e
    ensures x / e <= x / d
  {
    var q := x / d;
    DivBound(x, d, q);
    MulMonotone(d, e, q + 1);
    DivBound(x, e, q);
  }

  lemma CancelFactor(a: nat, b: nat, m: nat)
    requires m >= 1 && a * m <= b * m
    ensures a <= b
  {
    assert (b + 1) * m == b * m + m;
    if a > b { MulMonotone(b + 1, a, m); }
  }

  /** k rounds of s, where k covers m into w and s covers w into m * m, come to at most m. */
  lemma ProductChain(k: nat, s: nat, m: nat, w: nat)
    requires m >= 1 && k * m <= w && s * w <= m * m
    ensures k * s <= m
  {
    MulMonotone(k * m, w, s);
    assert (k * s) * m == (k * m) * s;
    assert w * s == s * w;
    CancelFactor(k * s, m, m);
  }

  /** Multiplication as repeated addition, for inductions that should stay linear. */
  function Times(k: nat, s: nat): nat
  {
    if k == 0 then 0 else Times(k - 1, s) + s
  }

  lemma {:induction false} TimesIsProduct(k: nat, s: nat)
    ensures Times(k, s) == k * s
  {
    if k > 0 {
      TimesIsProduct(k - 1, s);
      assert k * s == (k - 1) * s + s;
    }
  }

  lemma ProductNonNegative(x: real, y: real)
    requires x >= 0.0 && y >= 0.0
    ensures x * y >= 0.0
  {
  }

  lemma ScalingUp(x: real, p: real)
    requires x >= 0.0 && p >= 1.0
    ensures x * p >= x
  {
    ProductNonNegative(x, p - 1.0);
    assert x * (p - 1.0) == x * p - x;
  }
}
