/** Facts about products, quotients and remainders by a positive divisor
    that the solver does not find on its own. */
module Arithmetic {

  lemma {:induction false} MulAtLeast(d: int, n: int)
    requires d >= 1 && n >= 1
    ensures d * n >= n
    decreases d
  {
    if d > 1 {
      MulAtLeast(d - 1, n);
      assert d * n == (d - 1) * n + n;
    }
  }

  /** Multiplying by a positive `n` keeps order, and distinct multiples of
      `n` lie at least `n` apart. */
  lemma MulOrder(p: int, q: int, n: int)
    requires n >= 1
    ensures p < q <==> p * n < q * n
    ensures p < q ==> p * n + n <= q * n
  {
    if p < q {
      MulAtLeast(q - p, n);
      assert q * n - p * n == (q - p) * n;
    } else if p > q {
      MulAtLeast(p - q, n);
      assert p * n - q * n == (p - q) * n;
    }
  }

  /** `y == q * n + r` with `0 <= r < n` determines quotient and remainder. */
  lemma DivModUnique(y: int, n: int, q: int, r: int)
    requires n >= 1 && y == q * n + r && 0 <= r < n
    ensures y / n == q && y % n == r
  {
    var q', r' := y / n, y % n;
    assert y == q' * n + r' && 0 <= r' < n;
    assert (q - q') * n == r' - r;
    if q > q' {
      MulAtLeast(q - q', n);
    } else if q < q' {
      MulAtLeast(q' - q, n);
    }
  }

  lemma MultipleOf(k: int, n: int)
    requires n >= 1
    ensures (k * n) % n == 0
  {
    DivModUnique(k * n, n, k, 0);
  }

  /** A multiple of `n` is `n` times its quotient. */
  lemma MultipleIsProduct(x: int, n: int)
    requires n >= 1 && x % n == 0
    ensures x == (x / n) * n
  {
  }

  lemma NonNegMul(a: real, b: real)
    requires a >= 0.0 && b >= 0.0
    ensures a * b >= 0.0
  {
  }

  lemma PosMul(a: real, b: real)
    requires a > 0.0 && b > 0.0
    ensures a * b > 0.0
  {
  }

  /** Scaling by a non-negative factor keeps order. */
  lemma ScaleMonotone(a: real, b: real, f: real)
    requires a <= b && f >= 0.0
    ensures a * f <= b * f
  {
    NonNegMul(b - a, f);
    assert (b - a) * f == b * f - a * f;
  }

  /** Dividing by a non-zero factor and multiplying back is the identity. */
  lemma DivMulCancel(t: real, f: real)
    requires f != 0.0
    ensures t / f * f == t
  {
  }
}
