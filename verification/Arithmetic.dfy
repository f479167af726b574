/** Quotients and remainders that the solver does not find by itself. */
module Arithmetic {

  lemma ModOfSum(q: nat, n: nat, r: nat)
    requires r < n
    ensures (q * n + r) % n == r
  {
    var x := q * n + r;
    var d, m := x / n, x % n;
    assert (q - d) * n == m - r by {
      assert x == d * n + m;
      assert (q - d) * n == q * n - d * n;
    }
    NonZeroMultiple(q - d, n);
  }

  /** A non-zero multiple of `n` is at least `n` away from zero. */
  lemma NonZeroMultiple(k: int, n: nat)
    ensures k >= 1 ==> k * n >= n
    ensures k <= -1 ==> k * n <= 0 - n
  {
    if k >= 1 {
      assert (k - 1) * n >= 0;
    } else {
      assert (-k - 1) * n >= 0 || k == 0;
    }
  }

  lemma QuotientIs(x: nat, d: nat, q: nat, r: nat)
    requires r < d && x == d * q + r
    ensures x / d == q && x % d == r
  {
    ModOfSum(q, d, r);
    assert d * (x / d) == d * q;
    assert d * (x / d - q) == 0;
  }
}
