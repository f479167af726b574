/** Named arithmetic on the reals. A product under a name is a term of its own, so that
    equal arguments give equal terms wherever it occurs. */
module Reals {

  function Times(x: real, y: real): real { x * y }

  function Square(x: real): real { Times(x, x) }

  function Over(x: real, y: real): real
    requires y != 0.0
  {
    x / y
  }

  /** `sqrt` stands for the C library's square root, exact on the reals. */
  ghost predicate IsSqrt(sqrt: real -> real) {
    forall x: real :: x >= 0.0 ==> sqrt(x) >= 0.0 && Square(sqrt(x)) == x
  }

  /** The coefficient of a projection: an inner product over a squared norm. */
  function PerSquare(p: real, rms: real): real
    requires rms != 0.0
  {
    p / (rms * rms)
  }

  lemma SquareSign(x: real)
    ensures Square(x) >= 0.0
    ensures x != 0.0 ==> Square(x) > 0.0
  {
    if x > 0.0 {
      TimesPositive(x, x);
    } else if x < 0.0 {
      TimesPositive(-x, -x);
      assert Times(-x, -x) == Times(x, x);
    }
  }

  lemma TimesPositive(x: real, y: real)
    requires x > 0.0 && y > 0.0
    ensures Times(x, y) > 0.0
  {
  }

  lemma TimesDistributes(a: real, x: real, y: real)
    ensures Times(a, x + y) == Times(a, x) + Times(a, y)
  {
  }

  lemma SquareOfProduct(x: real, y: real)
    ensures Square(Times(x, y)) == Times(Square(x), Square(y))
  {
  }

  lemma ZeroFactor(g: real, s: real)
    requires g > 0.0 && Times(g, s) == 0.0
    ensures s == 0.0
  {
  }
}

/** Finite sums of real sequences, the common ground of the moving averages and
    of the power identities. */
module Sums {
  import opened Reals

  /** The sum of `s[lo..hi]`. */
  function Sum(s: seq<real>, lo: nat, hi: nat): real
    requires lo <= hi <= |s|
    decreases hi
  {
    if lo == hi then 0.0 else Sum(s, lo, hi - 1) + s[hi - 1]
  }

  /** The sum of the last `n` elements, or of all of them when there are fewer. */
  function LastSum(s: seq<real>, n: nat): real {
    Sum(s, if |s| <= n then 0 else |s| - n, |s|)
  }

  lemma {:induction false} SumFirst(s: seq<real>, lo: nat, hi: nat)
    requires lo < hi <= |s|
    ensures Sum(s, lo, hi) == s[lo] + Sum(s, lo + 1, hi)
    decreases hi
  {
    if lo + 1 < hi {
      SumFirst(s, lo, hi - 1);
    }
  }

  /** A sum depends only on the elements in its range. */
  lemma {:induction false} SumCongruent(s: seq<real>, t: seq<real>, lo: nat, hi: nat, shift: int)
    requires lo <= hi <= |s|
    requires 0 <= lo + shift && hi + shift <= |t|
    requires forall k :: lo <= k < hi ==> s[k] == t[k + shift]
    ensures Sum(s, lo, hi) == Sum(t, lo + shift, hi + shift)
    decreases hi
  {
    if lo < hi {
      SumCongruent(s, t, lo, hi - 1, shift);
    }
  }

  lemma {:induction false} SumSplit(s: seq<real>, lo: nat, mid: nat, hi: nat)
    requires lo <= mid <= hi <= |s|
    ensures Sum(s, lo, hi) == Sum(s, lo, mid) + Sum(s, mid, hi)
    decreases hi
  {
    if mid < hi {
      SumSplit(s, lo, mid, hi - 1);
    }
  }

  lemma {:induction false} SumAllZero(s: seq<real>, lo: nat, hi: nat)
    requires lo <= hi <= |s|
    requires forall k :: lo <= k < hi ==> s[k] == 0.0
    ensures Sum(s, lo, hi) == 0.0
    decreases hi
  {
    if lo < hi {
      SumAllZero(s, lo, hi - 1);
    }
  }

  /** A sum of non-negative terms is non-negative, and zero only when every term is. */
  lemma {:induction false} SumNonNegative(s: seq<real>, lo: nat, hi: nat)
    requires lo <= hi <= |s|
    requires forall k :: lo <= k < hi ==> s[k] >= 0.0
    ensures Sum(s, lo, hi) >= 0.0
    ensures Sum(s, lo, hi) == 0.0 ==> forall k :: lo <= k < hi ==> s[k] == 0.0
    decreases hi
  {
    if lo < hi {
      SumNonNegative(s, lo, hi - 1);
    }
  }

  /** A combination of up to six sequences. */
  datatype Mix = Mix(a: real, p: seq<real>, b: real, q: seq<real>, c: real, r: seq<real>,
                     d: real, s: seq<real>, e: real, t: seq<real>, f: real, u: seq<real>) {
    predicate Long(n: nat) {
      n == |p| == |q| == |r| == |s| == |t| == |u|
    }

    function At(k: nat): real
      requires Long(|p|) && k < |p|
    {
      Times(a, p[k]) + Times(b, q[k]) + Times(c, r[k]) + Times(d, s[k]) + Times(e, t[k]) + Times(f, u[k])
    }
  }

  function Mix3(a: real, p: seq<real>, b: real, q: seq<real>, c: real, r: seq<real>): Mix {
    Mix(a, p, b, q, c, r, 0.0, p, 0.0, p, 0.0, p)
  }

  ghost predicate MixedAt(z: seq<real>, m: Mix, k: nat)
    requires m.Long(|z|) && k < |z|
  {
    z[k] == m.At(k)
  }

  /** Over `[lo, hi)` the sequence `z` is pointwise the combination `m`. */
  ghost predicate Mixed(z: seq<real>, m: Mix, lo: nat, hi: nat) {
    && m.Long(|z|) && hi <= |z|
    && forall k: nat :: lo <= k < hi ==> MixedAt(z, m, k)
  }

  /** Sums are linear. */
  lemma {:induction false} SumLinear(z: seq<real>, m: Mix, lo: nat, hi: nat)
    requires lo <= hi && Mixed(z, m, lo, hi)
    ensures Sum(z, lo, hi) == Times(m.a, Sum(m.p, lo, hi)) + Times(m.b, Sum(m.q, lo, hi)) + Times(m.c, Sum(m.r, lo, hi))
                              + Times(m.d, Sum(m.s, lo, hi)) + Times(m.e, Sum(m.t, lo, hi)) + Times(m.f, Sum(m.u,
                                  lo, hi))
    decreases hi
  {
    if lo < hi {
      SumLinear(z, m, lo, hi - 1);
      assert MixedAt(z, m, hi - 1);
      TimesDistributes(m.a, Sum(m.p, lo, hi - 1), m.p[hi - 1]);
      TimesDistributes(m.b, Sum(m.q, lo, hi - 1), m.q[hi - 1]);
      TimesDistributes(m.c, Sum(m.r, lo, hi - 1), m.r[hi - 1]);
      TimesDistributes(m.d, Sum(m.s, lo, hi - 1), m.s[hi - 1]);
      TimesDistributes(m.e, Sum(m.t, lo, hi - 1), m.t[hi - 1]);
      TimesDistributes(m.f, Sum(m.u, lo, hi - 1), m.u[hi - 1]);
    }
  }

  /** Extending a sequence leaves the sums over its prefix alone. */
  lemma SumOfPrefix(s: seq<real>, m: nat, lo: nat, hi: nat)
    requires lo <= hi <= m <= |s|
    ensures Sum(s[..m], lo, hi) == Sum(s, lo, hi)
  {
    SumCongruent(s[..m], s, lo, hi, 0);
  }

  /** Sliding a full window one step: the newest element enters, the oldest leaves. */
  lemma LastSumStep(h: seq<real>, x: real, n: nat)
    requires 0 < n
    ensures LastSum(h + [x], n) == LastSum(h, n) - (if |h| < n then 0.0 else h[|h| - n]) + x
  {
    var g := h + [x];
    assert g[..|h|] == h;
    var lo := if |g| <= n then 0 else |g| - n;
    SumOfPrefix(g, |h|, lo, |h|);
    if |h| >= n {
      SumFirst(h, |h| - n, |h|);
    }
  }

  ghost predicate Repeats(s: seq<real>, n: nat, k: nat)
    requires k + n < |s|
  {
    s[k + n] == s[k]
  }

  /** From index `from` on, `s` has period `n`. */
  ghost predicate Periodic(s: seq<real>, n: nat, from: nat) {
    forall k: nat :: from <= k && k + n < |s| ==> Repeats(s, n, k)
  }

  /** A periodic sequence has the same sum over every window of one period. */
  lemma {:induction false} PeriodicWindow(s: seq<real>, n: nat, from: nat, a: nat, b: nat)
    requires 0 < n && from <= a <= b && b + n <= |s| && Periodic(s, n, from)
    ensures Sum(s, a, a + n) == Sum(s, b, b + n)
    decreases b
  {
    if a < b {
      PeriodicWindow(s, n, from, a, b - 1);
      SumFirst(s, b - 1, b + n - 1);
      assert Repeats(s, n, b - 1);
    }
  }
}
