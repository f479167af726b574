/** How large the reported attributes can get: for samples of a limited range and resolution,
    as a converter gives them, every attribute stays below a fixed bound in every run. */
module Bounds {
  import opened Reals
  import opened Sums
  import opened MovingAverage
  import opened CPTState
  import opened CPTFormulas
  import opened CPTRun
  import opened SteadyState
  import opened Decomposition
  import opened PowerIdentity
  import opened PowerFactor
  import Message
  import Meter

  // Volts or amperes: the largest sample, and the smallest one that is not zero.
  const LARGEST := 300.0
  const SMALLEST := 0.000001

  predicate Within(x: real, b: real) {
    -b <= x <= b
  }

  /** A value in the range of the converter, and not finer than its resolution. */
  predicate IsReading(x: real) {
    Within(x, LARGEST) && (x == 0.0 || x <= -SMALLEST || SMALLEST <= x)
  }

  ghost predicate AreReadings(x: seq<Sample>) {
    forall t: nat :: t < |x| ==> ReadingAt(x, t)
  }

  ghost predicate ReadingAt(x: seq<Sample>, t: nat)
    requires t < |x|
  {
    forall k :: 0 <= k < 3 ==> IsReading(x[t].V[k]) && IsReading(x[t].I[k])
  }

  // ---------------------------------------------------------------- sums and means

  /** Where the last window of a history starts. */
  function From(h: seq<real>, n: nat): nat {
    if |h| <= n then 0 else |h| - n
  }

  lemma OneMore(n: nat, b: real)
    ensures (n + 1) as real * b == n as real * b + b
  {
  }

  lemma {:induction false} SumWithin(s: seq<real>, lo: nat, hi: nat, b: real)
    requires lo <= hi <= |s| && forall k :: lo <= k < hi ==> Within(s[k], b)
    ensures Within(Sum(s, lo, hi), (hi - lo) as real * b)
    decreases hi
  {
    if lo < hi {
      SumWithin(s, lo, hi - 1, b);
      OneMore(hi - 1 - lo, b);
    }
  }

  /** A mean over a window is within the bound of its elements. */
  lemma MeanWithin(s: seq<real>, n: nat, b: real)
    requires 0 < n && b >= 0.0 && forall k: nat :: From(s, n) <= k < |s| ==> Within(s[k], b)
    ensures Within(WindowMean(s, n), b)
  {
    var count := |s| - From(s, n);
    SumWithin(s, From(s, n), |s|, b);
    assert count as real * b <= n as real * b;
    QuotientWithin(LastSum(s, n), n as real, b);
  }

  lemma QuotientWithin(x: real, d: real, b: real)
    requires d > 0.0 && Within(x, d * b)
    ensures Within(x / d, b)
  {
    assert x / d * d == x;
  }

  lemma {:induction false} SumAtLeast(s: seq<real>, lo: nat, hi: nat, j: nat)
    requires lo <= j < hi <= |s| && forall k :: lo <= k < hi ==> s[k] >= 0.0
    ensures Sum(s, lo, hi) >= s[j]
    decreases hi
  {
    if j < hi - 1 {
      SumAtLeast(s, lo, hi - 1, j);
    } else {
      SumNonNegative(s, lo, hi - 1);
    }
  }

  /** No element of a window of squares is larger than their mean times their number. */
  lemma ElementAtMost(s: seq<real>, n: nat, j: nat)
    requires 0 < n && From(s, n) <= j < |s| && forall k :: 0 <= k < |s| ==> s[k] >= 0.0
    ensures s[j] <= n as real * WindowMean(s, n)
  {
    SumAtLeast(s, From(s, n), |s|, j);
    assert n as real * (LastSum(s, n) / n as real) == LastSum(s, n);
  }

  lemma RootWithin(x: real, b: real)
    requires b > 0.0 && Square(x) <= Square(b)
    ensures Within(x, b)
  {
    Ordered(x, b);
    assert Square(-x) == Square(x);
    Ordered(-x, b);
  }

  /** A signal in a window is at most the window's length times the root of its mean square. */
  lemma SignalWithin(h: seq<real>, s: seq<real>, n: nat, r: real, j: nat)
    requires 0 < n && r > 0.0 && |h| == |s| && WindowMean(h, n) <= Square(r)
    requires forall k :: 0 <= k < |h| ==> h[k] == Square(s[k])
    requires From(h, n) <= j < |h|
    ensures Within(s[j], Peak(n as real, r))
  {
    forall k | 0 <= k < |h|
      ensures h[k] >= 0.0
    {
      SquareSign(s[k]);
    }
    ElementAtMost(h, n, j);
    CountTimes(n as real, WindowMean(h, n), r);
    RootWithin(s[j], Peak(n as real, r));
  }

  /** The most that a signal of root mean square `r` can be within `n` samples, roughly. */
  function Peak(n: real, r: real): real {
    n * r
  }

  lemma CountTimes(n: real, m: real, r: real)
    requires n >= 1.0 && r > 0.0 && m <= Square(r)
    ensures n * m <= Square(Peak(n, r)) && Peak(n, r) > 0.0
  {
    var q := Square(r);
    SquareSign(r);
    TimesSign(n, q - m);
    TimesSign(n - 1.0, n * q);
    assert n * m <= n * q <= n * (n * q);
    assert Square(n * r) == n * (n * q);
    TimesPositive(n, r);
  }

  lemma ProductWithin(x: real, y: real, a: real, b: real)
    requires Within(x, a) && Within(y, b)
    ensures Within(Times(x, y), a * b)
  {
    if x >= 0.0 {
      TimesSign(a - x, b);
      TimesSign(x, b - y);
      TimesSign(x, b + y);
      assert a * b - x * y == (a - x) * b + x * (b - y);
      assert a * b + x * y == (a - x) * b + x * (b + y);
    } else {
      TimesSign(a + x, b);
      TimesSign(-x, b - y);
      TimesSign(-x, b + y);
      assert a * b - x * y == (a + x) * b + -x * (b + y);
      assert a * b + x * y == (a + x) * b + -x * (b - y);
    }
  }

  /** A mean product is at most the window's length times the root mean square of the one and
      the bound of the other. */
  lemma MeanProductWithin(p: seq<real>, h: seq<real>, s: seq<real>, i: seq<real>, n: nat, r: real)
    requires 0 < n && r > 0.0 && |p| == |h| == |s| == |i| && WindowMean(h, n) <= Square(r)
    requires forall k :: 0 <= k < |h| ==> h[k] == Square(s[k]) && p[k] == Times(s[k], i[k])
    requires forall k :: 0 <= k < |i| ==> Within(i[k], LARGEST)
    ensures Within(WindowMean(p, n), Peak(n as real, r) * LARGEST)
  {
    forall k: nat | From(p, n) <= k < |p|
      ensures Within(p[k], Peak(n as real, r) * LARGEST)
    {
      SignalWithin(h, s, n, r, k);
      ProductWithin(s[k], i[k], Peak(n as real, r), LARGEST);
    }
    assert Peak(n as real, r) > 0.0;
    MeanWithin(p, n, Peak(n as real, r) * LARGEST);
  }

  // ---------------------------------------------------------------- the parts of a current

  /** A mean power over a mean square, times a signal of that mean square: `f` is the floor that
      the power may have been raised to, `g` the number of phases that it was added up over. */
  lemma PartWithin(p: real, d: real, r: real, s: real, n: real, f: real, g: real, b: real)
    requires b == f / SMALLEST + g * LARGEST
    requires n >= 1.0 && r > 0.0 && d == Square(r) && f >= 0.0 && g >= 0.0
    requires Within(p, f + g * (Peak(n, r) * LARGEST)) && Within(s, Peak(n, r))
    requires f == 0.0 || s == 0.0 || s <= -SMALLEST || SMALLEST <= s
    ensures d > 0.0 && Within(Times(p / d, s), Square(n) * b)
  {
    SquareSign(r);
    if s == 0.0 {
      assert Times(p / d, s) == 0.0;
      SquareSign(n);
      TimesSign(Square(n), b);
    } else {
      var y, z := s / r, p / r;
      assert Times(p / d, s) == Times(z, y) by {
        QuotientOfSquare(p, r, s);
      }
      QuotientWithin(s, r, n);
      FloorOverRoot(p, r, s, n, f, g, b);
      ScaledProduct(z, y, n, b);
    }
  }

  lemma ScaledProduct(z: real, y: real, n: real, b: real)
    requires Within(z, n * b) && Within(y, n)
    ensures Within(Times(z, y), Square(n) * b)
  {
    var c := n * b;
    ProductWithin(z, y, c, n);
    assert Square(n) * b == c * n;
  }

  lemma TimesSign(x: real, y: real)
    requires x >= 0.0 && y >= 0.0
    ensures x * y >= 0.0
  {
  }

  lemma QuotientOfSquare(p: real, r: real, s: real)
    requires r > 0.0 && Square(r) > 0.0
    ensures Times(p / Square(r), s) == Times(p / r, s / r)
  {
    assert p / Square(r) == p / r / r;
  }

  lemma FloorOverRoot(p: real, r: real, s: real, n: real, f: real, g: real, b: real)
    requires n >= 1.0 && r > 0.0 && f >= 0.0 && g >= 0.0
    requires Within(p, f + g * (Peak(n, r) * LARGEST)) && Within(s, Peak(n, r))
    requires f == 0.0 || s <= -SMALLEST || SMALLEST <= s
    requires b == f / SMALLEST + g * LARGEST
    ensures Within(p / r, n * b)
  {
    assert f <= n * (f / SMALLEST) * r by {
      if f > 0.0 {
        assert SMALLEST <= n * r;
        assert f / SMALLEST * SMALLEST == f;
        assert f / SMALLEST * SMALLEST <= f / SMALLEST * (n * r);
      }
    }
    assert n * b == n * (f / SMALLEST) + g * n * LARGEST;
    QuotientWithin(p, r, n * b);
  }

  // ---------------------------------------------------------------- one state of a run

  function Count(cfg: Config): real {
    cfg.samples as real
  }

  /** The bound of the instantaneous currents. */
  function PartBound(cfg: Config): real {
    Square(Count(cfg)) * 1200.0
  }

  lemma ReadingsOfPhase(x: seq<Sample>, k: nat)
    requires AreReadings(x) && k < 3
    ensures forall t: nat :: t < |x| ==> IsReading(Voltages(x, k)[t]) && IsReading(CurrentsOf(x, k)[t])
  {
    forall t: nat | t < |x|
      ensures IsReading(Voltages(x, k)[t]) && IsReading(CurrentsOf(x, k)[t])
    {
      assert ReadingAt(x, t);
    }
  }

  /** A mean product and the last value of a signal, against a root of its mean square. */
  lemma SignalMeans(p: seq<real>, h: seq<real>, s: seq<real>, i: seq<real>, n: nat, r: real)
    requires 0 < n && r > 0.0 && |p| == |h| == |s| == |i| > 0 && WindowMean(h, n) <= Square(r)
    requires forall k :: 0 <= k < |h| ==> h[k] == Square(s[k]) && p[k] == Times(s[k], i[k])
    requires forall k :: 0 <= k < |i| ==> Within(i[k], LARGEST)
    ensures Within(WindowMean(p, n), Peak(n as real, r) * LARGEST) && Within(s[|s| - 1], Peak(n as real, r))
  {
    MeanProductWithin(p, h, s, i, n, r);
    SignalWithin(h, s, n, r, |s| - 1);
  }

  /** The mean powers and the last samples of a phase, against roots of its mean squares. */
  lemma PhaseMeans(c: PhaseCore, v: seq<real>, i: seq<real>, u: seq<real>, r: real, s: real, cfg: Config)
    requires cfg.Valid() && Signals(c, v, i, u, cfg) && v != [] && r > 0.0 && s > 0.0
    requires forall t :: 0 <= t < |v| ==> Within(i[t], LARGEST)
    requires NormsOf(c, cfg.samples).vv <= Square(r) && NormsOf(c, cfg.samples).uu <= Square(s)
    ensures var m, n := NormsOf(c, cfg.samples), Count(cfg);
            && Within(m.vi, Peak(n, r) * LARGEST) && Within(m.ui, Peak(n, s) * LARGEST)
            && Within(v[|v| - 1], Peak(n, r)) && Within(u[|v| - 1], Peak(n, s))
  {
    forall t: nat | t < |v|
      ensures c.v[t] == Square(v[t]) && c.p[t] == Times(v[t], i[t])
      ensures c.ui[t] == Square(u[t]) && c.w[t] == Times(u[t], i[t])
    {
      assert SignalAt(c, v, i, u, t, cfg);
    }
    SignalMeans(c.p, c.v, v, i, cfg.samples, r);
    SignalMeans(c.w, c.ui, u, i, cfg.samples, s);
  }

  lemma RunMeans(states: seq<CPTValue>, x: seq<Sample>, k: nat, r: real, s: real, cfg: Config)
    requires cfg.Valid() && IsRun(states, x, cfg) && AreReadings(x) && x != [] && k < 3 && r > 0.0 && s > 0.0
    requires NormsOf(Phase(states[|x|], k).core, cfg.samples).vv <= Square(r)
    requires NormsOf(Phase(states[|x|], k).core, cfg.samples).uu <= Square(s)
    ensures var q, n := Phase(states[|x|], k), Count(cfg);
            var m := NormsOf(q.core, cfg.samples);
            && Within(m.vi, Peak(n, r) * LARGEST) && Within(m.ui, Peak(n, s) * LARGEST)
            && Within(x[|x| - 1].V[k], Peak(n, r)) && Within(q.m.unbiased, Peak(n, s))
  {
    RunSignals(states, x, k, cfg);
    ReadingsOfPhase(x, k);
    PhaseMeans(Phase(states[|x|], k).core, Voltages(x, k), CurrentsOf(x, k), Unbiased(states, k), r, s, cfg);
  }

  lemma AtLeastOne(n: real)
    requires n >= 1.0
    ensures Square(n) >= 1.0
  {
  }

  /** The parts of the current of a phase that are its own. */
  lemma OwnPartsOf(m: Norms, v: real, i: real, u: real, r: real, s: real, n: real)
    requires n >= 1.0 && Consistent(m) && r > 0.0 && s > 0.0
    requires Square(r) == Thr(m.vv) && Square(s) == Thr(m.uu)
    requires Within(m.vi, Peak(n, r) * LARGEST) && Within(m.ui, Peak(n, s) * LARGEST)
    requires Within(v, Peak(n, r)) && Within(u, Peak(n, s)) && IsReading(v) && IsReading(i)
    ensures var ia, ir := Times(Alpha(m), v), Times(Beta(m), u);
            Within(ia, Square(n) * 310.0) && Within(ir, Square(n) * 300.0) && Within(i - ia - ir, Square(n) * 1200.0)
  {
    PartWithin(AtLeastFloor(m.vi), Thr(m.vv), r, v, n, FLOOR, 1.0, 310.0);
    PartWithin(m.ui, Thr(m.uu), s, u, n, 0.0, 1.0, 300.0);
    AtLeastOne(n);
  }

  lemma OwnParts(states: seq<CPTValue>, x: seq<Sample>, k: nat, cfg: Config)
    requires cfg.Valid() && IsRun(states, x, cfg) && AreReadings(x) && x != [] && k < 3
    ensures Within(Phase(states[|x|], k).c.iv, PartBound(cfg))
  {
    var q := Phase(states[|x|], k);
    var m := NormsOf(q.core, cfg.samples);
    var r, s := cfg.sqrt(Thr(m.vv)), cfg.sqrt(Thr(m.uu));
    PhaseIsConsistent(states, x, k, cfg);
    RootIsPositive(Thr(m.vv), cfg);
    RootIsPositive(Thr(m.uu), cfg);
    RunMeans(states, x, k, r, s, cfg);
    LastReading(x, k);
    OwnPartsOf(m, x[|x| - 1].V[k], x[|x| - 1].I[k], q.m.unbiased, r, s, Count(cfg));
    OwnCurrents(states, x, k, cfg);
  }

  lemma LastReading(x: seq<Sample>, k: nat)
    requires AreReadings(x) && x != [] && k < 3
    ensures IsReading(x[|x| - 1].V[k]) && IsReading(x[|x| - 1].I[k])
  {
    assert ReadingAt(x, |x| - 1);
  }

  lemma PhaseIsConsistent(states: seq<CPTValue>, x: seq<Sample>, k: nat, cfg: Config)
    requires cfg.Valid() && IsRun(states, x, cfg) && k < 3
    ensures Consistent(NormsOf(Phase(states[|x|], k).core, cfg.samples))
  {
    RunIsConsistent(states, x, cfg);
  }

  lemma OwnCurrents(states: seq<CPTValue>, x: seq<Sample>, k: nat, cfg: Config)
    requires cfg.Valid() && IsRun(states, x, cfg) && x != [] && k < 3
    ensures var q, m := Phase(states[|x|], k), NormsOf(Phase(states[|x|], k).core, cfg.samples);
            q.c.iv == x[|x| - 1].I[k] - Times(Alpha(m), x[|x| - 1].V[k]) - Times(Beta(m), q.m.unbiased)
  {
    RunInputs(states, x, |x| - 1, k, cfg);
    PhaseCoefficients(states, x, k, cfg);
  }

  /** The balanced parts of the current of a phase. */
  lemma BalancedPartsOf(t: Three, v: real, u: real, r: real, s: real, n: real)
    requires n >= 1.0 && t.Ok() && r > 0.0 && s > 0.0
    requires Square(r) == Thr(t.VV()) && Square(s) == Thr(t.UU())
    requires Within(t.x.vi, Peak(n, r) * LARGEST) && Within(t.x.ui, Peak(n, s) * LARGEST)
    requires Within(t.y.vi, Peak(n, r) * LARGEST) && Within(t.y.ui, Peak(n, s) * LARGEST)
    requires Within(t.z.vi, Peak(n, r) * LARGEST) && Within(t.z.ui, Peak(n, s) * LARGEST)
    requires Within(v, Peak(n, r)) && Within(u, Peak(n, s)) && IsReading(v)
    ensures Within(Times(t.A(), v), Square(n) * 930.0) && Within(Times(t.B(), u), Square(n) * 900.0)
  {
    PartWithin(t.P(), Thr(t.VV()), r, v, n, 3.0 * FLOOR, 3.0, 930.0);
    PartWithin(t.W(), Thr(t.UU()), s, u, n, 0.0, 3.0, 900.0);
  }

  lemma BalancedCurrents(states: seq<CPTValue>, x: seq<Sample>, k: nat, cfg: Config)
    requires cfg.Valid() && IsRun(states, x, cfg) && x != [] && k < 3
    ensures var q, t := Phase(states[|x|], k), ThreeOf(states[|x|], cfg.samples);
            q.c.iba == Times(t.A(), x[|x| - 1].V[k]) && q.c.ibr == Times(t.B(), q.m.unbiased)
  {
    RunInputs(states, x, |x| - 1, k, cfg);
    SharedCoefficients(states, x, cfg);
  }

  lemma ThreeNorms(r: CPTValue, n: nat, k: nat)
    requires 0 < n && k < 3 && ThreeOf(r, n).Ok()
    ensures var t, m := ThreeOf(r, n), NormsOf(Phase(r, k).core, n);
            && m.vv <= t.VV() && m.uu <= t.UU()
            && m == (if k == 0 then t.x else if k == 1 then t.y else t.z)
  {
  }

  lemma BalancedMeans(states: seq<CPTValue>, x: seq<Sample>, k: nat, r: real, s: real, cfg: Config)
    requires cfg.Valid() && IsRun(states, x, cfg) && AreReadings(x) && x != [] && k < 3 && r > 0.0 && s > 0.0
    requires var t := ThreeOf(states[|x|], cfg.samples); Square(r) == Thr(t.VV()) && Square(s) == Thr(t.UU())
    ensures var q, n, t := Phase(states[|x|], k), Count(cfg), ThreeOf(states[|x|], cfg.samples);
            var m := if k == 0 then t.x else if k == 1 then t.y else t.z;
            && Within(m.vi, Peak(n, r) * LARGEST) && Within(m.ui, Peak(n, s) * LARGEST)
            && Within(x[|x| - 1].V[k], Peak(n, r)) && Within(q.m.unbiased, Peak(n, s))
  {
    RunIsConsistent(states, x, cfg);
    ThreeNorms(states[|x|], cfg.samples, k);
    RunMeans(states, x, k, r, s, cfg);
  }

  lemma BalancedParts(states: seq<CPTValue>, x: seq<Sample>, k: nat, cfg: Config)
    requires cfg.Valid() && IsRun(states, x, cfg) && AreReadings(x) && x != [] && k < 3
    ensures Within(Phase(states[|x|], k).c.iba, PartBound(cfg)) && Within(Phase(states[|x|], k).c.ibr, PartBound(cfg))
  {
    var q, t := Phase(states[|x|], k), ThreeOf(states[|x|], cfg.samples);
    var r, s := cfg.sqrt(Thr(t.VV())), cfg.sqrt(Thr(t.UU()));
    RunIsConsistent(states, x, cfg);
    RootIsPositive(Thr(t.VV()), cfg);
    RootIsPositive(Thr(t.UU()), cfg);
    BalancedMeans(states, x, 0, r, s, cfg);
    BalancedMeans(states, x, 1, r, s, cfg);
    BalancedMeans(states, x, 2, r, s, cfg);
    LastReading(x, k);
    BalancedPartsOf(t, x[|x| - 1].V[k], q.m.unbiased, r, s, Count(cfg));
    BalancedCurrents(states, x, k, cfg);
    AtLeastOne(Count(cfg));
  }

  // ---------------------------------------------------------------- every state of a run

  /** The first samples of a run make a run. */
  lemma RunOfPrefix(states: seq<CPTValue>, x: seq<Sample>, n: nat, cfg: Config)
    requires cfg.Valid() && IsRun(states, x, cfg) && n <= |x|
    ensures IsRun(states[..n + 1], x[..n], cfg)
    ensures AreReadings(x) ==> AreReadings(x[..n])
  {
    var first, y := states[..n + 1], x[..n];
    forall t: nat | t < n
      ensures StepAt(first, y, t, cfg)
    {
      assert StepAt(states, x, t, cfg);
    }
    if AreReadings(x) {
      forall t: nat | t < n
        ensures ReadingAt(y, t)
      {
        assert ReadingAt(x, t);
      }
    }
  }

  lemma PartsAt(states: seq<CPTValue>, x: seq<Sample>, t: nat, k: nat, cfg: Config)
    requires cfg.Valid() && IsRun(states, x, cfg) && AreReadings(x) && t < |x| && k < 3
    ensures var c, b := Phase(states[t + 1], k).c, PartBound(cfg);
            Within(c.iba, b) && Within(c.ibr, b) && Within(c.iv, b)
  {
    RunOfPrefix(states, x, t + 1, cfg);
    OwnParts(states[..t + 2], x[..t + 1], k, cfg);
    BalancedParts(states[..t + 2], x[..t + 1], k, cfg);
  }

  lemma SquareWithin(x: real, b: real)
    requires b >= 0.0 && Within(x, b)
    ensures 0.0 <= Square(x) <= Square(b)
  {
    SquareSign(x);
    assert Square(b) - Square(x) == Times(b - x, b + x);
    TimesSign(b - x, b + x);
  }

  lemma RmsWithin(h: seq<real>, b: real, cfg: Config)
    requires cfg.Valid() && b >= 1.0 && forall k: nat :: k < |h| ==> 0.0 <= h[k] <= Square(b)
    ensures 0.0 < Rms(h, cfg) <= b
  {
    AtLeastOne(b);
    MeanWithin(h, cfg.samples, Square(b));
    RootWithin(Rms(h, cfg), b);
  }

  /** The histories of the filters of a phase are squares within their bounds. */
  lemma HistoryAt(states: seq<CPTValue>, x: seq<Sample>, t: nat, k: nat, cfg: Config)
    requires cfg.Valid() && IsRun(states, x, cfg) && AreReadings(x) && t < |x| && k < 3
    requires Full(Phase(states[|x|], k).core, |x|)
    ensures var c, b := Phase(states[|x|], k).core, PartBound(cfg);
            && 0.0 <= c.iba[t] <= Square(b) && 0.0 <= c.ibr[t] <= Square(b) && 0.0 <= c.iv[t] <= Square(b)
            && 0.0 <= c.v[t] <= Square(LARGEST) && 0.0 <= c.i[t] <= Square(LARGEST)
            && Within(c.p[t], LARGEST * LARGEST)
  {
    var q, b := Phase(states[t + 1], k).c, PartBound(cfg);
    PartsAt(states, x, t, k, cfg);
    RunInputs(states, x, t, k, cfg);
    assert ReadingAt(x, t);
    AtLeastOne(Count(cfg));
    SquareWithin(q.iba, b);
    SquareWithin(q.ibr, b);
    SquareWithin(q.iv, b);
    SquareWithin(x[t].V[k], LARGEST);
    SquareWithin(x[t].I[k], LARGEST);
    ProductWithin(x[t].V[k], x[t].I[k], LARGEST, LARGEST);
  }

  lemma LastFormulas(states: seq<CPTValue>, x: seq<Sample>, k: nat, cfg: Config)
    requires cfg.Valid() && IsRun(states, x, cfg) && x != [] && k < 3
    ensures var q := Phase(states[|x|], k);
            && Full(q.core, |x|)
            && q.m.vRms == Rms(q.core.v, cfg) && q.m.iRms == Rms(q.core.i, cfg)
            && q.m.pAvg == AtLeastFloor(WindowMean(q.core.p, cfg.samples))
            && q.c.ibaRms == Rms(q.core.iba, cfg) && q.c.ibrRms == Rms(q.core.ibr, cfg)
            && q.c.ivRms == Rms(q.core.iv, cfg)
            && Rated(q.w, q.m.pAvg, q.m.vRms, q.m.iRms, q.c.ibrRms, q.c.iuaRms, q.c.iurRms, q.c.ivRms, true, cfg)
  {
    RunInputs(states, x, |x| - 1, k, cfg);
  }

  /** The root mean squares and the mean power of a phase. */
  lemma MeansWithin(states: seq<CPTValue>, x: seq<Sample>, k: nat, cfg: Config)
    requires cfg.Valid() && IsRun(states, x, cfg) && AreReadings(x) && x != [] && k < 3
    ensures var q, b := Phase(states[|x|], k), PartBound(cfg);
            && 0.0 < q.m.vRms <= LARGEST && 0.0 < q.m.iRms <= LARGEST && 0.0 < q.m.pAvg <= LARGEST * LARGEST
            && 0.0 < q.c.ibaRms <= b && 0.0 < q.c.ibrRms <= b && 0.0 < q.c.ivRms <= b
  {
    var c, b := Phase(states[|x|], k).core, PartBound(cfg);
    LastFormulas(states, x, k, cfg);
    AtLeastOne(Count(cfg));
    forall t: nat | t < |x|
      ensures 0.0 <= c.iba[t] <= Square(b) && 0.0 <= c.ibr[t] <= Square(b) && 0.0 <= c.iv[t] <= Square(b)
      ensures 0.0 <= c.v[t] <= Square(LARGEST) && 0.0 <= c.i[t] <= Square(LARGEST)
      ensures Within(c.p[t], LARGEST * LARGEST)
    {
      HistoryAt(states, x, t, k, cfg);
    }
    RmsWithin(c.v, LARGEST, cfg);
    RmsWithin(c.i, LARGEST, cfg);
    RmsWithin(c.iba, b, cfg);
    RmsWithin(c.ibr, b, cfg);
    RmsWithin(c.iv, b, cfg);
    MeanWithin(c.p, cfg.samples, LARGEST * LARGEST);
  }

  /** The mean square of readings is zero or not very small. */
  lemma MeanSquareAtLeast(h: seq<real>, s: seq<real>, n: nat)
    requires 0 < n && |h| == |s|
    requires forall k :: 0 <= k < |h| ==> h[k] == Square(s[k]) && IsReading(s[k])
    ensures Thr(WindowMean(h, n)) >= Square(SMALLEST / n as real)
  {
    forall k | 0 <= k < |h|
      ensures h[k] >= 0.0
    {
      SquareSign(s[k]);
    }
    SmallShare(n as real);
    if j: nat :| From(h, n) <= j < |h| && h[j] != 0.0 {
      assert s[j] != 0.0 by {
        assert Square(0.0) == 0.0;
      }
      SquareAtLeast(s[j]);
      ElementAtMost(h, n, j);
      MeanOfElement(h[j], WindowMean(h, n), n as real);
    } else {
      MeanOfZeros(h, n);
    }
  }

  lemma SmallShare(n: real)
    requires n >= 1.0
    ensures Square(SMALLEST / n) <= Square(SMALLEST) && Square(SMALLEST / n) <= THR_MIN && SMALLEST / n > 0.0
  {
    assert SMALLEST / n * n == SMALLEST;
    QuotientWithin(SMALLEST, n, SMALLEST);
    SquareWithin(SMALLEST / n, SMALLEST);
  }

  lemma SquareAtLeast(s: real)
    requires IsReading(s) && s != 0.0
    ensures Square(s) >= Square(SMALLEST)
  {
    if s > 0.0 {
      SquareWithin(SMALLEST, s);
    } else {
      SquareWithin(SMALLEST, -s);
      assert Square(-s) == Square(s);
    }
  }

  lemma MeanOfElement(e: real, m: real, n: real)
    requires n >= 1.0 && e >= Square(SMALLEST) && e <= n * m
    ensures m >= Square(SMALLEST / n) && m > 0.0
  {
    var q := SMALLEST / n;
    assert q * n == SMALLEST;
    assert Square(SMALLEST) == n * (n * Square(q));
    SquareSign(q);
    TimesSign(n, Square(q));
    assert n * Square(q) <= n * (n * Square(q)) / n;
    TimesSign(n - 1.0, Square(q));
    assert m >= e / n;
    assert m >= n * Square(q) >= Square(q) > 0.0;
  }

  /** The root mean squares of a phase are never very small either. */
  lemma MeansAtLeast(states: seq<CPTValue>, x: seq<Sample>, k: nat, cfg: Config)
    requires cfg.Valid() && IsRun(states, x, cfg) && AreReadings(x) && x != [] && k < 3
    ensures Phase(states[|x|], k).m.vRms >= SMALLEST / Count(cfg)
    ensures Phase(states[|x|], k).m.iRms >= SMALLEST / Count(cfg)
  {
    var q, v, i := Phase(states[|x|], k), Voltages(x, k), CurrentsOf(x, k);
    LastFormulas(states, x, k, cfg);
    SignalsOfReadings(states, x, k, cfg);
    MeanSquareAtLeast(q.core.v, v, cfg.samples);
    MeanSquareAtLeast(q.core.i, i, cfg.samples);
    SmallShare(Count(cfg));
    Ordered(SMALLEST / Count(cfg), q.m.vRms);
    Ordered(SMALLEST / Count(cfg), q.m.iRms);
  }

  lemma SignalsOfReadings(states: seq<CPTValue>, x: seq<Sample>, k: nat, cfg: Config)
    requires cfg.Valid() && IsRun(states, x, cfg) && AreReadings(x) && k < 3
    ensures var c, v, i := Phase(states[|x|], k).core, Voltages(x, k), CurrentsOf(x, k);
            && |c.v| == |v| && |c.i| == |i|
            && (forall t :: 0 <= t < |v| ==> c.v[t] == Square(v[t]) && IsReading(v[t]))
            && (forall t :: 0 <= t < |i| ==> c.i[t] == Square(i[t]) && IsReading(i[t]))
  {
    var c, v, i, u := Phase(states[|x|], k).core, Voltages(x, k), CurrentsOf(x, k), Unbiased(states, k);
    RunSignals(states, x, k, cfg);
    ReadingsOfPhase(x, k);
    forall t: nat | t < |v|
      ensures c.v[t] == Square(v[t]) && c.i[t] == Square(i[t])
    {
      assert SignalAt(c, v, i, u, t, cfg);
    }
  }

  /** The bound of everything that is reported. */
  function Ceiling(cfg: Config): real {
    Square(Count(cfg)) * 10000000.0
  }

  lemma RatioAtMost(v: real, i: real, n: real)
    requires n >= 1.0 && v >= SMALLEST / n && i >= SMALLEST / n
    ensures Times(v, i) > 0.0 && Over(FLOOR, Times(v, i)) <= Square(n) * 10000000.0
  {
    var q, a, b := SMALLEST / n, Times(v, i), Square(n) * 10000000.0;
    SmallShare(n);
    TimesPositive(v, i);
    assert q * n == SMALLEST;
    SquareSign(n);
    assert a >= Times(q, q) by {
      TimesSign(v - q, i);
      TimesSign(q, i - q);
      assert Times(v, i) - Times(q, q) == (v - q) * i + q * (i - q);
    }
    assert Times(q, q) * Square(n) == SMALLEST * SMALLEST by {
      assert Times(q, q) * Square(n) == (q * n) * (q * n);
    }
    TimesSign(a - Times(q, q), Square(n));
    assert a * Square(n) >= SMALLEST * SMALLEST;
    assert b * a == (a * Square(n)) * 10000000.0 >= FLOOR;
    assert Over(FLOOR, a) * a == FLOOR;
  }

  /** The power factor of a phase. */
  lemma PowerFactorWithin(states: seq<CPTValue>, x: seq<Sample>, k: nat, cfg: Config)
    requires cfg.Valid() && IsRun(states, x, cfg) && AreReadings(x) && x != [] && k < 3
    ensures 0.0 < Phase(states[|x|], k).w.pf <= Ceiling(cfg)
  {
    var q := Phase(states[|x|], k);
    PhasePowerFactor(states, x, k, cfg);
    LastFormulas(states, x, k, cfg);
    MeansAtLeast(states, x, k, cfg);
    RatioAtMost(q.m.vRms, q.m.iRms, Count(cfg));
    AtLeastOne(Count(cfg));
  }

  lemma ShareAtMostOne(q: real, p: real, cfg: Config)
    requires cfg.Valid() && p > 0.0 && q > 0.0
    ensures var d := cfg.sqrt(Square(p) + Square(q)); d > 0.0 && 0.0 < Over(q, d) <= 1.0
  {
    var d := cfg.sqrt(Square(p) + Square(q));
    SquareSign(p);
    SquareSign(q);
    RootIsPositive(Square(p) + Square(q), cfg);
    RootWithin(q, d);
    RatioAgainstOne(q, d);
  }

  /** The powers and the other factors. */
  lemma RatingWithin(w: Powers, p: real, v: real, i: real, ibr: real, iua: real, iur: real, iv: real, b: real,
                     cfg: Config)
    requires cfg.Valid() && Rated(w, p, v, i, ibr, iua, iur, iv, true, cfg)
    requires 0.0 < v <= LARGEST && 0.0 < i <= LARGEST && p > 0.0 && 0.0 < ibr <= b && iv > 0.0
    ensures 0.0 < w.a <= LARGEST * LARGEST && 0.0 < w.q <= LARGEST * b && 0.0 < w.qf <= 1.0 && 0.0 < w.vf <= 1.0
  {
    ProductWithin(v, i, LARGEST, LARGEST);
    ProductWithin(v, ibr, LARGEST, b);
    TimesPositive(v, ibr);
    TimesPositive(v, iv);
    ShareAtMostOne(w.q, p, cfg);
    RatioAgainstOne(w.v, w.a);
  }

  /** Every attribute that a phase reports is positive and below a bound that depends on the
      length of the window only, after every sample of every run over readings. */
  lemma AttributeWithin(states: seq<CPTValue>, x: seq<Sample>, t: nat, k: nat, a: nat, cfg: Config)
    requires cfg.Valid() && IsRun(states, x, cfg) && AreReadings(x) && 0 < t <= |x| && k < 3
    requires a < Message.ATTRIBUTES
    ensures var q := Phase(states[t], k); 0.0 < Meter.Attribute(q.m, q.c, q.w, a) <= Ceiling(cfg)
  {
    var q, s, y := Phase(states[t], k), states[..t + 1], x[..t];
    RunOfPrefix(states, x, t, cfg);
    LastFormulas(s, y, k, cfg);
    MeansWithin(s, y, k, cfg);
    PowerFactorWithin(s, y, k, cfg);
    RatingWithin(q.w, q.m.pAvg, q.m.vRms, q.m.iRms, q.c.ibrRms, q.c.iuaRms, q.c.iurRms, q.c.ivRms, PartBound(cfg),
                 cfg);
    AtLeastOne(Count(cfg));
  }
}
