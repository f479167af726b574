/** The power identity of the theory as a theorem about runs of the engine. */
module PowerIdentity {
  import opened Reals
  import opened Sums
  import opened MovingAverage
  import opened Integrator
  import opened CPTState
  import opened CPTFormulas
  import opened CPTRun
  import opened SteadyState
  import opened Decomposition

  lemma SameSums(h: seq<real>, g: seq<real>, cfg: Config)
    requires cfg.Valid() && LastSum(h, cfg.samples) == LastSum(g, cfg.samples)
    ensures PlainMean(h, cfg) == PlainMean(g, cfg) && Rms(h, cfg) == Rms(g, cfg)
  {
  }

  /** The same coefficients: what the decomposition of one phase depends on. */
  ghost predicate SameCoefficients(a: Measures, b: Measures) {
    a.vRms == b.vRms && a.pAvg == b.pAvg && a.unbiasedRms == b.unbiasedRms && a.wAvg == b.wAvg
  }

  lemma SteadySums(c: PhaseCore, v: seq<real>, i: seq<real>, u: seq<real>, t: nat, cfg: Config)
    requires cfg.Valid() && Signals(c, v, i, u, cfg) && PhaseSettled(v, i, cfg.samples)
    requires |v| - cfg.samples <= t < |v|
    ensures LastSum(c.v[..t + 1], cfg.samples) == LastSum(c.v, cfg.samples)
    ensures LastSum(c.p[..t + 1], cfg.samples) == LastSum(c.p, cfg.samples)
    ensures LastSum(c.ui[..t + 1], cfg.samples) == LastSum(c.ui, cfg.samples)
    ensures LastSum(c.w[..t + 1], cfg.samples) == LastSum(c.w, cfg.samples)
  {
    var n, from := cfg.samples, Begin(|v|, cfg.samples);
    FiltersArePeriodic(c, v, i, u, cfg);
    WindowIsLast(c.v, n, from, t);
    WindowIsLast(c.p, n, from, t);
    WindowIsLast(c.ui, n, from + n - 1, t);
    WindowIsLast(c.w, n, from + n - 1, t);
  }

  lemma SteadyPhase(states: seq<CPTValue>, x: seq<Sample>, t: nat, k: nat, cfg: Config)
    requires cfg.Valid() && IsRun(states, x, cfg) && Settled(x, cfg.samples) && k < 3
    requires |x| - cfg.samples <= t < |x|
    ensures SameCoefficients(Phase(states[t + 1], k).m, Phase(states[|x|], k).m)
  {
    var c := Phase(states[|x|], k).core;
    RunSignals(states, x, k, cfg);
    SteadySums(c, Voltages(x, k), CurrentsOf(x, k), Unbiased(states, k), t, cfg);
    RunInputs(states, x, t, k, cfg);
    RunInputs(states, x, |x| - 1, k, cfg);
    SameSums(c.v[..t + 1], c.v, cfg);
    SameSums(c.p[..t + 1], c.p, cfg);
    SameSums(c.ui[..t + 1], c.ui, cfg);
    SameSums(c.w[..t + 1], c.w, cfg);
  }

  /** `z` is pointwise the sum of three sequences. */
  ghost predicate Adds(z: seq<real>, a: seq<real>, b: seq<real>, c: seq<real>) {
    && |z| == |a| == |b| == |c|
    && forall t: nat :: t < |z| ==> AddsAt(z, a, b, c, t)
  }

  ghost predicate AddsAt(z: seq<real>, a: seq<real>, b: seq<real>, c: seq<real>, t: nat)
    requires t < |z| == |a| == |b| == |c|
  {
    z[t] == a[t] + b[t] + c[t]
  }

  lemma AddsPeriodic(z: seq<real>, a: seq<real>, b: seq<real>, c: seq<real>, n: nat, from: nat)
    requires Adds(z, a, b, c) && Periodic(a, n, from) && Periodic(b, n, from) && Periodic(c, n, from)
    ensures Periodic(z, n, from)
  {
    forall k: nat | from <= k && k + n < |z|
      ensures Repeats(z, n, k)
    {
      assert Repeats(a, n, k) && Repeats(b, n, k) && Repeats(c, n, k);
      assert AddsAt(z, a, b, c, k) && AddsAt(z, a, b, c, k + n);
    }
  }

  lemma {:induction false} AddsSum(z: seq<real>, a: seq<real>, b: seq<real>, c: seq<real>, lo: nat, hi: nat)
    requires Adds(z, a, b, c) && lo <= hi <= |z|
    ensures Sum(z, lo, hi) == Sum(a, lo, hi) + Sum(b, lo, hi) + Sum(c, lo, hi)
    decreases hi
  {
    if lo < hi {
      AddsSum(z, a, b, c, lo, hi - 1);
      assert AddsAt(z, a, b, c, hi - 1);
    }
  }

  lemma AddsMean(z: seq<real>, a: seq<real>, b: seq<real>, c: seq<real>, n: nat)
    requires 0 < n && Adds(z, a, b, c)
    ensures WindowMean(z, n) == WindowMean(a, n) + WindowMean(b, n) + WindowMean(c, n)
  {
    AddsSum(z, a, b, c, if |z| <= n then 0 else |z| - n, |z|);
    QuotientOfSum(LastSum(a, n), LastSum(b, n), LastSum(c, n), n as real);
  }

  lemma QuotientOfSum(p: real, q: real, r: real, d: real)
    requires d > 0.0
    ensures (p + q + r) / d == p / d + q / d + r / d
  {
  }

  /** The collective filters receive the totals of what the phases' filters receive. */
  lemma SharedTotals(states: seq<CPTValue>, x: seq<Sample>, cfg: Config)
    requires cfg.Valid() && IsRun(states, x, cfg)
    ensures var r := states[|x|];
            && Adds(r.sh.core.v, r.x.core.v, r.y.core.v, r.z.core.v)
            && Adds(r.sh.core.i, r.x.core.i, r.y.core.i, r.z.core.i)
            && Adds(r.sh.core.ui, r.x.core.ui, r.y.core.ui, r.z.core.ui)
            && Adds(r.sh.core.iv, r.x.core.iv, r.y.core.iv, r.z.core.iv)
            && Adds(r.sh.core.iba, r.x.core.iba, r.y.core.iba, r.z.core.iba)
            && Adds(r.sh.core.ibr, r.x.core.ibr, r.y.core.ibr, r.z.core.ibr)
  {
    var r := states[|x|];
    var x', y', z', s := r.x.core, r.y.core, r.z.core, r.sh.core;
    RunFills(states, x, |x|, cfg);
    forall t: nat | t < |x|
      ensures AddsAt(s.v, x'.v, y'.v, z'.v, t) && AddsAt(s.i, x'.i, y'.i, z'.i, t)
      ensures AddsAt(s.ui, x'.ui, y'.ui, z'.ui, t) && AddsAt(s.iv, x'.iv, y'.iv, z'.iv, t)
      ensures AddsAt(s.iba, x'.iba, y'.iba, z'.iba, t) && AddsAt(s.ibr, x'.ibr, y'.ibr, z'.ibr, t)
    {
      RunInputs(states, x, t, 0, cfg);
      RunInputs(states, x, t, 1, cfg);
      RunInputs(states, x, t, 2, cfg);
      RunSharedInputs(states, x, t, cfg);
    }
  }

  lemma PhaseFiltersArePeriodic(states: seq<CPTValue>, x: seq<Sample>, k: nat, cfg: Config)
    requires cfg.Valid() && IsRun(states, x, cfg) && Settled(x, cfg.samples) && k < 3
    ensures Periodic(Phase(states[|x|], k).core.v, cfg.samples, Begin(|x|, cfg.samples))
    ensures Periodic(Phase(states[|x|], k).core.ui, cfg.samples, |x| - 2 * cfg.samples + 1)
  {
    RunSignals(states, x, k, cfg);
    FiltersArePeriodic(Phase(states[|x|], k).core, Voltages(x, k), CurrentsOf(x, k), Unbiased(states, k), cfg);
  }

  /** The collective windows of voltage and integral have the same sums at every instant of the
      last window. */
  lemma SteadyRoots(states: seq<CPTValue>, x: seq<Sample>, t: nat, cfg: Config)
    requires cfg.Valid() && IsRun(states, x, cfg) && Settled(x, cfg.samples)
    requires |x| - cfg.samples <= t < |x|
    ensures var c := states[|x|].sh.core;
            && |c.v| == |c.ui| == |x|
            && Rms(c.v[..t + 1], cfg) == Rms(c.v, cfg) && Rms(c.ui[..t + 1], cfg) == Rms(c.ui, cfg)
  {
    var r, n, from := states[|x|], cfg.samples, Begin(|x|, cfg.samples);
    RunFills(states, x, |x|, cfg);
    SharedTotals(states, x, cfg);
    PhaseFiltersArePeriodic(states, x, 0, cfg);
    PhaseFiltersArePeriodic(states, x, 1, cfg);
    PhaseFiltersArePeriodic(states, x, 2, cfg);
    AddsPeriodic(r.sh.core.v, r.x.core.v, r.y.core.v, r.z.core.v, n, from);
    AddsPeriodic(r.sh.core.ui, r.x.core.ui, r.y.core.ui, r.z.core.ui, n, from + n - 1);
    WindowIsLast(r.sh.core.v, n, from, t);
    WindowIsLast(r.sh.core.ui, n, from + n - 1, t);
    SameSums(r.sh.core.v[..t + 1], r.sh.core.v, cfg);
    SameSums(r.sh.core.ui[..t + 1], r.sh.core.ui, cfg);
  }

  lemma SteadyShared(states: seq<CPTValue>, x: seq<Sample>, t: nat, cfg: Config)
    requires cfg.Valid() && IsRun(states, x, cfg) && Settled(x, cfg.samples)
    requires |x| - cfg.samples <= t < |x|
    ensures SameSharedCoefficients(states[t + 1].sh.m, states[|x|].sh.m)
  {
    SteadyRoots(states, x, t, cfg);
    RunSharedInputs(states, x, t, cfg);
    RunSharedInputs(states, x, |x| - 1, cfg);
    SteadyPhase(states, x, t, 0, cfg);
    SteadyPhase(states, x, t, 1, cfg);
    SteadyPhase(states, x, t, 2, cfg);
  }

  // ---------------------------------------------------------------- means over the last window

  lemma MeanOfScaled(a: real, s: real, n: nat)
    requires 0 < n
    ensures Times(a, s) / n as real == Times(a, s / n as real)
  {
  }

  lemma MeanOfSum(s: real, t: real, n: nat)
    requires 0 < n
    ensures (s + t) / n as real == s / n as real + t / n as real
  {
  }

  lemma MeanOfSum6(p: real, q: real, r: real, s: real, t: real, u: real, n: nat)
    requires 0 < n
    ensures (p + q + r + s + t + u) / n as real
         == p / n as real + q / n as real + r / n as real + s / n as real + t / n as real + u / n as real
  {
    MeanOfSum(p + q + r + s + t, u, n);
    MeanOfSum(p + q + r + s, t, n);
    MeanOfSum(p + q + r, s, n);
    MeanOfSum(p + q, r, n);
    MeanOfSum(p, q, n);
  }

  /** Window means are linear. */
  lemma MeanLinear(z: seq<real>, m: Mix, n: nat)
    requires 0 < n <= |z| && Mixed(z, m, |z| - n, |z|)
    ensures WindowMean(z, n) ==
        Times(m.a, WindowMean(m.p, n)) + Times(m.b, WindowMean(m.q, n)) + Times(m.c, WindowMean(m.r, n))
                                + Times(m.d, WindowMean(m.s, n)) + Times(m.e, WindowMean(m.t, n)) + Times(m.f,
                                    WindowMean(m.u, n))
  {
    SumLinear(z, m, |z| - n, |z|);
    var p, q, r := Times(m.a, LastSum(m.p, n)), Times(m.b, LastSum(m.q, n)), Times(m.c, LastSum(m.r, n));
    var s, t, u := Times(m.d, LastSum(m.s, n)), Times(m.e, LastSum(m.t, n)), Times(m.f, LastSum(m.u, n));
    assert LastSum(z, n) == p + q + r + s + t + u;
    MeanOfSum6(p, q, r, s, t, u, n);
    MeanOfScaled(m.a, LastSum(m.p, n), n);
    MeanOfScaled(m.b, LastSum(m.q, n), n);
    MeanOfScaled(m.c, LastSum(m.r, n), n);
    MeanOfScaled(m.d, LastSum(m.s, n), n);
    MeanOfScaled(m.e, LastSum(m.t, n), n);
    MeanOfScaled(m.f, LastSum(m.u, n), n);
  }

  function NormsOf(c: PhaseCore, n: nat): Norms
    requires 0 < n
  {
    Norms(WindowMean(c.v, n), WindowMean(c.i, n), WindowMean(c.p, n), WindowMean(c.ui, n), WindowMean(c.w, n))
  }

  /** The mean of squares is non-negative, and zero only when the window is. */
  lemma MeanOfSquares(h: seq<real>, n: nat)
    requires 0 < n && forall t :: 0 <= t < |h| ==> h[t] >= 0.0
    ensures WindowMean(h, n) >= 0.0
    ensures WindowMean(h, n) == 0.0 ==> forall t :: 0 <= t < |h| && |h| - n <= t ==> h[t] == 0.0
  {
    SumNonNegative(h, if |h| <= n then 0 else |h| - n, |h|);
    var s := LastSum(h, n);
    if s > 0.0 {
      assert s / n as real > 0.0;
    }
  }

  lemma MeanOfZeros(h: seq<real>, n: nat)
    requires 0 < n && forall t :: 0 <= t < |h| && |h| - n <= t ==> h[t] == 0.0
    ensures WindowMean(h, n) == 0.0
  {
    SumAllZero(h, if |h| <= n then 0 else |h| - n, |h|);
  }

  /** Mean squares and mean products of real signals are consistent. */
  lemma SignalNorms(c: PhaseCore, v: seq<real>, i: seq<real>, u: seq<real>, cfg: Config)
    requires cfg.Valid() && Signals(c, v, i, u, cfg)
    ensures Consistent(NormsOf(c, cfg.samples))
  {
    var n := cfg.samples;
    forall t: nat | t < |v|
      ensures c.v[t] >= 0.0 && c.i[t] >= 0.0 && c.ui[t] >= 0.0
      ensures c.v[t] == 0.0 ==> c.p[t] == 0.0
      ensures c.ui[t] == 0.0 ==> c.w[t] == 0.0
      ensures c.i[t] == 0.0 ==> c.p[t] == 0.0 && c.w[t] == 0.0
    {
      assert SignalAt(c, v, i, u, t, cfg);
      SquareSign(v[t]);
      SquareSign(i[t]);
      SquareSign(u[t]);
      assert Times(0.0, i[t]) == 0.0 && Times(v[t], 0.0) == 0.0 && Times(u[t], 0.0) == 0.0;
    }
    MeanOfSquares(c.v, n);
    MeanOfSquares(c.i, n);
    MeanOfSquares(c.ui, n);
    if WindowMean(c.v, n) == 0.0 {
      MeanOfZeros(c.p, n);
    }
    if WindowMean(c.ui, n) == 0.0 {
      MeanOfZeros(c.w, n);
    }
    if WindowMean(c.i, n) == 0.0 {
      MeanOfZeros(c.p, n);
      MeanOfZeros(c.w, n);
    }
  }

  // ---------------------------------------------------------------- the parts in the last window

  function ThreeOf(r: CPTValue, n: nat): Three
    requires 0 < n
  {
    Three(NormsOf(r.x.core, n), NormsOf(r.y.core, n), NormsOf(r.z.core, n))
  }

  lemma RatioOfSquare(p: real, r: real, d: real)
    requires r > 0.0 && Square(r) == d
    ensures d > 0.0 && PerSquare(p, r) == p / d
  {
    SquareSign(r);
  }

  /** At the end of a run the coefficients of a phase are those of its norms. */
  lemma PhaseCoefficients(states: seq<CPTValue>, x: seq<Sample>, k: nat, cfg: Config)
    requires cfg.Valid() && IsRun(states, x, cfg) && k < 3 && x != []
    ensures var r := Phase(states[|x|], k);
            && r.m.vRms > 0.0 && r.m.unbiasedRms > 0.0
            && PerSquare(r.m.pAvg, r.m.vRms) == Alpha(NormsOf(r.core, cfg.samples))
            && PerSquare(r.m.wAvg, r.m.unbiasedRms) == Beta(NormsOf(r.core, cfg.samples))
            && r.m.pAvg == AtLeastFloor(NormsOf(r.core, cfg.samples).vi)
            && r.m.wAvg == NormsOf(r.core, cfg.samples).ui
  {
    var r := Phase(states[|x|], k);
    RunInputs(states, x, |x| - 1, k, cfg);
    RatioOfSquare(r.m.pAvg, r.m.vRms, FlooredMean(r.core.v, cfg));
    RatioOfSquare(r.m.wAvg, r.m.unbiasedRms, FlooredMean(r.core.ui, cfg));
  }

  lemma SharedCoefficients(states: seq<CPTValue>, x: seq<Sample>, cfg: Config)
    requires cfg.Valid() && IsRun(states, x, cfg) && x != []
    ensures var r, t := states[|x|], ThreeOf(states[|x|], cfg.samples);
            && r.sh.m.vRms > 0.0 && r.sh.m.uiRms > 0.0
            && Square(r.sh.m.vRms) == Thr(t.VV()) && Square(r.sh.m.iRms) == Thr(t.II()) && r.sh.m.pAvg == t.P()
            && PerSquare(r.sh.m.pAvg, r.sh.m.vRms) == t.A()
            && PerSquare(r.sh.m.wAvg, r.sh.m.uiRms) == t.B()
  {
    var r, n := states[|x|], cfg.samples;
    RunSharedInputs(states, x, |x| - 1, cfg);
    SharedTotals(states, x, cfg);
    AddsMean(r.sh.core.v, r.x.core.v, r.y.core.v, r.z.core.v, n);
    AddsMean(r.sh.core.i, r.x.core.i, r.y.core.i, r.z.core.i, n);
    AddsMean(r.sh.core.ui, r.x.core.ui, r.y.core.ui, r.z.core.ui, n);
    PhaseCoefficients(states, x, 0, cfg);
    PhaseCoefficients(states, x, 1, cfg);
    PhaseCoefficients(states, x, 2, cfg);
    RatioOfSquare(r.sh.m.pAvg, r.sh.m.vRms, FlooredMean(r.sh.core.v, cfg));
    RatioOfSquare(r.sh.m.wAvg, r.sh.m.uiRms, FlooredMean(r.sh.core.ui, cfg));
  }

  /** The currents of phase `k` at an instant of the last window, with constant coefficients. */
  ghost predicate SplitAt(c: Currents, v: real, i: real, u: real, m: Norms, t: Three) {
    && c.iv == i - Times(Alpha(m), v) - Times(Beta(m), u)
    && c.iba == Times(t.A(), v) && c.ibr == Times(t.B(), u)
    && c.iua == Times(Alpha(m), v) - Times(t.A(), v) && c.iur == Times(Beta(m), u) - Times(t.B(), u)
  }

  lemma SteadySplit(states: seq<CPTValue>, x: seq<Sample>, t: nat, k: nat, cfg: Config)
    requires cfg.Valid() && IsRun(states, x, cfg) && Settled(x, cfg.samples) && k < 3
    requires |x| - cfg.samples <= t < |x|
    ensures SplitAt(Phase(states[t + 1], k).c, x[t].V[k], x[t].I[k], Phase(states[t + 1], k).m.unbiased,
                    NormsOf(Phase(states[|x|], k).core, cfg.samples), ThreeOf(states[|x|], cfg.samples))
  {
    SteadyPhase(states, x, t, k, cfg);
    SteadyShared(states, x, t, cfg);
    PhaseCoefficients(states, x, k, cfg);
    SharedCoefficients(states, x, cfg);
    RunInputs(states, x, t, k, cfg);
  }

  lemma ExpandSquare(i: real, p: real, q: real)
    ensures Square(i - p - q) ==
        Square(i) + Square(p) + Square(q) - 2.0 * Times(p, i) - 2.0 * Times(q, i) + 2.0 * Times(p, q)
  {
  }

  lemma Reassociate(a: real, v: real, b: real, u: real)
    ensures Times(Times(a, v), Times(b, u)) == Times(Times(a, b), Times(v, u))
  {
  }

  lemma ScaledTimes(a: real, v: real, i: real)
    ensures 2.0 * Times(Times(a, v), i) == -Times(-2.0 * a, Times(v, i))
    ensures 2.0 * Times(a, v) == Times(2.0 * a, v)
  {
  }

  lemma ExpandVoid(i: real, v: real, u: real, a: real, b: real)
    ensures Square(i - Times(a, v) - Times(b, u))
         == Times(1.0, Square(i)) + Times(-2.0 * a, Times(v, i)) + Times(-2.0 * b, Times(u, i))
          + Times(Square(a), Square(v)) + Times(Square(b), Square(u)) + Times(2.0 * Times(a, b), Times(v, u))
  {
    ExpandSquare(i, Times(a, v), Times(b, u));
    SquareOfProduct(a, v);
    SquareOfProduct(b, u);
    ScaledTimes(a, v, i);
    ScaledTimes(b, u, i);
    Reassociate(a, v, b, u);
    ScaledTimes(Times(a, b), Times(v, u), 0.0);
  }

  /** The square of the void current, as a combination of the other filters' inputs. */
  function VoidMix(c: PhaseCore, m: Norms, vu: seq<real>): Mix {
    Mix(1.0, c.i, -2.0 * Alpha(m), c.p, -2.0 * Beta(m), c.w, Square(Alpha(m)), c.v, Square(Beta(m)), c.ui,
        2.0 * Times(Alpha(m), Beta(m)), vu)
  }

  lemma PhaseVoidAt(states: seq<CPTValue>, x: seq<Sample>, t: nat, k: nat, cfg: Config)
    requires cfg.Valid() && IsRun(states, x, cfg) && Settled(x, cfg.samples) && k < 3
    requires |x| - cfg.samples <= t < |x| && Full(Phase(states[|x|], k).core, |x|)
    ensures var c := Phase(states[|x|], k).core;
            MixedAt(c.iv, VoidMix(c, NormsOf(c, cfg.samples), Products(Voltages(x, k), Unbiased(states, k))), t)
  {
    var m := NormsOf(Phase(states[|x|], k).core, cfg.samples);
    SteadySplit(states, x, t, k, cfg);
    RunElements(states, x, t, k, cfg);
    ExpandVoid(x[t].I[k], x[t].V[k], Phase(states[t + 1], k).m.unbiased, Alpha(m), Beta(m));
  }

  /** The mean square of the void current of a phase, from its norms: the cross term of
      voltage and integral is the one that vanishes. */
  lemma PhaseVoid(states: seq<CPTValue>, x: seq<Sample>, k: nat, cfg: Config)
    requires cfg.Valid() && IsRun(states, x, cfg) && Settled(x, cfg.samples) && k < 3
    ensures WindowMean(Phase(states[|x|], k).core.iv, cfg.samples) ==
        Void(NormsOf(Phase(states[|x|], k).core, cfg.samples))
  {
    var c, n := Phase(states[|x|], k).core, cfg.samples;
    var m, v, u := NormsOf(c, n), Voltages(x, k), Unbiased(states, k);
    var mix := VoidMix(c, m, Products(v, u));
    RunFills(states, x, |x|, cfg);
    forall t: nat | |x| - n <= t < |x|
      ensures MixedAt(c.iv, mix, t)
    {
      PhaseVoidAt(states, x, t, k, cfg);
    }
    RunSignals(states, x, k, cfg);
    UnbiasedIsOrthogonal(c, v, CurrentsOf(x, k), u, cfg);
    VoidOfMix(c.iv, c, Products(v, u), n);
  }

  lemma VoidOfMix(iv: seq<real>, c: PhaseCore, vu: seq<real>, n: nat)
    requires 0 < n <= |iv| && Mixed(iv, VoidMix(c, NormsOf(c, n), vu), |iv| - n, |iv|) && WindowMean(vu, n) == 0.0
    ensures WindowMean(iv, n) == Void(NormsOf(c, n))
  {
    var m := NormsOf(c, n);
    MeanLinear(iv, VoidMix(c, m, vu), n);
    VoidFromMeans(m, Alpha(m), Beta(m));
  }

  lemma VoidFromMeans(m: Norms, a: real, b: real)
    requires a == Alpha(m) && b == Beta(m)
    ensures Void(m) == Times(1.0, m.ii) + Times(-2.0 * a, m.vi) + Times(-2.0 * b, m.ui)
                       + Times(Square(a), m.vv) + Times(Square(b), m.uu) + Times(2.0 * Times(a, b), 0.0)
  {
    assert Times(-2.0 * a, m.vi) == -2.0 * Times(a, m.vi) && Times(-2.0 * b, m.ui) == -2.0 * Times(b, m.ui);
  }

  lemma SquareOfScaled(a: real, b: real, v: real)
    ensures Square(Times(a, v)) == Times(Square(a), Square(v))
    ensures Square(Times(b, v) - Times(a, v)) == Times(Square(b - a), Square(v))
  {
    assert Times(b, v) - Times(a, v) == Times(b - a, v);
    SquareOfProduct(a, v);
    SquareOfProduct(b - a, v);
  }

  /** The squares of the balanced and unbalanced currents of phase `k`. */
  lemma PhasePartsAt(states: seq<CPTValue>, x: seq<Sample>, t: nat, k: nat, cfg: Config)
    requires cfg.Valid() && IsRun(states, x, cfg) && Settled(x, cfg.samples) && k < 3
    requires |x| - cfg.samples <= t < |x| && Full(Phase(states[|x|], k).core, |x|)
    ensures var c, d, m := Phase(states[t + 1], k).c, Phase(states[|x|], k).core, ThreeOf(states[|x|], cfg.samples);
            var q := NormsOf(d, cfg.samples);
            && Square(c.iba) == Times(Square(m.A()), d.v[t]) && Square(c.ibr) == Times(Square(m.B()), d.ui[t])
            && Square(c.iua) == Times(Square(Alpha(q) - m.A()), d.v[t])
            && Square(c.iur) == Times(Square(Beta(q) - m.B()), d.ui[t])
  {
    var m, q := ThreeOf(states[|x|], cfg.samples), NormsOf(Phase(states[|x|], k).core, cfg.samples);
    SteadySplit(states, x, t, k, cfg);
    RunElements(states, x, t, k, cfg);
    SquareOfScaled(m.A(), Alpha(q), x[t].V[k]);
    SquareOfScaled(m.B(), Beta(q), Phase(states[t + 1], k).m.unbiased);
  }

  function Weighted(a: real, b: real, c: real, p: seq<real>, q: seq<real>, r: seq<real>): Mix {
    Mix3(Square(a), p, Square(b), q, Square(c), r)
  }

  lemma SharedPartsAt(states: seq<CPTValue>, x: seq<Sample>, t: nat, cfg: Config)
    requires cfg.Valid() && IsRun(states, x, cfg) && Settled(x, cfg.samples)
    requires |x| - cfg.samples <= t < |x| && AllFull(states[|x|], |x|)
    ensures var r, m := states[|x|], ThreeOf(states[|x|], cfg.samples);
            var a, b, s, x', y', z' := m.A(), m.B(), r.sh.core, r.x.core, r.y.core, r.z.core;
            && MixedAt(s.iba, Weighted(a, a, a, x'.v, y'.v, z'.v), t)
            && MixedAt(s.ibr, Weighted(b, b, b, x'.ui, y'.ui, z'.ui), t)
            && MixedAt(s.iua, Weighted(Alpha(m.x) - a, Alpha(m.y) - a, Alpha(m.z) - a, x'.v, y'.v, z'.v), t)
            && MixedAt(s.iur, Weighted(Beta(m.x) - b, Beta(m.y) - b, Beta(m.z) - b, x'.ui, y'.ui, z'.ui), t)
  {
    RunSharedInputs(states, x, t, cfg);
    PhasePartsAt(states, x, t, 0, cfg);
    PhasePartsAt(states, x, t, 1, cfg);
    PhasePartsAt(states, x, t, 2, cfg);
    var r := states[|x|];
    assert Times(0.0, r.x.core.v[t]) == 0.0 && Times(0.0, r.x.core.ui[t]) == 0.0;
  }

  lemma MeanWeighted(z: seq<real>, a: real, b: real, c: real, p: seq<real>, q: seq<real>, r: seq<real>, n: nat)
    requires 0 < n <= |z| && Mixed(z, Weighted(a, b, c, p, q, r), |z| - n, |z|)
    ensures WindowMean(z, n)
         == Times(Square(a), WindowMean(p, n)) + Times(Square(b), WindowMean(q, n)) + Times(Square(c), WindowMean(r, n))
  {
    MeanLinear(z, Weighted(a, b, c, p, q, r), n);
    assert Times(0.0, WindowMean(p, n)) == 0.0;
  }

  /** The mean squares of the collective parts in the last window. */
  lemma SharedParts(states: seq<CPTValue>, x: seq<Sample>, cfg: Config)
    requires cfg.Valid() && IsRun(states, x, cfg) && Settled(x, cfg.samples)
    ensures var s, m, n := states[|x|].sh.core, ThreeOf(states[|x|], cfg.samples), cfg.samples;
            && WindowMean(s.iba, n) == m.Iba() && WindowMean(s.ibr, n) == m.Ibr()
            && WindowMean(s.iua, n) == m.Iua() && WindowMean(s.iur, n) == m.Iur()
  {
    var r, n := states[|x|], cfg.samples;
    var m, s := ThreeOf(r, n), r.sh.core;
    var a, b, x', y', z' := m.A(), m.B(), r.x.core, r.y.core, r.z.core;
    var a0, a1, a2 := Alpha(m.x) - a, Alpha(m.y) - a, Alpha(m.z) - a;
    var b0, b1, b2 := Beta(m.x) - b, Beta(m.y) - b, Beta(m.z) - b;
    RunFills(states, x, |x|, cfg);
    forall t: nat | |x| - n <= t < |x|
      ensures MixedAt(s.iba, Weighted(a, a, a, x'.v, y'.v, z'.v), t)
      ensures MixedAt(s.ibr, Weighted(b, b, b, x'.ui, y'.ui, z'.ui), t)
      ensures MixedAt(s.iua, Weighted(a0, a1, a2, x'.v, y'.v, z'.v), t)
      ensures MixedAt(s.iur, Weighted(b0, b1, b2, x'.ui, y'.ui, z'.ui), t)
    {
      SharedPartsAt(states, x, t, cfg);
    }
    MeanWeighted(s.iba, a, a, a, x'.v, y'.v, z'.v, n);
    MeanWeighted(s.ibr, b, b, b, x'.ui, y'.ui, z'.ui, n);
    MeanWeighted(s.iua, a0, a1, a2, x'.v, y'.v, z'.v, n);
    MeanWeighted(s.iur, b0, b1, b2, x'.ui, y'.ui, z'.ui, n);
    TimesDistributes3(Square(a), m.x.vv, m.y.vv, m.z.vv);
    TimesDistributes3(Square(b), m.x.uu, m.y.uu, m.z.uu);
  }

  lemma TimesDistributes3(a: real, x: real, y: real, z: real)
    ensures Times(a, x + y + z) == Times(a, x) + Times(a, y) + Times(a, z)
  {
  }

  lemma SharedVoid(states: seq<CPTValue>, x: seq<Sample>, cfg: Config)
    requires cfg.Valid() && IsRun(states, x, cfg) && Settled(x, cfg.samples)
    ensures WindowMean(states[|x|].sh.core.iv, cfg.samples) == ThreeOf(states[|x|], cfg.samples).Iv()
  {
    var r := states[|x|];
    SharedTotals(states, x, cfg);
    AddsMean(r.sh.core.iv, r.x.core.iv, r.y.core.iv, r.z.core.iv, cfg.samples);
    PhaseVoid(states, x, 0, cfg);
    PhaseVoid(states, x, 1, cfg);
    PhaseVoid(states, x, 2, cfg);
  }

  lemma VoidIsNonNegative(states: seq<CPTValue>, x: seq<Sample>, cfg: Config)
    requires cfg.Valid() && IsRun(states, x, cfg)
    ensures WindowMean(states[|x|].sh.core.iv, cfg.samples) >= 0.0
  {
    var s := states[|x|].sh.core;
    RunFills(states, x, |x|, cfg);
    forall t | 0 <= t < |s.iv|
      ensures s.iv[t] >= 0.0
    {
      var c := states[t + 1];
      RunSharedInputs(states, x, t, cfg);
      SquareSign(c.x.c.iv);
      SquareSign(c.y.c.iv);
      SquareSign(c.z.c.iv);
    }
    MeanOfSquares(s.iv, cfg.samples);
  }

  // ---------------------------------------------------------------- the power identity

  /** The four collective parts are present: none of their filters is at its floor. */
  ghost predicate AllPartsPresent(s: SharedCore, n: nat)
    requires 0 < n
  {
    WindowMean(s.ibr, n) > 0.0 && WindowMean(s.iua, n) > 0.0 && WindowMean(s.iur, n) > 0.0 && WindowMean(s.iv, n) > 0.0
  }

  /** The mean power of every phase has reached its floor by itself. */
  ghost predicate PowersReachFloor(r: CPTValue, n: nat)
    requires 0 < n
  {
    WindowMean(r.x.core.p, n) >= FLOOR && WindowMean(r.y.core.p, n) >= FLOOR && WindowMean(r.z.core.p, n) >= FLOOR
  }

  function PartsTotal(s: Shared): real {
    Square(s.m.pAvg) + Square(s.w.q) + Square(s.w.n) + Square(s.w.v)
  }

  /** The collective powers, squared, from the window means. */
  lemma SquaredPowers(s: Shared, cfg: Config)
    requires cfg.Valid()
    requires s.m.vRms == Rms(s.core.v, cfg) && s.m.iRms == Rms(s.core.i, cfg) && s.m.ibrRms == Rms(s.core.ibr, cfg)
    requires s.m.iuaRms == Rms(s.core.iua, cfg) && s.m.iurRms == Rms(s.core.iur, cfg)
      && s.m.ivRms == Rms(s.core.iv, cfg)
    requires Rated(s.w, s.m.pAvg, s.m.vRms, s.m.iRms, s.m.ibrRms, s.m.iuaRms, s.m.iurRms, s.m.ivRms, false, cfg)
    ensures var n, vv := cfg.samples, Thr(WindowMean(s.core.v, cfg.samples));
            && Square(s.w.a) == Times(vv, Thr(WindowMean(s.core.i, n)))
            && Square(s.w.q) == Times(vv, Thr(WindowMean(s.core.ibr, n)))
            && Square(s.w.n) == Times(vv, Thr(WindowMean(s.core.iua, n))) + Times(vv, Thr(WindowMean(s.core.iur, n)))
            && Square(s.w.v) == Times(vv, Thr(WindowMean(s.core.iv, n)))
  {
    SquareOfProduct(s.m.vRms, s.m.iRms);
    SquareOfProduct(s.m.vRms, s.m.ibrRms);
    SquareOfProduct(s.m.vRms, s.m.iuaRms);
    SquareOfProduct(s.m.vRms, s.m.iurRms);
    SquareOfProduct(s.m.vRms, s.m.ivRms);
    TimesPositive(s.m.vRms, s.m.iuaRms);
    SquareSign(s.w.na);
    SquareSign(s.w.nr);
    RootIsPositive(Square(s.w.na) + Square(s.w.nr), cfg);
  }

  lemma RunIsConsistent(states: seq<CPTValue>, x: seq<Sample>, cfg: Config)
    requires cfg.Valid() && IsRun(states, x, cfg)
    ensures ThreeOf(states[|x|], cfg.samples).Ok()
  {
    var r := states[|x|];
    forall k: nat | k < 3
      ensures Consistent(NormsOf(Phase(r, k).core, cfg.samples))
    {
      RunSignals(states, x, k, cfg);
      SignalNorms(Phase(r, k).core, Voltages(x, k), CurrentsOf(x, k), Unbiased(states, k), cfg);
    }
    assert Phase(r, 0) == r.x && Phase(r, 1) == r.y && Phase(r, 2) == r.z;
  }

  lemma RunSquaredPowers(states: seq<CPTValue>, x: seq<Sample>, cfg: Config)
    requires cfg.Valid() && IsRun(states, x, cfg) && x != []
    ensures var s, n, vv := states[|x|].sh, cfg.samples, Thr(WindowMean(states[|x|].sh.core.v, cfg.samples));
            && Square(s.w.a) == Times(vv, Thr(WindowMean(s.core.i, n)))
            && Square(s.w.q) == Times(vv, Thr(WindowMean(s.core.ibr, n)))
            && Square(s.w.n) == Times(vv, Thr(WindowMean(s.core.iua, n))) + Times(vv, Thr(WindowMean(s.core.iur, n)))
            && Square(s.w.v) == Times(vv, Thr(WindowMean(s.core.iv, n)))
  {
    FormulasAt(states, x, |x| - 1, cfg);
    SquaredPowers(states[|x|].sh, cfg);
  }

  /** The two sides of the identity, from the norms of the last window. */
  lemma SidesFromNorms(states: seq<CPTValue>, x: seq<Sample>, cfg: Config)
    requires cfg.Valid() && IsRun(states, x, cfg) && Settled(x, cfg.samples)
    ensures var s, t := states[|x|].sh, ThreeOf(states[|x|], cfg.samples);
            Square(s.w.a) == ApparentSquared(t) && PartsTotal(s) == PartsSquared(t)
  {
    var r, n := states[|x|], cfg.samples;
    var t := ThreeOf(r, n);
    RunSquaredPowers(states, x, cfg);
    SharedCoefficients(states, x, cfg);
    SharedTotals(states, x, cfg);
    AddsMean(r.sh.core.v, r.x.core.v, r.y.core.v, r.z.core.v, n);
    AddsMean(r.sh.core.i, r.x.core.i, r.y.core.i, r.z.core.i, n);
    SharedParts(states, x, cfg);
    SharedVoid(states, x, cfg);
    TimesDistributes3(Thr(t.VV()), Thr(t.Ibr()), Thr(t.Iua()), Thr(t.Iur()) + Thr(t.Iv()));
    TimesDistributes(Thr(t.VV()), Thr(t.Iur()), Thr(t.Iv()));
  }

  /** In every run that has settled, whatever happened before, the squares of the
      collective active, reactive, unbalance and void powers sum to at least the square of
      the apparent power. They sum to exactly that when every mean power reaches its floor
      by itself and every collective part is present, and in no other case. */
  lemma PowerIdentity(states: seq<CPTValue>, x: seq<Sample>, cfg: Config)
    requires cfg.Valid() && IsRun(states, x, cfg) && Settled(x, cfg.samples)
    ensures var r, n := states[|x|], cfg.samples;
            && Square(r.sh.w.a) <= PartsTotal(r.sh)
            && (Square(r.sh.w.a) == PartsTotal(r.sh) <==> PowersReachFloor(r, n) && AllPartsPresent(r.sh.core, n))
  {
    var t := ThreeOf(states[|x|], cfg.samples);
    RunIsConsistent(states, x, cfg);
    SidesFromNorms(states, x, cfg);
    SharedParts(states, x, cfg);
    SharedVoid(states, x, cfg);
    VoidIsNonNegative(states, x, cfg);
    PowersOfParts(t);
  }
}
