/** The steady state: once the samples have been periodic with zero-mean voltages for
    three windows, every coefficient of the decomposition is constant over the last one. */
module SteadyState {
  import opened Reals
  import opened Sums
  import opened MovingAverage
  import opened Integrator
  import opened CPTState
  import opened CPTRun

  /** How many samples the three nested windows need. */
  function Settling(n: nat): nat
    requires 0 < n
  {
    3 * n - 2
  }

  function Voltages(x: seq<Sample>, k: nat): seq<real>
    requires k < 3
  {
    seq(|x|, t requires 0 <= t < |x| => x[t].V[k])
  }

  function CurrentsOf(x: seq<Sample>, k: nat): seq<real>
    requires k < 3
  {
    seq(|x|, t requires 0 <= t < |x| => x[t].I[k])
  }

  /** Where the settled part of a signal of length `length` begins. */
  function Begin(length: nat, n: nat): nat
    requires 0 < n && Settling(n) <= length
  {
    length - Settling(n)
  }

  /** The samples have ended in periodic, zero-mean voltages and periodic currents, for
      long enough; whatever came before is arbitrary. */
  ghost predicate Settled(x: seq<Sample>, n: nat)
    requires 0 < n
  {
    && |x| >= Settling(n)
    && forall k: nat :: k < 3 ==> PhaseSettled(Voltages(x, k), CurrentsOf(x, k), n)
  }

  ghost predicate PhaseSettled(v: seq<real>, i: seq<real>, n: nat)
    requires 0 < n
  {
    && |v| == |i| >= Settling(n)
    && var from := Begin(|v|, n);
       Periodic(v, n, from) && Periodic(i, n, from) && Sum(v, from, from + n) == 0.0
  }

  /** The filter inputs of one phase as signals of the voltage, the current and the
      unbiased integral. */
  ghost predicate Signals(c: PhaseCore, v: seq<real>, i: seq<real>, u: seq<real>, cfg: Config)
    requires cfg.Valid()
  {
    && Full(c, |v|) && |i| == |v| && |u| == |v|
    && Trapezoid(c.itg, v, cfg.HalfStep())
    && forall t: nat :: t < |v| ==> SignalAt(c, v, i, u, t, cfg)
  }

  ghost predicate SignalAt(c: PhaseCore, v: seq<real>, i: seq<real>, u: seq<real>, t: nat, cfg: Config)
    requires cfg.Valid() && Full(c, |v|) && |i| == |v| && |u| == |v| && t < |v|
  {
    && c.v[t] == Square(v[t]) && c.i[t] == Square(i[t]) && c.p[t] == Times(v[t], i[t])
    && u[t] == c.itg[t] - PlainMean(c.itg[..t + 1], cfg)
    && c.ui[t] == Square(u[t]) && c.w[t] == Times(u[t], i[t])
  }

  /** Over `[lo, |u|)` the sequence `u` is `j` less a constant. */
  ghost predicate Offset(u: seq<real>, j: seq<real>, bias: real, lo: nat) {
    |u| == |j| && forall t: nat :: lo <= t < |u| ==> OffsetAt(u, j, bias, t)
  }

  ghost predicate OffsetAt(u: seq<real>, j: seq<real>, bias: real, t: nat)
    requires t < |u| == |j|
  {
    u[t] == j[t] - bias
  }

  /** A window that lies in the periodic part has the same sum as the last one. */
  lemma WindowIsLast(h: seq<real>, n: nat, from: nat, t: nat)
    requires 0 < n && Periodic(h, n, from) && from + n <= t + 1 <= |h|
    ensures LastSum(h[..t + 1], n) == LastSum(h, n)
  {
    SumOfPrefix(h, t + 1, t + 1 - n, t + 1);
    PeriodicWindow(h, n, from, t + 1 - n, |h| - n);
  }

  /** The unbiased integral becomes periodic one window after the voltage. */
  lemma UnbiasedIsPeriodic(c: PhaseCore, v: seq<real>, i: seq<real>, u: seq<real>, cfg: Config)
    requires cfg.Valid() && Signals(c, v, i, u, cfg) && PhaseSettled(v, i, cfg.samples)
    ensures Periodic(u, cfg.samples, |v| - 2 * cfg.samples + 1)
    ensures Offset(u, c.itg, WindowMean(c.itg, cfg.samples), |v| - 2 * cfg.samples + 1)
  {
    var n, from := cfg.samples, Begin(|v|, cfg.samples);
    IntegralIsPeriodic(c.itg, v, cfg.HalfStep(), n, from);
    var bias := WindowMean(c.itg, n);
    forall t: nat | from + n - 1 <= t < |v|
      ensures OffsetAt(u, c.itg, bias, t)
    {
      WindowIsLast(c.itg, n, from, t);
      assert SignalAt(c, v, i, u, t, cfg);
    }
    forall k: nat | from + n - 1 <= k && k + n < |u|
      ensures Repeats(u, n, k)
    {
      assert Repeats(c.itg, n, k) && OffsetAt(u, c.itg, bias, k) && OffsetAt(u, c.itg, bias, k + n);
    }
  }

  /** Every filter that the coefficients depend on has a periodic input. */
  lemma FiltersArePeriodic(c: PhaseCore, v: seq<real>, i: seq<real>, u: seq<real>, cfg: Config)
    requires cfg.Valid() && Signals(c, v, i, u, cfg) && PhaseSettled(v, i, cfg.samples)
    ensures Periodic(c.v, cfg.samples, Begin(|v|, cfg.samples))
    ensures Periodic(c.i, cfg.samples, Begin(|v|, cfg.samples))
    ensures Periodic(c.p, cfg.samples, Begin(|v|, cfg.samples))
    ensures Periodic(c.ui, cfg.samples, |v| - 2 * cfg.samples + 1)
    ensures Periodic(c.w, cfg.samples, |v| - 2 * cfg.samples + 1)
  {
    var n, from := cfg.samples, Begin(|v|, cfg.samples);
    UnbiasedIsPeriodic(c, v, i, u, cfg);
    forall k: nat | from <= k && k + n < |v|
      ensures Repeats(c.v, n, k) && Repeats(c.i, n, k) && Repeats(c.p, n, k)
      ensures from + n - 1 <= k ==> Repeats(c.ui, n, k) && Repeats(c.w, n, k)
    {
      assert SignalAt(c, v, i, u, k, cfg) && SignalAt(c, v, i, u, k + n, cfg);
      assert Repeats(v, n, k) && Repeats(i, n, k);
      assert from + n - 1 <= k ==> Repeats(u, n, k);
    }
  }

  lemma {:induction false} UnbiasedProducts(v: seq<real>, j: seq<real>, u: seq<real>, bias: real, lo: nat, hi: nat)
    requires lo <= hi <= |v| == |j| == |u| && Offset(u, j, bias, lo)
    ensures Sum(Products(v, u), lo, hi) == Sum(Products(j, v), lo, hi) - Times(bias, Sum(v, lo, hi))
    decreases hi
  {
    if lo < hi {
      UnbiasedProducts(v, j, u, bias, lo, hi - 1);
      assert OffsetAt(u, j, bias, hi - 1);
      assert Times(v[hi - 1], j[hi - 1] - bias) == Times(j[hi - 1], v[hi - 1]) - Times(bias, v[hi - 1]);
      TimesDistributes(bias, Sum(v, lo, hi - 1), v[hi - 1]);
    }
  }

  lemma BiasDoesNotMatter(v: seq<real>, j: seq<real>, u: seq<real>, h: real, bias: real, n: nat, from: nat)
    requires Trapezoid(j, v, h) && Periodic(v, n, from) && h > 0.0 && |u| == |v|
    requires 0 < n && from + n <= |v| && (n == 1 || from + n < |v|) && Sum(v, from, from + n) == 0.0
    requires n <= |v| && Offset(u, j, bias, |v| - n)
    ensures Sum(Products(v, u), |v| - n, |v|) == 0.0
  {
    UnbiasedProducts(v, j, u, bias, |v| - n, |v|);
    IntegralIsOrthogonal(j, v, h, n, from, |v| - n);
    PeriodicWindow(v, n, from, from, |v| - n);
    assert Times(bias, 0.0) == 0.0;
  }

  /** Voltage and unbiased integral are orthogonal over the last window. */
  lemma UnbiasedIsOrthogonal(c: PhaseCore, v: seq<real>, i: seq<real>, u: seq<real>, cfg: Config)
    requires cfg.Valid() && Signals(c, v, i, u, cfg) && PhaseSettled(v, i, cfg.samples)
    ensures Sum(Products(v, u), |v| - cfg.samples, |v|) == 0.0
  {
    UnbiasedIsPeriodic(c, v, i, u, cfg);
    var bias := WindowMean(c.itg, cfg.samples);
    assert Offset(u, c.itg, bias, |v| - cfg.samples);
    BiasDoesNotMatter(v, c.itg, u, cfg.HalfStep(), bias, cfg.samples, Begin(|v|, cfg.samples));
  }

  /** The unbiased integral of phase `k` at every instant of a run. */
  function Unbiased(states: seq<CPTValue>, k: nat): seq<real>
    requires k < 3 && |states| > 0
  {
    seq(|states| - 1, t requires 0 <= t < |states| - 1 => Phase(states[t + 1], k).m.unbiased)
  }

  lemma RunSignalAt(states: seq<CPTValue>, x: seq<Sample>, t: nat, k: nat, cfg: Config)
    requires cfg.Valid() && IsRun(states, x, cfg) && k < 3 && t < |x|
    requires Full(Phase(states[|x|], k).core, |x|)
    ensures SignalAt(Phase(states[|x|], k).core, Voltages(x, k), CurrentsOf(x, k), Unbiased(states, k), t, cfg)
  {
    RunInputs(states, x, t, k, cfg);
  }

  lemma RunTrapezoidAt(states: seq<CPTValue>, x: seq<Sample>, t: nat, k: nat, cfg: Config)
    requires cfg.Valid() && IsRun(states, x, cfg) && k < 3 && t + 1 < |x|
    requires Full(Phase(states[|x|], k).core, |x|)
    ensures TrapezoidAt(Phase(states[|x|], k).core.itg, Voltages(x, k), cfg.HalfStep(), t + 1)
  {
    var c, v, h := Phase(states[|x|], k).core, Voltages(x, k), cfg.HalfStep();
    RunInputs(states, x, t, k, cfg);
    assert c.itg[t] == Phase(states[t + 1], k).core.integral && Phase(states[t + 1], k).core.lastInput == v[t];
    RunInputs(states, x, t + 1, k, cfg);
    assert c.itg[t + 1] == c.itg[t] + Times(h, v[t + 1] + v[t]);
  }

  /** In every run the filters of each phase hold the signals of that phase. */
  lemma RunSignals(states: seq<CPTValue>, x: seq<Sample>, k: nat, cfg: Config)
    requires cfg.Valid() && IsRun(states, x, cfg) && k < 3
    ensures Signals(Phase(states[|x|], k).core, Voltages(x, k), CurrentsOf(x, k), Unbiased(states, k), cfg)
  {
    var c, v, i, u, h := Phase(states[|x|], k).core, Voltages(x, k), CurrentsOf(x, k), Unbiased(states, k),
                               cfg.HalfStep();
    RunFills(states, x, |x|, cfg);
    forall t: nat | t < |x|
      ensures SignalAt(c, v, i, u, t, cfg)
    {
      RunSignalAt(states, x, t, k, cfg);
    }
    forall t: nat | 0 < t < |x|
      ensures TrapezoidAt(c.itg, v, h, t)
    {
      RunTrapezoidAt(states, x, t - 1, k, cfg);
    }
  }
}
