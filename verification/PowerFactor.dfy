/** The power factors over all runs, by the Cauchy-Schwarz inequality on the filters. */
module PowerFactor {
  import opened Reals
  import opened Sums
  import opened MovingAverage
  import opened CPTState
  import opened CPTRun
  import opened SteadyState
  import opened Decomposition
  import opened PowerIdentity

  /** The mean of the squares of `v - l*i` over the window, from the norms. */
  function Residual(m: Norms, l: real): real {
    m.vv - 2.0 * Times(l, m.vi) + Times(Square(l), m.ii)
  }

  function Differences(v: seq<real>, i: seq<real>, l: real): seq<real>
    requires |v| == |i|
  {
    seq(|v|, t requires 0 <= t < |v| => Square(v[t] - Times(l, i[t])))
  }

  lemma ExpandDifference(v: real, i: real, l: real)
    ensures Square(v - Times(l, i)) ==
        Times(1.0, Square(v)) + Times(-2.0 * l, Times(v, i)) + Times(Square(l), Square(i))
  {
    SquareOfProduct(l, i);
    ScaledTimes(l, i, v);
    assert Square(v - Times(l, i)) == Square(v) - 2.0 * Times(Times(l, i), v) + Square(Times(l, i));
    assert Times(i, v) == Times(v, i);
  }

  /** A window of squares has a non-negative mean, for every multiplier. */
  lemma ResidualNonNegative(c: PhaseCore, v: seq<real>, i: seq<real>, u: seq<real>, l: real, cfg: Config)
    requires cfg.Valid() && Signals(c, v, i, u, cfg)
    ensures Residual(NormsOf(c, cfg.samples), l) >= 0.0
  {
    var n := cfg.samples;
    var lo := if |v| <= n then 0 else |v| - n;
    var z, mix := Differences(v, i, l), Mix3(1.0, c.v, -2.0 * l, c.p, Square(l), c.i);
    forall t: nat | t < |v|
      ensures MixedAt(z, mix, t) && z[t] >= 0.0
    {
      assert SignalAt(c, v, i, u, t, cfg);
      ExpandDifference(v[t], i[t], l);
      SquareSign(v[t] - Times(l, i[t]));
      assert Times(0.0, c.v[t]) == 0.0;
    }
    SumLinear(z, mix, lo, |v|);
    SumNonNegative(z, lo, |v|);
    assert Times(0.0, LastSum(c.v, n)) == 0.0;
    MeanOfCombination(LastSum(c.v, n), LastSum(c.p, n), LastSum(c.i, n), l, n);
  }

  lemma MeanOfCombination(vv: real, vi: real, ii: real, l: real, n: nat)
    requires 0 < n && Times(1.0, vv) + Times(-2.0 * l, vi) + Times(Square(l), ii) >= 0.0
    ensures vv / n as real - 2.0 * Times(l, vi / n as real) + Times(Square(l), ii / n as real) >= 0.0
  {
    var s := Times(1.0, vv) + Times(-2.0 * l, vi) + Times(Square(l), ii);
    MeanOfScaled(1.0, vv, n);
    MeanOfScaled(-2.0 * l, vi, n);
    MeanOfScaled(Square(l), ii, n);
    assert s / n as real >= 0.0;
    assert Times(-2.0 * l, vi / n as real) == -2.0 * Times(l, vi / n as real);
  }

  /** Cauchy-Schwarz, from the non-negativity of a quadratic at its vertex. */
  lemma Vertex(vv: real, vi: real, ii: real)
    requires ii > 0.0 && vv - 2.0 * Times(vi / ii, vi) + Times(Square(vi / ii), ii) >= 0.0
    ensures Square(vi) <= Times(vv, ii)
  {
    var l := vi / ii;
    DivideBack(vi, ii);
    SquareTimes(l, ii);
    assert Times(l, Times(l, ii)) == Times(l, vi);
    assert vv - Times(l, vi) >= 0.0;
    assert Times(vv - Times(l, vi), ii) == Times(vv, ii) - Times(Times(l, ii), vi);
    if vv - Times(l, vi) > 0.0 {
      TimesPositive(vv - Times(l, vi), ii);
    } else {
      assert Times(0.0, ii) == 0.0;
    }
  }

  lemma Ordered(p: real, a: real)
    requires a > 0.0 && Square(p) <= Square(a)
    ensures p <= a
  {
    assert Times(p - a, p + a) == Square(p) - Square(a);
    if p > a {
      TimesPositive(p - a, p + a);
    }
  }

  /** Mean power against the product of the floored mean squares. */
  lemma Bounded(vv: real, vi: real, ii: real)
    requires vv >= 0.0 && ii >= 0.0 && (ii == 0.0 ==> vi == 0.0)
    requires ii > 0.0 ==> vv - 2.0 * Times(vi / ii, vi) + Times(Square(vi / ii), ii) >= 0.0
    ensures Square(vi) <= Times(Thr(vv), Thr(ii))
  {
    TimesPositive(Thr(vv), Thr(ii));
    if ii == 0.0 {
      assert Square(0.0) == 0.0;
    } else {
      Vertex(vv, vi, ii);
      assert Times(Thr(vv), ii) == Times(vv, ii) + Times(Thr(vv) - vv, ii);
      if Thr(vv) > vv {
        TimesPositive(Thr(vv) - vv, ii);
      } else {
        assert Times(0.0, ii) == 0.0;
      }
    }
  }

  lemma RatioAgainstOne(p: real, a: real)
    requires p > 0.0 && a > 0.0
    ensures Over(p, a) > 0.0 && (Over(p, a) <= 1.0 <==> p <= a)
  {
    DivideBack(p, a);
    var q := p / a;
    if q > 1.0 {
      TimesPositive(q - 1.0, a);
      assert Times(q - 1.0, a) == Times(q, a) - a;
    } else if q < 1.0 {
      TimesPositive(1.0 - q, a);
      assert Times(1.0 - q, a) == a - Times(q, a);
    }
  }

  lemma OrderedSquares(p: real, a: real)
    requires p > 0.0 && a > 0.0
    ensures p <= a <==> Square(p) <= Square(a)
  {
    if p <= a {
      assert Square(a) - Square(p) == Times(a - p, a + p);
      if p < a {
        TimesPositive(a - p, a + p);
      }
    } else {
      StrictlyOrdered(p, a);
    }
  }

  lemma StrictlyOrdered(p: real, a: real)
    requires p > a > 0.0
    ensures Square(p) > Square(a)
  {
    if Square(p) <= Square(a) {
      Ordered(p, a);
    }
  }

  /** In every state of every run the power factor of a phase is positive, and it is at most
      one exactly when the product of the thresholded mean squares of voltage and current
      reaches the square of the floor of the mean power. A mean power that reaches its floor
      by itself is enough for that. */
  lemma PhasePowerFactor(states: seq<CPTValue>, x: seq<Sample>, k: nat, cfg: Config)
    requires cfg.Valid() && IsRun(states, x, cfg) && k < 3 && x != []
    ensures var r, m := Phase(states[|x|], k), NormsOf(Phase(states[|x|], k).core, cfg.samples);
            && r.w.pf > 0.0
            && (r.w.pf <= 1.0 <==> Times(Thr(m.vv), Thr(m.ii)) >= Square(FLOOR))
            && (m.vi >= FLOOR ==> r.w.pf <= 1.0)
  {
    var r := Phase(states[|x|], k);
    var m := NormsOf(r.core, cfg.samples);
    RunInputs(states, x, |x| - 1, k, cfg);
    RatioAgainstOne(r.m.pAvg, r.w.a);
    SquareOfProduct(r.m.vRms, r.m.iRms);
    assert Square(r.w.a) == Times(Thr(m.vv), Thr(m.ii));
    OrderedSquares(r.m.pAvg, r.w.a);
    PhaseBound(states, x, k, cfg);
  }

  lemma PhaseResidual(states: seq<CPTValue>, x: seq<Sample>, k: nat, l: real, cfg: Config)
    requires cfg.Valid() && IsRun(states, x, cfg) && k < 3
    ensures Residual(NormsOf(Phase(states[|x|], k).core, cfg.samples), l) >= 0.0
  {
    RunSignals(states, x, k, cfg);
    ResidualNonNegative(Phase(states[|x|], k).core, Voltages(x, k), CurrentsOf(x, k), Unbiased(states, k), l, cfg);
  }

  lemma PhaseBound(states: seq<CPTValue>, x: seq<Sample>, k: nat, cfg: Config)
    requires cfg.Valid() && IsRun(states, x, cfg) && k < 3 && x != []
    ensures var m := NormsOf(Phase(states[|x|], k).core, cfg.samples);
            Square(m.vi) <= Times(Thr(m.vv), Thr(m.ii))
  {
    var c := Phase(states[|x|], k).core;
    var m := NormsOf(c, cfg.samples);
    RunSignals(states, x, k, cfg);
    SignalNorms(c, Voltages(x, k), CurrentsOf(x, k), Unbiased(states, k), cfg);
    if m.ii > 0.0 {
      PhaseResidual(states, x, k, m.vi / m.ii, cfg);
    }
    Bounded(m.vv, m.vi, m.ii);
  }

  lemma CollectiveRating(states: seq<CPTValue>, x: seq<Sample>, cfg: Config)
    requires cfg.Valid() && IsRun(states, x, cfg) && x != []
    ensures var s, t := states[|x|].sh, ThreeOf(states[|x|], cfg.samples);
            && s.w.a > 0.0 && s.w.pf == Over(t.P(), s.w.a)
            && Square(s.w.a) == Times(Thr(t.VV()), Thr(t.II()))
  {
    var s := states[|x|].sh;
    SharedCoefficients(states, x, cfg);
    FormulasAt(states, x, |x| - 1, cfg);
    SquareOfProduct(s.m.vRms, s.m.iRms);
  }

  /** The collective power factor is positive in every state of every run, and it is at most
      one exactly when the total of the floored mean powers, squared, is at most the product of
      the thresholded collective mean squares. Mean powers that all reach their floor by
      themselves are enough for that. */
  lemma CollectivePowerFactor(states: seq<CPTValue>, x: seq<Sample>, cfg: Config)
    requires cfg.Valid() && IsRun(states, x, cfg) && x != []
    ensures var s, t := states[|x|].sh, ThreeOf(states[|x|], cfg.samples);
            && s.w.pf > 0.0
            && (s.w.pf <= 1.0 <==> Square(t.P()) <= ApparentSquared(t))
            && (PowersReachFloor(states[|x|], cfg.samples) ==> s.w.pf <= 1.0)
  {
    var a, t := states[|x|].sh.w.a, ThreeOf(states[|x|], cfg.samples);
    CollectiveRating(states, x, cfg);
    RatioAgainstOne(t.P(), a);
    OrderedSquares(t.P(), a);
    CollectiveBound(states, x, cfg);
  }

  lemma CollectiveBound(states: seq<CPTValue>, x: seq<Sample>, cfg: Config)
    requires cfg.Valid() && IsRun(states, x, cfg) && x != []
    ensures var t := ThreeOf(states[|x|], cfg.samples);
            Square(t.x.vi + t.y.vi + t.z.vi) <= Times(Thr(t.VV()), Thr(t.II()))
  {
    var t := ThreeOf(states[|x|], cfg.samples);
    var vi := t.x.vi + t.y.vi + t.z.vi;
    RunIsConsistent(states, x, cfg);
    if t.II() > 0.0 {
      var l := vi / t.II();
      PhaseResidual(states, x, 0, l, cfg);
      PhaseResidual(states, x, 1, l, cfg);
      PhaseResidual(states, x, 2, l, cfg);
      TimesDistributes3(l, t.x.vi, t.y.vi, t.z.vi);
      TimesDistributes3(Square(l), t.x.ii, t.y.ii, t.z.ii);
    }
    Bounded(t.VV(), vi, t.II());
  }

  /** The same voltage and current in every phase. */
  function Uniform(e: real): Sample {
    PAC([e, e, e], [e, e, e])
  }

  lemma UniformMeans(states: seq<CPTValue>, e: real, k: nat, cfg: Config)
    requires cfg.Valid() && e > 0.0 && IsRun(states, [Uniform(e)], cfg) && k < 3
    ensures var m, q := NormsOf(Phase(states[1], k).core, cfg.samples), Square(e) / cfg.samples as real;
            m.vv == m.ii == m.vi == q && 0.0 < q <= Square(e)
  {
    var c := Phase(states[1], k).core;
    RunInputs(states, [Uniform(e)], 0, k, cfg);
    assert c.v == [Square(e)] && c.i == [Square(e)] && c.p == [Square(e)];
    SquareSign(e);
    OneInput(Square(e), cfg.samples);
  }

  lemma OneInput(x: real, n: nat)
    requires 0 < n && x > 0.0
    ensures WindowMean([x], n) == x / n as real && 0.0 < x / n as real <= x
  {
    assert Sum([x], 0, 0) == 0.0;
    assert Sum([x], 0, 1) == x;
  }

  /** One millivolt and one milliampere, in every phase. */
  const FAINT: Sample := Uniform(0.001)

  /** The floors of the mean powers break the bound, whatever the length of the window: after a
      single faint sample every phase, and the whole, reports a power factor above one. */
  lemma FaintSignalExceedsOne(states: seq<CPTValue>, k: nat, cfg: Config)
    requires cfg.Valid() && IsRun(states, [FAINT], cfg) && k < 3
    ensures Phase(states[1], k).w.pf > 1.0 && states[1].sh.w.pf > 1.0
  {
    var q, t := Square(0.001) / cfg.samples as real, ThreeOf(states[1], cfg.samples);
    assert Square(0.001) == 0.000001;
    UniformMeans(states, 0.001, k, cfg);
    UniformMeans(states, 0.001, 0, cfg);
    UniformMeans(states, 0.001, 1, cfg);
    UniformMeans(states, 0.001, 2, cfg);
    PhasePowerFactor(states, [FAINT], k, cfg);
    CollectivePowerFactor(states, [FAINT], cfg);
    assert t.P() == 3.0 * FLOOR && t.VV() == t.II() == 3.0 * q;
    StrictlyOrdered(FLOOR, q);
    StrictlyOrdered(3.0 * FLOOR, 3.0 * q);
  }

  lemma SquaresEqual(a: real, q: real)
    requires a > 0.0 && q > 0.0 && Square(a) == Square(q)
    ensures a == q
  {
    Ordered(a, q);
    Ordered(q, a);
  }

  lemma UniformRating(states: seq<CPTValue>, e: real, k: nat, cfg: Config)
    requires cfg.Valid() && e > 0.0 && IsRun(states, [Uniform(e)], cfg) && k < 3 && Square(e) < FLOOR
    ensures var q := Square(e) / cfg.samples as real; q > 0.0 && Phase(states[1], k).w.pf == Over(FLOOR, q)
  {
    var r, q := Phase(states[1], k), Square(e) / cfg.samples as real;
    UniformMeans(states, e, k, cfg);
    RunInputs(states, [Uniform(e)], 0, k, cfg);
    SquareOfProduct(r.m.vRms, r.m.iRms);
    assert Square(r.w.a) == Times(q, q);
    SquaresEqual(r.w.a, q);
  }

  lemma QuotientAtLeast(f: real, q: real, b: real)
    requires q > 0.0 && Times(b, q) <= f
    ensures Over(f, q) >= b
  {
    DivideBack(f, q);
    if f / q < b {
      TimesPositive(b - f / q, q);
    }
  }

  /** There is no bound for the power factor over all real samples: after a single sample that
      is faint enough it exceeds any. */
  lemma PowerFactorIsUnbounded(states: seq<CPTValue>, e: real, b: real, k: nat, cfg: Config)
    requires cfg.Valid() && e > 0.0 && b > 0.0 && IsRun(states, [Uniform(e)], cfg) && k < 3
    requires Square(e) < FLOOR && Times(b, Square(e)) <= FLOOR
    ensures Phase(states[1], k).w.pf >= b
  {
    var q := Square(e) / cfg.samples as real;
    UniformMeans(states, e, k, cfg);
    UniformRating(states, e, k, cfg);
    assert Times(b, Square(e)) - Times(b, q) == Times(b, Square(e) - q);
    if q < Square(e) {
      TimesPositive(b, Square(e) - q);
    }
    QuotientAtLeast(FLOOR, q, b);
  }
}
