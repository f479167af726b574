/** The decomposition of one phase's current into active, reactive and void parts, as a
    theorem about settled runs. */
module PhaseIdentity {
  import opened Reals
  import opened Sums
  import opened MovingAverage
  import opened Integrator
  import opened CPTState
  import opened CPTRun
  import opened SteadyState
  import opened Decomposition
  import opened PowerIdentity

  function Active(states: seq<CPTValue>, k: nat): seq<real>
    requires k < 3 && |states| > 0
  {
    seq(|states| - 1, t requires 0 <= t < |states| - 1 => Phase(states[t + 1], k).c.ia)
  }

  function Reactive(states: seq<CPTValue>, k: nat): seq<real>
    requires k < 3 && |states| > 0
  {
    seq(|states| - 1, t requires 0 <= t < |states| - 1 => Phase(states[t + 1], k).c.ir)
  }

  function VoidPart(states: seq<CPTValue>, k: nat): seq<real>
    requires k < 3 && |states| > 0
  {
    seq(|states| - 1, t requires 0 <= t < |states| - 1 => Phase(states[t + 1], k).c.iv)
  }

  lemma PartsAt(states: seq<CPTValue>, x: seq<Sample>, t: nat, k: nat, cfg: Config)
    requires cfg.Valid() && IsRun(states, x, cfg) && Settled(x, cfg.samples) && k < 3
    requires |x| - cfg.samples <= t < |x|
    ensures var m := NormsOf(Phase(states[|x|], k).core, cfg.samples);
            && Active(states, k)[t] == Times(Alpha(m), x[t].V[k])
            && Reactive(states, k)[t] == Times(Beta(m), Unbiased(states, k)[t])
            && VoidPart(states, k)[t] == x[t].I[k] - Active(states, k)[t] - Reactive(states, k)[t]
  {
    SteadyPhase(states, x, t, k, cfg);
    PhaseCoefficients(states, x, k, cfg);
    RunInputs(states, x, t, k, cfg);
  }

  lemma ExpandProducts(v: real, i: real, u: real, a: real, b: real)
    ensures Times(Times(a, v), Times(b, u)) == Times(Times(a, b), Times(v, u))
    ensures Times(i - Times(a, v) - Times(b, u), Times(b, u))
         == Times(b, Times(u, i)) + Times(-Times(a, b), Times(v, u)) + Times(-Square(b), Square(u))
    ensures Times(i - Times(a, v) - Times(b, u), Times(a, v))
         == Times(a, Times(v, i)) + Times(-Square(a), Square(v)) + Times(-Times(a, b), Times(v, u))
  {
    var p, q := Times(a, v), Times(b, u);
    Reassociate(a, v, b, u);
    SquareOfProduct(a, v);
    SquareOfProduct(b, u);
    assert Times(i - p - q, q) == Times(i, q) - Times(p, q) - Square(q);
    assert Times(i - p - q, p) == Times(i, p) - Square(p) - Times(p, q);
    Commute(i, b, u);
    Commute(i, a, v);
    NegatedTimes(Times(a, b), Times(v, u));
    NegatedTimes(Square(a), Square(v));
    NegatedTimes(Square(b), Square(u));
  }

  lemma Commute(i: real, a: real, v: real)
    ensures Times(i, Times(a, v)) == Times(a, Times(v, i))
  {
  }

  lemma NegatedTimes(a: real, x: real)
    ensures Times(-a, x) == -Times(a, x)
  {
  }

  /** In the last window of a settled run the active and the reactive current of a phase
      are orthogonal, and so are the void and the reactive current; the void and the active
      current are orthogonal unless the mean power sits below its floor. */
  lemma CurrentsAreOrthogonal(states: seq<CPTValue>, x: seq<Sample>, k: nat, cfg: Config)
    requires cfg.Valid() && IsRun(states, x, cfg) && Settled(x, cfg.samples) && k < 3
    ensures var c, n := Phase(states[|x|], k).core, cfg.samples;
            var ia, ir, iv := Active(states, k), Reactive(states, k), VoidPart(states, k);
            && WindowMean(Products(ia, ir), n) == 0.0
            && WindowMean(Products(iv, ir), n) == 0.0
            && (WindowMean(Products(iv, ia), n) == 0.0 <==> WindowMean(c.p, n) >= FLOOR || WindowMean(c.v, n) == 0.0)
  {
    var c, n := Phase(states[|x|], k).core, cfg.samples;
    var m, v, u := NormsOf(c, n), Voltages(x, k), Unbiased(states, k);
    var ia, ir, iv := Active(states, k), Reactive(states, k), VoidPart(states, k);
    var a, b, vu := Alpha(m), Beta(m), Products(v, u);
    var mix1 := Mix3(Times(a, b), vu, 0.0, vu, 0.0, vu);
    var mix2 := Mix3(b, c.w, -Times(a, b), vu, -Square(b), c.ui);
    var mix3 := Mix3(a, c.p, -Square(a), c.v, -Times(a, b), vu);
    var z1, z2, z3 := Products(ia, ir), Products(iv, ir), Products(iv, ia);
    RunFills(states, x, |x|, cfg);
    forall t: nat | |x| - n <= t < |x|
      ensures MixedAt(z1, mix1, t) && MixedAt(z2, mix2, t) && MixedAt(z3, mix3, t)
    {
      ProductsAt(states, x, t, k, cfg);
    }
    MeanLinear(z1, mix1, n);
    MeanLinear(z2, mix2, n);
    MeanLinear(z3, mix3, n);
    RunSignals(states, x, k, cfg);
    SignalNorms(c, v, CurrentsOf(x, k), u, cfg);
    UnbiasedIsOrthogonal(c, v, CurrentsOf(x, k), u, cfg);
    assert WindowMean(vu, n) == 0.0;
    CrossTermsVanish(m, a, b);
  }

  lemma ProductsAt(states: seq<CPTValue>, x: seq<Sample>, t: nat, k: nat, cfg: Config)
    requires cfg.Valid() && IsRun(states, x, cfg) && Settled(x, cfg.samples) && k < 3
    requires |x| - cfg.samples <= t < |x| && Full(Phase(states[|x|], k).core, |x|)
    ensures var c := Phase(states[|x|], k).core;
            var m, vu := NormsOf(c, cfg.samples), Products(Voltages(x, k), Unbiased(states, k));
            var ia, ir, iv, a, b := Active(states, k), Reactive(states, k), VoidPart(states, k), Alpha(m), Beta(m);
            && MixedAt(Products(ia, ir), Mix3(Times(a, b), vu, 0.0, vu, 0.0, vu), t)
            && MixedAt(Products(iv, ir), Mix3(b, c.w, -Times(a, b), vu, -Square(b), c.ui), t)
            && MixedAt(Products(iv, ia), Mix3(a, c.p, -Square(a), c.v, -Times(a, b), vu), t)
  {
    var c := Phase(states[|x|], k).core;
    var m, v, u := NormsOf(c, cfg.samples), x[t].V[k], Unbiased(states, k)[t];
    PartsAt(states, x, t, k, cfg);
    RunElements(states, x, t, k, cfg);
    ExpandProducts(v, x[t].I[k], u, Alpha(m), Beta(m));
    assert Times(0.0, Times(v, u)) == 0.0 && Times(0.0, c.w[t]) == 0.0 && Times(0.0, c.p[t]) == 0.0;
  }

  lemma CrossTermsVanish(m: Norms, a: real, b: real)
    requires Consistent(m) && a == Alpha(m) && b == Beta(m)
    ensures Times(Times(a, b), 0.0) == 0.0 && Times(-Times(a, b), 0.0) == 0.0 && Times(0.0, 0.0) == 0.0
    ensures Times(0.0, m.ui) == 0.0 && Times(0.0, m.vi) == 0.0
    ensures Times(b, m.ui) + Times(-Square(b), m.uu) == 0.0
    ensures Times(a, m.vi) + Times(-Square(a), m.vv) == 0.0 <==> m.vi >= FLOOR || m.vv == 0.0
  {
    Projections(m);
    SquareTimes(a, m.vv);
    SquareTimes(b, m.uu);
    NegatedTimes(Square(a), m.vv);
    NegatedTimes(Square(b), m.uu);
    assert Times(a, m.vi) - Times(a, Delivered(m)) == Times(a, m.vi - Delivered(m)) == -Times(a, Delivered(m) - m.vi);
    PhasePythagoras(m);
  }

  function Scaled(a: real, p: seq<real>): Mix {
    Mix3(a, p, 0.0, p, 0.0, p)
  }

  lemma SquaresAt(states: seq<CPTValue>, x: seq<Sample>, t: nat, k: nat, cfg: Config)
    requires cfg.Valid() && IsRun(states, x, cfg) && Settled(x, cfg.samples) && k < 3
    requires |x| - cfg.samples <= t < |x| && Full(Phase(states[|x|], k).core, |x|)
    ensures var c := Phase(states[|x|], k).core;
            var m, ia, ir, iv := NormsOf(c, cfg.samples), Active(states, k), Reactive(states, k), VoidPart(states, k);
            && MixedAt(Products(ia, ia), Scaled(Square(Alpha(m)), c.v), t)
            && MixedAt(Products(ir, ir), Scaled(Square(Beta(m)), c.ui), t)
            && MixedAt(Products(iv, iv), Scaled(1.0, c.iv), t)
  {
    var c := Phase(states[|x|], k).core;
    var m := NormsOf(c, cfg.samples);
    PartsAt(states, x, t, k, cfg);
    RunElements(states, x, t, k, cfg);
    SquareOfProduct(Alpha(m), x[t].V[k]);
    SquareOfProduct(Beta(m), Unbiased(states, k)[t]);
    assert Times(0.0, c.v[t]) == 0.0 && Times(0.0, c.ui[t]) == 0.0 && Times(0.0, c.iv[t]) == 0.0;
  }

  lemma MeanScaled(z: seq<real>, a: real, p: seq<real>, n: nat)
    requires 0 < n <= |z| && Mixed(z, Scaled(a, p), |z| - n, |z|)
    ensures WindowMean(z, n) == Times(a, WindowMean(p, n))
  {
    MeanLinear(z, Scaled(a, p), n);
    assert Times(0.0, WindowMean(p, n)) == 0.0;
  }

  /** Pythagoras for the current of a phase: in a settled run its mean square is at most
      the sum of those of its parts, with equality exactly when the mean power reaches its
      floor by itself or the phase has no voltage. */
  lemma PhaseCurrentIdentity(states: seq<CPTValue>, x: seq<Sample>, k: nat, cfg: Config)
    requires cfg.Valid() && IsRun(states, x, cfg) && Settled(x, cfg.samples) && k < 3
    ensures var c, n := Phase(states[|x|], k).core, cfg.samples;
            var ia, ir, iv := Active(states, k), Reactive(states, k), VoidPart(states, k);
            var parts := WindowMean(Products(ia, ia), n) + WindowMean(Products(ir, ir), n)
                       + WindowMean(Products(iv, iv), n);
            && WindowMean(c.i, n) <= parts
            && (WindowMean(c.i, n) == parts <==> WindowMean(c.p, n) >= FLOOR || WindowMean(c.v, n) == 0.0)
  {
    var c, n := Phase(states[|x|], k).core, cfg.samples;
    var m := NormsOf(c, n);
    var ia, ir, iv := Active(states, k), Reactive(states, k), VoidPart(states, k);
    var a, b := Alpha(m), Beta(m);
    var mixA, mixR, mixV := Scaled(Square(a), c.v), Scaled(Square(b), c.ui), Scaled(1.0, c.iv);
    var zA, zR, zV := Products(ia, ia), Products(ir, ir), Products(iv, iv);
    RunFills(states, x, |x|, cfg);
    forall t: nat | |x| - n <= t < |x|
      ensures MixedAt(zA, mixA, t) && MixedAt(zR, mixR, t) && MixedAt(zV, mixV, t)
    {
      SquaresAt(states, x, t, k, cfg);
    }
    MeanScaled(zA, Square(a), c.v, n);
    MeanScaled(zR, Square(b), c.ui, n);
    MeanScaled(zV, 1.0, c.iv, n);
    PhaseVoid(states, x, k, cfg);
    RunSignals(states, x, k, cfg);
    SignalNorms(c, Voltages(x, k), CurrentsOf(x, k), Unbiased(states, k), cfg);
    PhasePythagoras(m);
  }
}
