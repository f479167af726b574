/** Everything that a phase reports, as a function of the samples alone. */
module Quantities {
  import opened Reals
  import opened MovingAverage
  import opened CPTState
  import opened CPTFormulas
  import opened CPTRun
  import opened SteadyState
  import opened Decomposition
  import opened PowerIdentity
  import opened Bounds
  import opened Area

  // ---------------------------------------------------------------- of the samples so far

  /** The mean over the last window. */
  function Mean(h: seq<real>, cfg: Config): real
    requires cfg.Valid()
  {
    WindowMean(h, cfg.samples)
  }

  /** A mean that is not positive counts as a ten-thousandth. */
  function Raised(mean: real): real {
    if mean <= 0.0 then 1.0 / 10000.0 else mean
  }

  function Floored(power: real): real {
    if power < 1.0 / 100000.0 then 1.0 / 100000.0 else power
  }

  function V(y: seq<Sample>, p: nat): real
    requires y != [] && p < 3
  {
    y[|y| - 1].V[p]
  }

  function I(y: seq<Sample>, p: nat): real
    requires y != [] && p < 3
  {
    y[|y| - 1].I[p]
  }

  /** The integral of the voltage up to the last sample. */
  function Integral(y: seq<Sample>, p: nat, cfg: Config): real
    requires p < 3
  {
    if y == [] then 0.0
    else
      var before := y[..|y| - 1];
      var last := if before == [] then 0.0 else V(before, p);
      Integral(before, p, cfg) + cfg.tsh * ((last + V(y, p)) / 2.0)
  }

  function Integrals(y: seq<Sample>, p: nat, cfg: Config): (h: seq<real>)
    requires p < 3
    ensures |h| == |y|
  {
    seq(|y|, t requires 0 <= t < |y| => Integral(y[..t + 1], p, cfg))
  }

  /** The integral less its mean over the last window. */
  function U(y: seq<Sample>, p: nat, cfg: Config): real
    requires cfg.Valid() && p < 3
  {
    Integral(y, p, cfg) - Mean(Integrals(y, p, cfg), cfg)
  }

  function VV(y: seq<Sample>, p: nat): (h: seq<real>)
    requires p < 3
    ensures |h| == |y|
  {
    seq(|y|, t requires 0 <= t < |y| => Square(y[t].V[p]))
  }

  function II(y: seq<Sample>, p: nat): (h: seq<real>)
    requires p < 3
    ensures |h| == |y|
  {
    seq(|y|, t requires 0 <= t < |y| => Square(y[t].I[p]))
  }

  function VI(y: seq<Sample>, p: nat): (h: seq<real>)
    requires p < 3
    ensures |h| == |y|
  {
    seq(|y|, t requires 0 <= t < |y| => Times(y[t].V[p], y[t].I[p]))
  }

  function UU(y: seq<Sample>, p: nat, cfg: Config): (h: seq<real>)
    requires cfg.Valid() && p < 3
    ensures |h| == |y|
  {
    seq(|y|, t requires 0 <= t < |y| => Square(U(y[..t + 1], p, cfg)))
  }

  function UI(y: seq<Sample>, p: nat, cfg: Config): (h: seq<real>)
    requires cfg.Valid() && p < 3
    ensures |h| == |y|
  {
    seq(|y|, t requires 0 <= t < |y| => Times(U(y[..t + 1], p, cfg), y[t].I[p]))
  }

  /** The mean power of a phase. */
  function P(y: seq<Sample>, p: nat, cfg: Config): real
    requires cfg.Valid() && p < 3
  {
    Floored(Mean(VI(y, p), cfg))
  }

  function W(y: seq<Sample>, p: nat, cfg: Config): real
    requires cfg.Valid() && p < 3
  {
    Mean(UI(y, p, cfg), cfg)
  }

  /** What three phases have of a power together, over their mean squares together. */
  function Share(a: real, b: real, c: real, aa: real, bb: real, cc: real): real {
    (a + b + c) / Raised(aa + bb + cc)
  }

  /** The balanced active current: the share of the voltage in the power of all phases. */
  function Iba(y: seq<Sample>, p: nat, cfg: Config): real
    requires cfg.Valid() && y != [] && p < 3
  {
    Times(Share(P(y, 0, cfg), P(y, 1, cfg), P(y, 2, cfg),
                Mean(VV(y, 0), cfg), Mean(VV(y, 1), cfg), Mean(VV(y, 2), cfg)), V(y, p))
  }

  /** The balanced reactive current: the same with the unbiased integral. */
  function Ibr(y: seq<Sample>, p: nat, cfg: Config): real
    requires cfg.Valid() && y != [] && p < 3
  {
    Times(Share(W(y, 0, cfg), W(y, 1, cfg), W(y, 2, cfg),
                Mean(UU(y, 0, cfg), cfg), Mean(UU(y, 1, cfg), cfg), Mean(UU(y, 2, cfg), cfg)), U(y, p, cfg))
  }

  /** The void current: what the phase's own active and reactive currents leave over. */
  function Iv(y: seq<Sample>, p: nat, cfg: Config): real
    requires cfg.Valid() && y != [] && p < 3
  {
    I(y, p) - Times(P(y, p, cfg) / Raised(Mean(VV(y, p), cfg)), V(y, p))
    - Times(W(y, p, cfg) / Raised(Mean(UU(y, p, cfg), cfg)), U(y, p, cfg))
  }

  function IbaSquares(y: seq<Sample>, p: nat, cfg: Config): (h: seq<real>)
    requires cfg.Valid() && p < 3
    ensures |h| == |y|
  {
    if y == [] then [] else IbaSquares(y[..|y| - 1], p, cfg) + [Square(Iba(y, p, cfg))]
  }

  function IbrSquares(y: seq<Sample>, p: nat, cfg: Config): (h: seq<real>)
    requires cfg.Valid() && p < 3
    ensures |h| == |y|
  {
    if y == [] then [] else IbrSquares(y[..|y| - 1], p, cfg) + [Square(Ibr(y, p, cfg))]
  }

  function IvSquares(y: seq<Sample>, p: nat, cfg: Config): (h: seq<real>)
    requires cfg.Valid() && p < 3
    ensures |h| == |y|
  {
    if y == [] then [] else IvSquares(y[..|y| - 1], p, cfg) + [Square(Iv(y, p, cfg))]
  }

  /** The root of a mean square. */
  function Root(h: seq<real>, cfg: Config): real
    requires cfg.Valid()
  {
    cfg.sqrt(Raised(Mean(h, cfg)))
  }

  lemma RootIsRms(h: seq<real>, cfg: Config)
    requires cfg.Valid()
    ensures Root(h, cfg) == Rms(h, cfg) && Root(h, cfg) > 0.0
  {
    RootIsPositive(Raised(Mean(h, cfg)), cfg);
  }

  // ---------------------------------------------------------------- the engine computes them

  lemma IntegralIs(states: seq<CPTValue>, x: seq<Sample>, t: nat, p: nat, cfg: Config)
    requires cfg.Valid() && IsRun(states, x, cfg) && t <= |x| && p < 3
    ensures IntegralAfter(states, t, p) == Integral(x[..t], p, cfg)
  {
    if t > 0 {
      IntegralIs(states, x, t - 1, p, cfg);
      AreaOfStep(states, x, t - 1, p, cfg);
      assert x[..t][..t - 1] == x[..t - 1];
    }
  }

  lemma VoltageHistory(states: seq<CPTValue>, x: seq<Sample>, p: nat, cfg: Config)
    requires cfg.Valid() && IsRun(states, x, cfg) && p < 3
    ensures var c := Phase(states[|x|], p).core;
            Full(c, |x|) && c.v == VV(x, p) && c.i == II(x, p) && c.p == VI(x, p)
  {
    var c := Phase(states[|x|], p).core;
    RunFills(states, x, |x|, cfg);
    forall t: nat | t < |x|
      ensures c.v[t] == VV(x, p)[t] && c.i[t] == II(x, p)[t] && c.p[t] == VI(x, p)[t]
    {
      RunElements(states, x, t, p, cfg);
    }
  }

  lemma IntegralHistory(states: seq<CPTValue>, x: seq<Sample>, p: nat, cfg: Config)
    requires cfg.Valid() && IsRun(states, x, cfg) && p < 3
    ensures Phase(states[|x|], p).core.itg == Integrals(x, p, cfg)
  {
    var c := Phase(states[|x|], p).core;
    RunFills(states, x, |x|, cfg);
    forall t: nat | t < |x|
      ensures c.itg[t] == Integrals(x, p, cfg)[t]
    {
      RunInputs(states, x, t, p, cfg);
      IntegralIs(states, x, t + 1, p, cfg);
    }
  }

  lemma UnbiasedIs(states: seq<CPTValue>, x: seq<Sample>, t: nat, p: nat, cfg: Config)
    requires cfg.Valid() && IsRun(states, x, cfg) && t < |x| && p < 3
    ensures Phase(states[t + 1], p).m.unbiased == U(x[..t + 1], p, cfg)
  {
    var s, y := states[..t + 2], x[..t + 1];
    RunOfPrefix(states, x, t + 1, cfg);
    IntegralHistory(s, y, p, cfg);
    IntegralIs(states, x, t + 1, p, cfg);
    RunInputs(s, y, t, p, cfg);
  }

  lemma UnbiasedHistory(states: seq<CPTValue>, x: seq<Sample>, p: nat, cfg: Config)
    requires cfg.Valid() && IsRun(states, x, cfg) && p < 3
    ensures Phase(states[|x|], p).core.ui == UU(x, p, cfg) && Phase(states[|x|], p).core.w == UI(x, p, cfg)
  {
    var c := Phase(states[|x|], p).core;
    RunFills(states, x, |x|, cfg);
    forall t: nat | t < |x|
      ensures c.ui[t] == UU(x, p, cfg)[t] && c.w[t] == UI(x, p, cfg)[t]
    {
      RunElements(states, x, t, p, cfg);
      UnbiasedIs(states, x, t, p, cfg);
    }
  }

  function NormsAt(y: seq<Sample>, p: nat, cfg: Config): Norms
    requires cfg.Valid() && p < 3
  {
    Norms(Mean(VV(y, p), cfg), Mean(II(y, p), cfg), Mean(VI(y, p), cfg), Mean(UU(y, p, cfg), cfg), W(y, p, cfg))
  }

  /** The norms of a phase are the means of its histories. */
  lemma NormsAre(states: seq<CPTValue>, x: seq<Sample>, p: nat, cfg: Config)
    requires cfg.Valid() && IsRun(states, x, cfg) && p < 3
    ensures NormsOf(Phase(states[|x|], p).core, cfg.samples) == NormsAt(x, p, cfg)
  {
    VoltageHistory(states, x, p, cfg);
    UnbiasedHistory(states, x, p, cfg);
  }

  lemma OwnIs(states: seq<CPTValue>, x: seq<Sample>, p: nat, cfg: Config)
    requires cfg.Valid() && IsRun(states, x, cfg) && x != [] && p < 3
    ensures Phase(states[|x|], p).c.iv == Iv(x, p, cfg)
  {
    NormsAre(states, x, p, cfg);
    LastUnbiased(states, x, p, cfg);
    OwnCurrents(states, x, p, cfg);
  }

  lemma ThreeAre(states: seq<CPTValue>, x: seq<Sample>, cfg: Config)
    requires cfg.Valid() && IsRun(states, x, cfg)
    ensures ThreeOf(states[|x|], cfg.samples) == Three(NormsAt(x, 0, cfg), NormsAt(x, 1, cfg), NormsAt(x, 2, cfg))
  {
    NormsAre(states, x, 0, cfg);
    NormsAre(states, x, 1, cfg);
    NormsAre(states, x, 2, cfg);
    assert Phase(states[|x|], 0) == states[|x|].x && Phase(states[|x|], 1) == states[|x|].y;
  }

  lemma BalancedOf(y: seq<Sample>, p: nat, cfg: Config)
    requires cfg.Valid() && y != [] && p < 3
    ensures var t := Three(NormsAt(y, 0, cfg), NormsAt(y, 1, cfg), NormsAt(y, 2, cfg));
            Iba(y, p, cfg) == Times(t.A(), V(y, p)) && Ibr(y, p, cfg) == Times(t.B(), U(y, p, cfg))
  {
    SharesAre(Three(NormsAt(y, 0, cfg), NormsAt(y, 1, cfg), NormsAt(y, 2, cfg)));
  }

  lemma SharesAre(t: Three)
    ensures t.A() == Share(Floored(t.x.vi), Floored(t.y.vi), Floored(t.z.vi), t.x.vv, t.y.vv, t.z.vv)
    ensures t.B() == Share(t.x.ui, t.y.ui, t.z.ui, t.x.uu, t.y.uu, t.z.uu)
  {
  }

  lemma BalancedIs(states: seq<CPTValue>, x: seq<Sample>, p: nat, cfg: Config)
    requires cfg.Valid() && IsRun(states, x, cfg) && x != [] && p < 3
    ensures Phase(states[|x|], p).c.iba == Iba(x, p, cfg) && Phase(states[|x|], p).c.ibr == Ibr(x, p, cfg)
  {
    ThreeAre(states, x, cfg);
    BalancedOf(x, p, cfg);
    LastUnbiased(states, x, p, cfg);
    BalancedCurrents(states, x, p, cfg);
  }

  lemma LastUnbiased(states: seq<CPTValue>, x: seq<Sample>, p: nat, cfg: Config)
    requires cfg.Valid() && IsRun(states, x, cfg) && x != [] && p < 3
    ensures Phase(states[|x|], p).m.unbiased == U(x, p, cfg)
  {
    UnbiasedIs(states, x, |x| - 1, p, cfg);
    assert x[..|x|] == x;
  }

  lemma CurrentsAt(states: seq<CPTValue>, x: seq<Sample>, t: nat, p: nat, cfg: Config)
    requires cfg.Valid() && IsRun(states, x, cfg) && t < |x| && p < 3
    ensures var c := Phase(states[t + 1], p).c;
            c.iba == Iba(x[..t + 1], p, cfg) && c.ibr == Ibr(x[..t + 1], p, cfg) && c.iv == Iv(x[..t + 1], p, cfg)
  {
    RunOfPrefix(states, x, t + 1, cfg);
    OwnIs(states[..t + 2], x[..t + 1], p, cfg);
    BalancedIs(states[..t + 2], x[..t + 1], p, cfg);
  }

  /** The filters of the currents hold the squares of those of the samples so far. */
  ghost predicate CurrentsIn(c: PhaseCore, y: seq<Sample>, p: nat, cfg: Config)
    requires cfg.Valid() && p < 3
  {
    c.iba == IbaSquares(y, p, cfg) && c.ibr == IbrSquares(y, p, cfg) && c.iv == IvSquares(y, p, cfg)
  }

  lemma CurrentsGrow(c: PhaseCore, d: PhaseCore, y: seq<Sample>, z: seq<Sample>, iba: real, ibr: real, iv: real,
                     p: nat, cfg: Config)
    requires cfg.Valid() && p < 3 && z != [] && y == z[..|z| - 1] && CurrentsIn(c, y, p, cfg)
    requires iba == Iba(z, p, cfg) && ibr == Ibr(z, p, cfg) && iv == Iv(z, p, cfg)
    requires d.iba == c.iba + [Square(iba)] && d.ibr == c.ibr + [Square(ibr)] && d.iv == c.iv + [Square(iv)]
    ensures CurrentsIn(d, z, p, cfg)
  {
  }

  lemma CurrentFeeds(states: seq<CPTValue>, x: seq<Sample>, t: nat, p: nat, cfg: Config)
    requires cfg.Valid() && IsRun(states, x, cfg) && t < |x| && p < 3
    ensures var c, q := Phase(states[t], p).core, Phase(states[t + 1], p);
            && q.core.iba == c.iba + [Square(q.c.iba)] && q.core.ibr == c.ibr + [Square(q.c.ibr)]
            && q.core.iv == c.iv + [Square(q.c.iv)]
  {
    RunInputs(states, x, t, p, cfg);
  }

  lemma {:induction false} CurrentsSoFar(states: seq<CPTValue>, x: seq<Sample>, t: nat, p: nat, cfg: Config)
    requires cfg.Valid() && IsRun(states, x, cfg) && t <= |x| && p < 3
    ensures CurrentsIn(Phase(states[t], p).core, x[..t], p, cfg)
  {
    if t > 0 {
      var c := Phase(states[t], p).c;
      CurrentsSoFar(states, x, t - 1, p, cfg);
      CurrentFeeds(states, x, t - 1, p, cfg);
      CurrentsAt(states, x, t - 1, p, cfg);
      assert x[..t][..t - 1] == x[..t - 1];
      CurrentsGrow(Phase(states[t - 1], p).core, Phase(states[t], p).core, x[..t - 1], x[..t], c.iba, c.ibr, c.iv, p,
                   cfg);
    }
  }

  lemma CurrentHistory(states: seq<CPTValue>, x: seq<Sample>, p: nat, cfg: Config)
    requires cfg.Valid() && IsRun(states, x, cfg) && p < 3
    ensures CurrentsIn(Phase(states[|x|], p).core, x, p, cfg)
  {
    CurrentsSoFar(states, x, |x|, p, cfg);
    assert x[..|x|] == x;
  }

  // ---------------------------------------------------------------- by name

  function Vrms(y: seq<Sample>, p: nat, cfg: Config): real
    requires cfg.Valid() && p < 3
  {
    Root(VV(y, p), cfg)
  }

  function Irms(y: seq<Sample>, p: nat, cfg: Config): real
    requires cfg.Valid() && p < 3
  {
    Root(II(y, p), cfg)
  }

  /** The apparent power. */
  function A(y: seq<Sample>, p: nat, cfg: Config): (a: real)
    requires cfg.Valid() && p < 3
    ensures a > 0.0
  {
    RootIsRms(VV(y, p), cfg);
    RootIsRms(II(y, p), cfg);
    TimesPositive(Vrms(y, p, cfg), Irms(y, p, cfg));
    Times(Vrms(y, p, cfg), Irms(y, p, cfg))
  }

  /** The reactive power. */
  function Q(y: seq<Sample>, p: nat, cfg: Config): real
    requires cfg.Valid() && p < 3
  {
    Times(Vrms(y, p, cfg), Root(IbrSquares(y, p, cfg), cfg))
  }

  function PF(y: seq<Sample>, p: nat, cfg: Config): real
    requires cfg.Valid() && p < 3
  {
    Over(P(y, p, cfg), A(y, p, cfg))
  }

  /** The second of two powers against both at a right angle. */
  function Sine(power: real, reactive: real, cfg: Config): real
    requires cfg.Valid() && power > 0.0
  {
    PositiveDivisors(power, reactive, 0.0, 1.0, 1.0, cfg);
    Over(reactive, cfg.sqrt(Square(power) + Square(reactive)))
  }

  function QF(y: seq<Sample>, p: nat, cfg: Config): real
    requires cfg.Valid() && p < 3
  {
    Sine(P(y, p, cfg), Q(y, p, cfg), cfg)
  }

  /** The void power over the apparent one, at most one. */
  function VF(y: seq<Sample>, p: nat, cfg: Config): real
    requires cfg.Valid() && p < 3
  {
    var vf := Over(Times(Vrms(y, p, cfg), Root(IvSquares(y, p, cfg), cfg)), A(y, p, cfg));
    if vf > 1.0 then 1.0 else vf
  }

  /** What a phase reports: root mean squares of voltage and current; apparent, active and
      reactive power; root mean squares of the balanced active, balanced reactive and void
      current; power, reactive and void factor. */
  datatype Report = Report(v: real, i: real, a: real, p: real, q: real, iba: real, ibr: real, iv: real,
                           pf: real, qf: real, vf: real)

  /** All of it, after the samples `y`. */
  function ReportOf(y: seq<Sample>, p: nat, cfg: Config): Report
    requires cfg.Valid() && p < 3
  {
    Report(Vrms(y, p, cfg), Irms(y, p, cfg), A(y, p, cfg), P(y, p, cfg), Q(y, p, cfg),
           Root(IbaSquares(y, p, cfg), cfg), Root(IbrSquares(y, p, cfg), cfg), Root(IvSquares(y, p, cfg), cfg),
           PF(y, p, cfg), QF(y, p, cfg), VF(y, p, cfg))
  }

  /** The root mean squares and the mean power, in every state of every run. */
  lemma MeansAre(states: seq<CPTValue>, x: seq<Sample>, p: nat, cfg: Config)
    requires cfg.Valid() && IsRun(states, x, cfg) && x != [] && p < 3
    ensures var s := Phase(states[|x|], p);
            && s.m.vRms == Vrms(x, p, cfg) && s.m.iRms == Irms(x, p, cfg) && s.m.pAvg == P(x, p, cfg)
            && s.c.ibaRms == Root(IbaSquares(x, p, cfg), cfg) && s.c.ibrRms == Root(IbrSquares(x, p, cfg), cfg)
            && s.c.ivRms == Root(IvSquares(x, p, cfg), cfg)
  {
    LastFormulas(states, x, p, cfg);
    VoltageHistory(states, x, p, cfg);
    CurrentHistory(states, x, p, cfg);
    RootIsRms(VV(x, p), cfg);
    RootIsRms(II(x, p), cfg);
    RootIsRms(IbaSquares(x, p, cfg), cfg);
    RootIsRms(IbrSquares(x, p, cfg), cfg);
    RootIsRms(IvSquares(x, p, cfg), cfg);
  }

  ghost predicate RatedAt(w: Powers, y: seq<Sample>, p: nat, iua: real, iur: real, cfg: Config)
    requires cfg.Valid() && p < 3
  {
    Rated(w, P(y, p, cfg), Vrms(y, p, cfg), Irms(y, p, cfg), Root(IbrSquares(y, p, cfg), cfg), iua, iur,
          Root(IvSquares(y, p, cfg), cfg), true, cfg)
  }

  lemma PowersAt(w: Powers, y: seq<Sample>, p: nat, iua: real, iur: real, cfg: Config)
    requires cfg.Valid() && p < 3 && RatedAt(w, y, p, iua, iur, cfg)
    ensures w.a == A(y, p, cfg) && w.q == Q(y, p, cfg)
  {
  }

  lemma PowerFactorAt(w: Powers, y: seq<Sample>, p: nat, iua: real, iur: real, cfg: Config)
    requires cfg.Valid() && p < 3 && RatedAt(w, y, p, iua, iur, cfg)
    ensures w.pf == PF(y, p, cfg)
  {
    PowersAt(w, y, p, iua, iur, cfg);
  }

  lemma ReactivityOf(w: Powers, p: real, v: real, i: real, ibr: real, iua: real, iur: real, iv: real, cfg: Config)
    requires cfg.Valid() && p > 0.0 && Rated(w, p, v, i, ibr, iua, iur, iv, true, cfg)
    ensures w.qf == Sine(p, w.q, cfg)
  {
  }

  lemma ReactivityAt(w: Powers, y: seq<Sample>, p: nat, iua: real, iur: real, cfg: Config)
    requires cfg.Valid() && p < 3 && RatedAt(w, y, p, iua, iur, cfg)
    ensures w.qf == QF(y, p, cfg)
  {
    PowersAt(w, y, p, iua, iur, cfg);
    ReactivityOf(w, P(y, p, cfg), Vrms(y, p, cfg), Irms(y, p, cfg), Root(IbrSquares(y, p, cfg), cfg), iua, iur,
                 Root(IvSquares(y, p, cfg), cfg), cfg);
  }

  lemma VoidFactorAt(w: Powers, y: seq<Sample>, p: nat, iua: real, iur: real, cfg: Config)
    requires cfg.Valid() && p < 3 && RatedAt(w, y, p, iua, iur, cfg)
    ensures w.vf == VF(y, p, cfg)
  {
    PowersAt(w, y, p, iua, iur, cfg);
  }

  /** The powers and the factors. */
  lemma RatingIs(states: seq<CPTValue>, x: seq<Sample>, p: nat, cfg: Config)
    requires cfg.Valid() && IsRun(states, x, cfg) && x != [] && p < 3
    ensures var w := Phase(states[|x|], p).w;
            && w.a == A(x, p, cfg) && w.q == Q(x, p, cfg) && w.pf == PF(x, p, cfg)
            && w.qf == QF(x, p, cfg) && w.vf == VF(x, p, cfg)
  {
    LastFormulas(states, x, p, cfg);
    MeansAre(states, x, p, cfg);
    var c := Phase(states[|x|], p).c;
    var w := Phase(states[|x|], p).w;
    PowersAt(w, x, p, c.iuaRms, c.iurRms, cfg);
    PowerFactorAt(w, x, p, c.iuaRms, c.iurRms, cfg);
    ReactivityAt(w, x, p, c.iuaRms, c.iurRms, cfg);
    VoidFactorAt(w, x, p, c.iuaRms, c.iurRms, cfg);
  }

  ghost predicate Holds(s: PhaseState, r: Report) {
    r == Report(s.m.vRms, s.m.iRms, s.w.a, s.m.pAvg, s.w.q, s.c.ibaRms, s.c.ibrRms, s.c.ivRms, s.w.pf, s.w.qf, s.w.vf)
  }

  lemma LastReport(states: seq<CPTValue>, x: seq<Sample>, p: nat, cfg: Config)
    requires cfg.Valid() && IsRun(states, x, cfg) && x != [] && p < 3
    ensures Holds(Phase(states[|x|], p), ReportOf(x, p, cfg))
  {
    MeansAre(states, x, p, cfg);
    RatingIs(states, x, p, cfg);
  }

  /** Every state of every run holds it for every phase, from the first sample on. */
  lemma PhaseReports(states: seq<CPTValue>, x: seq<Sample>, t: nat, p: nat, cfg: Config)
    requires cfg.Valid() && IsRun(states, x, cfg) && 0 < t <= |x| && p < 3
    ensures Holds(Phase(states[t], p), ReportOf(x[..t], p, cfg))
  {
    RunOfPrefix(states, x, t, cfg);
    LastReport(states[..t + 1], x[..t], p, cfg);
  }
}
