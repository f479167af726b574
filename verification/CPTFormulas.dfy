/** The formulas of the Conservative Power Theory, and the proof that an update computes
    them from any state whatever. */
module CPTFormulas {
  import opened Reals
  import opened CPTState

  /** What one phase holds after an update, as formulas over what it carried over from
      before: no guard, no order of evaluation, and nothing of its other fields. */
  ghost predicate Measures(c: PhaseCore, r: PhaseState, v: real, i: real, cfg: Config)
    requires cfg.Valid()
  {
    var u := r.m.unbiased;
    && r.core.v == c.v + [Square(v)] && r.m.vPow2 == Square(v) && r.m.vRms == Rms(r.core.v, cfg)
    && r.core.i == c.i + [Square(i)] && r.m.iPow2 == Square(i) && r.m.iRms == Rms(r.core.i, cfg)
    && r.core.lastInput == v && r.core.integral == c.integral + Times(cfg.tsh / 2.0, v + c.lastInput)
    && r.core.itg == c.itg + [r.core.integral] && u == r.core.integral - PlainMean(r.core.itg, cfg)
    && r.core.ui == c.ui + [Square(u)] && r.m.unbiasedPow2 == Square(u) && r.m.unbiasedRms == Rms(r.core.ui, cfg)
    && r.core.p == c.p + [Times(v, i)] && r.m.pInst == Times(v, i) && r.m.pAvg == AtLeastFloor(PlainMean(r.core.p, cfg))
    && r.core.w == c.w + [Times(u, i)] && r.m.wInst == Times(u, i) && r.m.wAvg == PlainMean(r.core.w, cfg)
  }

  /** The collective averages that the decomposition of the currents depends on. */
  ghost predicate SameSharedCoefficients(a: SharedMeasures, b: SharedMeasures) {
    a.vRms == b.vRms && a.pAvg == b.pAvg && a.uiRms == b.uiRms && a.wAvg == b.wAvg
  }

  ghost predicate Split(c: PhaseCore, r: PhaseState, shared: SharedMeasures, v: real, i: real, cfg: Config)
    requires cfg.Valid()
  {
    && r.m.vRms > 0.0 && r.m.unbiasedRms > 0.0 && shared.vRms > 0.0 && shared.uiRms > 0.0
    && r.c.ia == Times(PerSquare(r.m.pAvg, r.m.vRms), v)
    && r.c.ir == Times(PerSquare(r.m.wAvg, r.m.unbiasedRms), r.m.unbiased)
    && r.c.iba == Times(PerSquare(shared.pAvg, shared.vRms), v)
    && r.c.ibr == Times(PerSquare(shared.wAvg, shared.uiRms), r.m.unbiased)
    && r.c.iv == i - r.c.ia - r.c.ir
    && r.c.iua == r.c.ia - r.c.iba && r.c.iur == r.c.ir - r.c.ibr && r.c.iu == r.c.iua + r.c.iur
    && r.core.iv == c.iv + [Square(r.c.iv)] && r.c.ivRms == Rms(r.core.iv, cfg)
    && r.core.iba == c.iba + [Square(r.c.iba)] && r.c.ibaRms == Rms(r.core.iba, cfg)
    && r.core.ibr == c.ibr + [Square(r.c.ibr)] && r.c.ibrRms == Rms(r.core.ibr, cfg)
    && r.c.iuaRms == Square(r.c.iua) && r.c.iurRms == Square(r.c.iur)
  }

  /** Powers and factors from the mean power and the root mean squares. */
  ghost predicate Rated(w: Powers, p: real, v: real, i: real, ibr: real, iua: real, iur: real, iv: real,
                        clipped: bool, cfg: Config)
    requires cfg.Valid()
  {
    var pq := Square(p) + Square(w.q);
    && w.a == Times(v, i) && w.q == Times(v, ibr) && w.na == Times(v, iua) && w.nr == Times(v, iur)
    && w.n == cfg.sqrt(Square(w.na) + Square(w.nr)) && w.v == Times(v, iv)
    && w.a > 0.0 && cfg.sqrt(pq) > 0.0 && cfg.sqrt(pq + Square(w.n)) > 0.0
    && w.pf == Over(p, w.a) && w.vf == (if clipped && Over(w.v, w.a) > 1.0 then 1.0 else Over(w.v, w.a))
    && w.qf == Over(w.q, cfg.sqrt(pq)) && w.nf == Over(w.n, cfg.sqrt(pq + Square(w.n)))
  }

  ghost predicate PhaseFormulas(c: PhaseCore, r: PhaseState, shared: SharedMeasures, v: real, i: real, cfg: Config)
    requires cfg.Valid()
  {
    && Measures(c, r, v, i, cfg)
    && Split(c, r, shared, v, i, cfg)
    && Rated(r.w, r.m.pAvg, r.m.vRms, r.m.iRms, r.c.ibrRms, r.c.iuaRms, r.c.iurRms, r.c.ivRms, true, cfg)
  }

  /** What the collective part holds after an update. */
  ghost predicate Collective(c: SharedCore, r: CPTValue, cfg: Config)
    requires cfg.Valid()
  {
    var x, y, z, core, m := r.x, r.y, r.z, r.sh.core, r.sh.m;
    && core.v == c.v + [x.m.vPow2 + y.m.vPow2 + z.m.vPow2] && m.vRms == Rms(core.v, cfg)
    && core.i == c.i + [x.m.iPow2 + y.m.iPow2 + z.m.iPow2] && m.iRms == Rms(core.i, cfg)
    && core.ui == c.ui + [x.m.unbiasedPow2 + y.m.unbiasedPow2 + z.m.unbiasedPow2] && m.uiRms == Rms(core.ui, cfg)
    && m.pAvg == x.m.pAvg + y.m.pAvg + z.m.pAvg && m.wAvg == x.m.wAvg + y.m.wAvg + z.m.wAvg
    && core.iv == c.iv + [Square(x.c.iv) + Square(y.c.iv) + Square(z.c.iv)] && m.ivRms == Rms(core.iv, cfg)
    && core.iba == c.iba + [Square(x.c.iba) + Square(y.c.iba) + Square(z.c.iba)] && m.ibaRms == Rms(core.iba, cfg)
    && core.ibr == c.ibr + [Square(x.c.ibr) + Square(y.c.ibr) + Square(z.c.ibr)] && m.ibrRms == Rms(core.ibr, cfg)
    && core.iua == c.iua + [Square(x.c.iua) + Square(y.c.iua) + Square(z.c.iua)] && m.iuaRms == Rms(core.iua, cfg)
    && core.iur == c.iur + [Square(x.c.iur) + Square(y.c.iur) + Square(z.c.iur)] && m.iurRms == Rms(core.iur, cfg)
  }

  ghost predicate Formulas(s: CPTValue, pac: Sample, r: CPTValue, cfg: Config)
    requires cfg.Valid()
  {
    var m := r.sh.m;
    && PhaseFormulas(s.x.core, r.x, m, pac.V[0], pac.I[0], cfg)
    && PhaseFormulas(s.y.core, r.y, m, pac.V[1], pac.I[1], cfg)
    && PhaseFormulas(s.z.core, r.z, m, pac.V[2], pac.I[2], cfg)
    && Collective(s.sh.core, r, cfg)
    && Rated(r.sh.w, m.pAvg, m.vRms, m.iRms, m.ibrRms, m.iuaRms, m.iurRms, m.ivRms, false, cfg)
  }

  lemma MeasuresHold(s: PhaseState, v: real, i: real, cfg: Config)
    requires cfg.Valid()
    ensures var r := PhaseMeasured(s, v, i, cfg);
            && Measures(s.core, r, v, i, cfg) && r.m.vRms > 0.0 && r.m.iRms > 0.0 && r.m.unbiasedRms > 0.0
            && r.m.pAvg > 0.0
            && r.core.iv == s.core.iv && r.core.iba == s.core.iba && r.core.ibr == s.core.ibr
  {
  }

  lemma SplitHolds(s: PhaseState, shared: SharedMeasures, v: real, i: real, cfg: Config)
    requires cfg.Valid()
    requires s.m.vRms > 0.0 && s.m.unbiasedRms > 0.0 && shared.vRms > 0.0 && shared.uiRms > 0.0
    ensures var r := PhaseDecomposed(s, shared, v, i, cfg);
            && Split(s.core, r, shared, v, i, cfg)
            && r.m == s.m && r.core == s.core.(iv := r.core.iv, iba := r.core.iba, ibr := r.core.ibr)
  {
  }

  lemma PositiveDivisors(p: real, q: real, n: real, v: real, i: real, cfg: Config)
    requires cfg.Valid() && p > 0.0 && v > 0.0 && i > 0.0
    ensures Times(v, i) > 0.0
    ensures Square(p) + Square(q) > 0.0 && Square(p) + Square(q) + Square(n) > 0.0
    ensures cfg.sqrt(Square(p) + Square(q)) > 0.0 && cfg.sqrt(Square(p) + Square(q) + Square(n)) > 0.0
  {
    SquareSign(p);
    SquareSign(q);
    SquareSign(n);
    RootIsPositive(Square(p) + Square(q), cfg);
    RootIsPositive(Square(p) + Square(q) + Square(n), cfg);
  }

  lemma RatingHolds(s: PhaseState, cfg: Config)
    requires cfg.Valid() && s.m.vRms > 0.0 && s.m.iRms > 0.0 && s.m.pAvg > 0.0
    ensures var r := PhaseRated(s, cfg);
            && r == s.(w := r.w)
            && Rated(r.w, r.m.pAvg, r.m.vRms, r.m.iRms, r.c.ibrRms, r.c.iuaRms, r.c.iurRms, r.c.ivRms, true, cfg)
  {
    var w := PhasePowers(s, cfg).w;
    PositiveDivisors(s.m.pAvg, w.q, w.n, s.m.vRms, s.m.iRms, cfg);
  }

  lemma PhaseMeetsFormulas(s: PhaseState, shared: SharedMeasures, v: real, i: real, cfg: Config)
    requires cfg.Valid() && shared.vRms > 0.0 && shared.uiRms > 0.0
    ensures var t := PhaseMeasured(s, v, i, cfg);
            var d := PhaseDecomposed(t, shared, v, i, cfg);
            var r := PhaseRated(d, cfg);
            PhaseFormulas(s.core, r, shared, v, i, cfg) && r.m == t.m && r.c == d.c && r.m.pAvg > 0.0
  {
    var t := PhaseMeasured(s, v, i, cfg);
    MeasuresHold(s, v, i, cfg);
    SplitHolds(t, shared, v, i, cfg);
    RatingHolds(PhaseDecomposed(t, shared, v, i, cfg), cfg);
  }

  lemma CollectiveHolds(s: Shared, x: PhaseState, y: PhaseState, z: PhaseState, cfg: Config)
    requires cfg.Valid()
    requires x.m.pAvg > 0.0 && y.m.pAvg > 0.0 && z.m.pAvg > 0.0
    requires x.c.iuaRms == Square(x.c.iua) && x.c.iurRms == Square(x.c.iur)
    requires y.c.iuaRms == Square(y.c.iua) && y.c.iurRms == Square(y.c.iur)
    requires z.c.iuaRms == Square(z.c.iua) && z.c.iurRms == Square(z.c.iur)
    ensures var t := Collected(s, x.m, y.m, z.m, cfg);
            var d := SharedDecomposed(t, x.c, y.c, z.c, cfg);
            var sh := SharedFactors(SharedPowers(d, cfg), cfg);
            var m := sh.m;
            && Collective(s.core, CPTValue(x, y, z, sh), cfg)
            && Rated(sh.w, m.pAvg, m.vRms, m.iRms, m.ibrRms, m.iuaRms, m.iurRms, m.ivRms, false, cfg)
  {
    var d := SharedDecomposed(Collected(s, x.m, y.m, z.m, cfg), x.c, y.c, z.c, cfg);
    var w := SharedPowers(d, cfg).w;
    PositiveDivisors(d.m.pAvg, w.q, w.n, d.m.vRms, d.m.iRms, cfg);
  }

  /** The coefficients of a phase do not depend on the collective currents. */
  lemma OnlySharedCoefficientsMatter(c: PhaseCore, r: PhaseState, s: SharedMeasures, t: SharedMeasures, v: real,
                                     i: real, cfg: Config)
    requires cfg.Valid() && PhaseFormulas(c, r, s, v, i, cfg) && SameSharedCoefficients(s, t)
    ensures PhaseFormulas(c, r, t, v, i, cfg)
  {
  }

  /** The decomposition of one phase reads nothing of the collective part that the
      decomposition itself changes. */
  lemma DecomposedInSteps(s: PhaseState, shared: SharedMeasures, later: SharedMeasures, v: real, i: real, cfg: Config)
    requires cfg.Valid() && later == shared.(ivRms := later.ivRms)
    ensures var a := SplitCurrent(s, v, i, cfg);
            var b := Balanced(a, later, v, cfg);
            var d := UnbalancedSquares(Unbalanced(b));
            d == PhaseDecomposed(s, shared, v, i, cfg)
            && d.c.iv == a.c.iv && d.c.iba == b.c.iba && d.c.ibr == b.c.ibr
  {
  }

  /** The stages, regrouped phase by phase. */
  lemma UpdateByPhase(s: CPTValue, pac: Sample, cfg: Config)
    requires cfg.Valid()
    ensures var x, y, z := PhaseMeasured(s.x, pac.V[0], pac.I[0], cfg), PhaseMeasured(s.y, pac.V[1], pac.I[1], cfg),
                           PhaseMeasured(s.z, pac.V[2], pac.I[2], cfg);
            var sh := Collected(s.sh, x.m, y.m, z.m, cfg);
            var xd, yd, zd := PhaseDecomposed(x, sh.m, pac.V[0], pac.I[0], cfg),
                              PhaseDecomposed(y, sh.m, pac.V[1], pac.I[1], cfg),
                              PhaseDecomposed(z, sh.m, pac.V[2], pac.I[2], cfg);
            var shd := SharedDecomposed(sh, xd.c, yd.c, zd.c, cfg);
            Update(s, pac, cfg) == CPTValue(PhaseRated(xd, cfg), PhaseRated(yd, cfg), PhaseRated(zd, cfg),
                                            SharedFactors(SharedPowers(shd, cfg), cfg))
  {
    var t := CollectStage(PowerStage(MeasureStage(s, pac, cfg), pac, cfg), cfg);
    DecompositionByPhase(t, pac, cfg);
  }

  lemma DecompositionByPhase(t: CPTValue, pac: Sample, cfg: Config)
    requires cfg.Valid()
    ensures var xd, yd, zd := PhaseDecomposed(t.x, t.sh.m, pac.V[0], pac.I[0], cfg),
                              PhaseDecomposed(t.y, t.sh.m, pac.V[1], pac.I[1], cfg),
                              PhaseDecomposed(t.z, t.sh.m, pac.V[2], pac.I[2], cfg);
            UnbalanceStage(BalanceStage(VoidStage(t, pac, cfg), pac, cfg), cfg) ==
            CPTValue(xd, yd, zd, SharedDecomposed(t.sh, xd.c, yd.c, zd.c, cfg))
  {
    var later := VoidStage(t, pac, cfg).sh.m;
    DecomposedInSteps(t.x, t.sh.m, later, pac.V[0], pac.I[0], cfg);
    DecomposedInSteps(t.y, t.sh.m, later, pac.V[1], pac.I[1], cfg);
    DecomposedInSteps(t.z, t.sh.m, later, pac.V[2], pac.I[2], cfg);
  }

  /** The six guarded stages compute the formulas of the theory, from any state: every
      division is by a positive number, so every guarded assignment runs. */
  lemma UpdateMeetsFormulas(s: CPTValue, pac: Sample, cfg: Config)
    requires cfg.Valid()
    ensures Formulas(s, pac, Update(s, pac, cfg), cfg)
  {
    var x := PhaseMeasured(s.x, pac.V[0], pac.I[0], cfg);
    var y := PhaseMeasured(s.y, pac.V[1], pac.I[1], cfg);
    var z := PhaseMeasured(s.z, pac.V[2], pac.I[2], cfg);
    var m := Collected(s.sh, x.m, y.m, z.m, cfg).m;
    var r := Update(s, pac, cfg);
    UpdateByPhase(s, pac, cfg);
    PhaseMeetsFormulas(s.x, m, pac.V[0], pac.I[0], cfg);
    PhaseMeetsFormulas(s.y, m, pac.V[1], pac.I[1], cfg);
    PhaseMeetsFormulas(s.z, m, pac.V[2], pac.I[2], cfg);
    CollectiveHolds(s.sh, r.x, r.y, r.z, cfg);
    OnlySharedCoefficientsMatter(s.x.core, r.x, m, r.sh.m, pac.V[0], pac.I[0], cfg);
    OnlySharedCoefficientsMatter(s.y.core, r.y, m, r.sh.m, pac.V[1], pac.I[1], cfg);
    OnlySharedCoefficientsMatter(s.z.core, r.z, m, r.sh.m, pac.V[2], pac.I[2], cfg);
  }
}
