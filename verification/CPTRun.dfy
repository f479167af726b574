/** Whole runs of the engine: every filter input, at every instant, as a formula over
    the samples. */
module CPTRun {
  import opened Reals
  import opened CPTState
  import opened CPTFormulas

  function Phase(s: CPTValue, k: nat): PhaseState
    requires k < 3
  {
    if k == 0 then s.x else if k == 1 then s.y else s.z
  }

  /** Every filter of a phase has seen `n` inputs. */
  ghost predicate Full(c: PhaseCore, n: nat) {
    && |c.v| == n && |c.i| == n && |c.p| == n && |c.w| == n && |c.ui| == n && |c.itg| == n
    && |c.iba| == n && |c.ibr| == n && |c.iv| == n
  }

  ghost predicate SharedFull(c: SharedCore, n: nat) {
    && |c.v| == n && |c.i| == n && |c.ui| == n && |c.iv| == n
    && |c.iba| == n && |c.ibr| == n && |c.iua| == n && |c.iur| == n
  }

  /** The filter inputs `c` extend the filter inputs `d`. */
  ghost predicate Extends(d: PhaseCore, c: PhaseCore) {
    && d.v <= c.v && d.i <= c.i && d.p <= c.p && d.w <= c.w && d.ui <= c.ui && d.itg <= c.itg
    && d.iba <= c.iba && d.ibr <= c.ibr && d.iv <= c.iv
  }

  ghost predicate SharedExtends(d: SharedCore, c: SharedCore) {
    && d.v <= c.v && d.i <= c.i && d.ui <= c.ui && d.iv <= c.iv
    && d.iba <= c.iba && d.ibr <= c.ibr && d.iua <= c.iua && d.iur <= c.iur
  }

  ghost predicate AllFull(s: CPTValue, n: nat) {
    Full(s.x.core, n) && Full(s.y.core, n) && Full(s.z.core, n) && SharedFull(s.sh.core, n)
  }

  ghost predicate AllExtend(q: CPTValue, r: CPTValue) {
    && Extends(q.x.core, r.x.core) && Extends(q.y.core, r.y.core) && Extends(q.z.core, r.z.core)
    && SharedExtends(q.sh.core, r.sh.core)
  }

  lemma PhaseGrows(c: PhaseCore, r: PhaseState, shared: SharedMeasures, v: real, i: real, n: nat, cfg: Config)
    requires cfg.Valid() && PhaseFormulas(c, r, shared, v, i, cfg)
    ensures Extends(c, r.core)
    ensures Full(c, n) ==> Full(r.core, n + 1)
  {
  }

  lemma UpdateGrows(s: CPTValue, pac: Sample, n: nat, cfg: Config)
    requires cfg.Valid()
    ensures AllExtend(s, Update(s, pac, cfg))
    ensures AllFull(s, n) ==> AllFull(Update(s, pac, cfg), n + 1)
  {
    var r := Update(s, pac, cfg);
    UpdateMeetsFormulas(s, pac, cfg);
    PhaseGrows(s.x.core, r.x, r.sh.m, pac.V[0], pac.I[0], n, cfg);
    PhaseGrows(s.y.core, r.y, r.sh.m, pac.V[1], pac.I[1], n, cfg);
    PhaseGrows(s.z.core, r.z, r.sh.m, pac.V[2], pac.I[2], n, cfg);
  }

  /** The engine takes sample `t` of `x` from one state to the next. */
  ghost predicate StepAt(states: seq<CPTValue>, x: seq<Sample>, t: nat, cfg: Config)
    requires cfg.Valid() && t < |x| && |states| == |x| + 1
  {
    states[t + 1] == Update(states[t], x[t], cfg)
  }

  /** `states` is the run of the engine over the samples `x`, from configuration. */
  ghost predicate IsRun(states: seq<CPTValue>, x: seq<Sample>, cfg: Config)
    requires cfg.Valid()
  {
    && |states| == |x| + 1
    && Initial(states[0])
    && forall t: nat :: t < |x| ==> StepAt(states, x, t, cfg)
  }

  /** The formulas hold at every instant of a run. */
  lemma FormulasAt(states: seq<CPTValue>, x: seq<Sample>, t: nat, cfg: Config)
    requires cfg.Valid() && IsRun(states, x, cfg) && t < |x|
    ensures Formulas(states[t], x[t], states[t + 1], cfg)
  {
    assert StepAt(states, x, t, cfg);
    UpdateMeetsFormulas(states[t], x[t], cfg);
  }

  lemma StepGrows(states: seq<CPTValue>, x: seq<Sample>, t: nat, cfg: Config)
    requires cfg.Valid() && IsRun(states, x, cfg) && t < |x|
    ensures AllExtend(states[t], states[t + 1])
    ensures AllFull(states[t], t) ==> AllFull(states[t + 1], t + 1)
  {
    assert StepAt(states, x, t, cfg);
    UpdateGrows(states[t], x[t], t, cfg);
  }

  /** After `n` samples every filter has seen exactly `n` inputs. */
  lemma {:induction false} RunFills(states: seq<CPTValue>, x: seq<Sample>, n: nat, cfg: Config)
    requires cfg.Valid() && IsRun(states, x, cfg) && n <= |x|
    ensures AllFull(states[n], n)
  {
    if n > 0 {
      RunFills(states, x, n - 1, cfg);
      StepGrows(states, x, n - 1, cfg);
    }
  }

  lemma ExtendsTransitive(a: CPTValue, b: CPTValue, c: CPTValue)
    requires AllExtend(a, b) && AllExtend(b, c)
    ensures AllExtend(a, c)
  {
  }

  lemma {:induction false} RunExtends(states: seq<CPTValue>, x: seq<Sample>, m: nat, n: nat, cfg: Config)
    requires cfg.Valid() && IsRun(states, x, cfg) && m <= n <= |x|
    ensures AllExtend(states[m], states[n])
  {
    if m < n {
      RunExtends(states, x, m, n - 1, cfg);
      StepGrows(states, x, n - 1, cfg);
      ExtendsTransitive(states[m], states[n - 1], states[n]);
    }
  }

  /** What the filters of a phase received at instant `t`, and what they had then received
      in all, read off the filters `c` of a later state. */
  ghost predicate InputsAt(c: PhaseCore, r: PhaseState, t: nat, v: real, i: real) {
    && |c.v| > t && |c.i| > t && |c.p| > t && |c.w| > t && |c.ui| > t && |c.itg| > t
    && |c.iba| > t && |c.ibr| > t && |c.iv| > t
    && c.v[t] == Square(v) && c.i[t] == Square(i) && c.p[t] == Times(v, i) && c.w[t] == Times(r.m.unbiased, i)
    && c.ui[t] == Square(r.m.unbiased) && c.itg[t] == r.core.integral
    && c.iba[t] == Square(r.c.iba) && c.ibr[t] == Square(r.c.ibr) && c.iv[t] == Square(r.c.iv)
    && r.core.v == c.v[..t + 1] && r.core.i == c.i[..t + 1] && r.core.p == c.p[..t + 1] && r.core.w == c.w[..t + 1]
    && r.core.ui == c.ui[..t + 1] && r.core.itg == c.itg[..t + 1]
  }

  lemma PhaseInputs(prev: PhaseCore, r: PhaseState, shared: SharedMeasures, c: PhaseCore, t: nat, v: real, i: real,
                    cfg: Config)
    requires cfg.Valid() && PhaseFormulas(prev, r, shared, v, i, cfg)
    requires Full(prev, t) && Full(r.core, t + 1) && Extends(r.core, c)
    ensures InputsAt(c, r, t, v, i)
  {
  }

  /** The same for the collective filters. */
  ghost predicate SharedInputsAt(c: SharedCore, r: CPTValue, t: nat) {
    && |c.v| > t && |c.i| > t && |c.ui| > t && |c.iv| > t && |c.iba| > t && |c.ibr| > t && |c.iua| > t && |c.iur| > t
    && c.v[t] == r.x.m.vPow2 + r.y.m.vPow2 + r.z.m.vPow2
    && c.i[t] == r.x.m.iPow2 + r.y.m.iPow2 + r.z.m.iPow2
    && c.ui[t] == r.x.m.unbiasedPow2 + r.y.m.unbiasedPow2 + r.z.m.unbiasedPow2
    && c.iv[t] == Square(r.x.c.iv) + Square(r.y.c.iv) + Square(r.z.c.iv)
    && c.iba[t] == Square(r.x.c.iba) + Square(r.y.c.iba) + Square(r.z.c.iba)
    && c.ibr[t] == Square(r.x.c.ibr) + Square(r.y.c.ibr) + Square(r.z.c.ibr)
    && c.iua[t] == Square(r.x.c.iua) + Square(r.y.c.iua) + Square(r.z.c.iua)
    && c.iur[t] == Square(r.x.c.iur) + Square(r.y.c.iur) + Square(r.z.c.iur)
    && r.sh.core.v == c.v[..t + 1] && r.sh.core.ui == c.ui[..t + 1]
  }

  lemma SharedInputs(prev: SharedCore, r: CPTValue, c: SharedCore, t: nat, cfg: Config)
    requires cfg.Valid() && Collective(prev, r, cfg)
    requires SharedFull(prev, t) && SharedFull(r.sh.core, t + 1) && SharedExtends(r.sh.core, c)
    ensures SharedInputsAt(c, r, t)
  {
  }

  /** Every filter input of instant `t`, read off the end of the run. */
  lemma RunInputs(states: seq<CPTValue>, x: seq<Sample>, t: nat, k: nat, cfg: Config)
    requires cfg.Valid() && IsRun(states, x, cfg) && t < |x| && k < 3
    ensures var r, last := states[t + 1], states[|x|];
            && PhaseFormulas(Phase(states[t], k).core, Phase(r, k), r.sh.m, x[t].V[k], x[t].I[k], cfg)
            && InputsAt(Phase(last, k).core, Phase(r, k), t, x[t].V[k], x[t].I[k])
            && Full(Phase(last, k).core, |x|)
  {
    RunFills(states, x, t, cfg);
    RunFills(states, x, t + 1, cfg);
    RunFills(states, x, |x|, cfg);
    FormulasAt(states, x, t, cfg);
    RunExtends(states, x, t + 1, |x|, cfg);
    PhaseInputs(Phase(states[t], k).core, Phase(states[t + 1], k), states[t + 1].sh.m, Phase(states[|x|], k).core,
                t, x[t].V[k], x[t].I[k], cfg);
  }

  /** What the filters of a phase received at instant `t`, and nothing else. */
  ghost predicate ElementsAt(c: PhaseCore, r: PhaseState, t: nat, v: real, i: real) {
    && |c.v| > t && |c.i| > t && |c.p| > t && |c.w| > t && |c.ui| > t && |c.iba| > t && |c.ibr| > t && |c.iv| > t
    && c.v[t] == Square(v) && c.i[t] == Square(i) && c.p[t] == Times(v, i) && c.w[t] == Times(r.m.unbiased, i)
    && c.ui[t] == Square(r.m.unbiased) && c.iv[t] == Square(r.c.iv)
  }

  lemma RunElements(states: seq<CPTValue>, x: seq<Sample>, t: nat, k: nat, cfg: Config)
    requires cfg.Valid() && IsRun(states, x, cfg) && t < |x| && k < 3
    ensures ElementsAt(Phase(states[|x|], k).core, Phase(states[t + 1], k), t, x[t].V[k], x[t].I[k])
  {
    RunInputs(states, x, t, k, cfg);
  }

  lemma RunSharedInputs(states: seq<CPTValue>, x: seq<Sample>, t: nat, cfg: Config)
    requires cfg.Valid() && IsRun(states, x, cfg) && t < |x|
    ensures var r, last := states[t + 1], states[|x|];
            && Collective(states[t].sh.core, r, cfg)
            && SharedInputsAt(last.sh.core, r, t)
            && SharedFull(last.sh.core, |x|)
  {
    RunFills(states, x, t, cfg);
    RunFills(states, x, t + 1, cfg);
    RunFills(states, x, |x|, cfg);
    FormulasAt(states, x, t, cfg);
    RunExtends(states, x, t + 1, |x|, cfg);
    SharedInputs(states[t].sh.core, states[t + 1], states[|x|].sh.core, t, cfg);
  }
}
