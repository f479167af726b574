/** What the engine remembers: the windows of its filters and its integrators, and nothing older. */
module Forgetting {
  import opened Reals
  import opened Sums
  import opened MovingAverage
  import opened CPTState
  import opened CPTFormulas
  import opened CPTRun

  // ---------------------------------------------------------------- one filter

  /** The same `n` last inputs, counting zeros before the first. */
  ghost predicate SameWindow(h: seq<real>, g: seq<real>, n: nat) {
    forall age: nat :: age < n ==> Recent(h, age) == Recent(g, age)
  }

  /** Where the ring keeps the input of an age. */
  function PlaceOf(head: nat, n: nat, age: nat): (k: nat)
    requires head < n && age < n
    ensures k < n
  {
    if age < head then head - 1 - age else head - 1 - age + n
  }

  lemma RingAt(m: MAF, age: nat)
    requires m.Valid() && age < m.data.Length
    ensures m.data[PlaceOf(m.head, m.data.Length, age)] == Recent(m.inputs, age)
  {
  }

  lemma PlacesAreAll(head: nat, n: nat, k: nat) returns (age: nat)
    requires head < n && k < n
    ensures age < n && PlaceOf(head, n, age) == k
  {
    age := if k < head then head - 1 - k else head - 1 - k + n;
  }

  /** Two filters of one length with their heads at the same place hold the same ring exactly
      when they were given the same last inputs; their accumulators are then equal too. */
  lemma SameRings(a: MAF, b: MAF)
    requires a.Valid() && b.Valid() && a.data.Length == b.data.Length && a.head == b.head
    ensures (forall k :: 0 <= k < a.data.Length ==> a.data[k] == b.data[k]) <==>
            SameWindow(a.inputs, b.inputs, a.data.Length)
    ensures SameWindow(a.inputs, b.inputs, a.data.Length) ==> a.accumulator == b.accumulator
  {
    var n, h := a.data.Length, a.head;
    forall age: nat | age < n
      ensures a.data[PlaceOf(h, n, age)] == Recent(a.inputs, age) && b.data[PlaceOf(h, n, age)] == Recent(b.inputs, age)
    {
      RingAt(a, age);
      RingAt(b, age);
    }
    if SameWindow(a.inputs, b.inputs, n) {
      SameLastSum(a.inputs, b.inputs, n);
      forall k | 0 <= k < n
        ensures a.data[k] == b.data[k]
      {
        var age := PlacesAreAll(h, n, k);
      }
    }
  }

  function RecentSum(h: seq<real>, n: nat): real {
    if n == 0 then 0.0 else Recent(h, n - 1) + RecentSum(h, n - 1)
  }

  lemma {:induction false} RecentSumIsLastSum(h: seq<real>, n: nat)
    ensures RecentSum(h, n) == LastSum(h, n)
  {
    if n > 0 {
      RecentSumIsLastSum(h, n - 1);
      if n <= |h| {
        SumFirst(h, |h| - n, |h|);
      }
    }
  }

  lemma {:induction false} SameRecentSum(h: seq<real>, g: seq<real>, n: nat)
    requires SameWindow(h, g, n)
    ensures RecentSum(h, n) == RecentSum(g, n)
  {
    if n > 0 {
      SameRecentSum(h, g, n - 1);
    }
  }

  lemma SameLastSum(h: seq<real>, g: seq<real>, n: nat)
    requires SameWindow(h, g, n)
    ensures LastSum(h, n) == LastSum(g, n)
  {
    SameRecentSum(h, g, n);
    RecentSumIsLastSum(h, n);
    RecentSumIsLastSum(g, n);
  }

  /** One input later the windows are the same again, and so is all that a filter reports. */
  lemma SameAfterInput(h: seq<real>, g: seq<real>, x: real, cfg: Config)
    requires cfg.Valid() && SameWindow(h, g, cfg.samples)
    ensures SameReports(h + [x], g + [x], cfg)
  {
    forall age: nat | age < cfg.samples
      ensures Recent(h + [x], age) == Recent(g + [x], age)
    {
      AgeByOne(h, x, age);
      AgeByOne(g, x, age);
    }
    SameLastSum(h + [x], g + [x], cfg.samples);
  }

  ghost predicate SameReports(h: seq<real>, g: seq<real>, cfg: Config)
    requires cfg.Valid()
  {
    SameWindow(h, g, cfg.samples) && PlainMean(h, cfg) == PlainMean(g, cfg) && Rms(h, cfg) == Rms(g, cfg)
  }

  // ---------------------------------------------------------------- one phase

  /** The same windows in all nine filters, and the same integrator. */
  ghost predicate SameCore(c: PhaseCore, d: PhaseCore, n: nat) {
    && SameWindow(c.v, d.v, n) && SameWindow(c.i, d.i, n) && SameWindow(c.p, d.p, n) && SameWindow(c.w, d.w, n)
    && SameWindow(c.ui, d.ui, n) && SameWindow(c.itg, d.itg, n)
    && SameWindow(c.iba, d.iba, n) && SameWindow(c.ibr, d.ibr, n) && SameWindow(c.iv, d.iv, n)
    && c.integral == d.integral && c.lastInput == d.lastInput
  }

  /** Equal in every field that is not a filter, and in the windows of the filters. */
  ghost predicate SamePhase(r: PhaseState, q: PhaseState, n: nat) {
    r.m == q.m && r.c == q.c && r.w == q.w && SameCore(r.core, q.core, n)
  }

  lemma MeasuresAgree(c: PhaseCore, d: PhaseCore, r: PhaseState, q: PhaseState, v: real, i: real, cfg: Config)
    requires cfg.Valid() && SameCore(c, d, cfg.samples) && CPTFormulas.Measures(c, r, v, i, cfg)
      && CPTFormulas.Measures(d, q, v, i, cfg)
    ensures r.m == q.m && r.core.integral == q.core.integral && r.core.lastInput == q.core.lastInput
    ensures SameReports(r.core.v, q.core.v, cfg) && SameReports(r.core.i, q.core.i, cfg)
    ensures SameReports(r.core.p, q.core.p, cfg) && SameReports(r.core.w, q.core.w, cfg)
    ensures SameReports(r.core.ui, q.core.ui, cfg) && SameReports(r.core.itg, q.core.itg, cfg)
  {
    SameAfterInput(c.v, d.v, Square(v), cfg);
    SameAfterInput(c.i, d.i, Square(i), cfg);
    SameAfterInput(c.itg, d.itg, r.core.integral, cfg);
    SameAfterInput(c.ui, d.ui, Square(r.m.unbiased), cfg);
    SameAfterInput(c.p, d.p, Times(v, i), cfg);
    SameAfterInput(c.w, d.w, Times(r.m.unbiased, i), cfg);
  }

  lemma SplitsAgree(c: PhaseCore, d: PhaseCore, r: PhaseState, q: PhaseState, s: SharedMeasures, t: SharedMeasures,
                    v: real, i: real, cfg: Config)
    requires cfg.Valid() && SameCore(c, d, cfg.samples) && r.m == q.m && SameSharedCoefficients(s, t)
    requires Split(c, r, s, v, i, cfg) && Split(d, q, t, v, i, cfg)
    ensures r.c == q.c
    ensures SameReports(r.core.iv, q.core.iv, cfg) && SameReports(r.core.iba, q.core.iba, cfg)
    ensures SameReports(r.core.ibr, q.core.ibr, cfg)
  {
    SameAfterInput(c.iv, d.iv, Square(r.c.iv), cfg);
    SameAfterInput(c.iba, d.iba, Square(r.c.iba), cfg);
    SameAfterInput(c.ibr, d.ibr, Square(r.c.ibr), cfg);
  }

  lemma RatingsAgree(r: Powers, q: Powers, p: real, v: real, i: real, ibr: real, iua: real, iur: real, iv: real,
                     clipped: bool, cfg: Config)
    requires cfg.Valid() && Rated(r, p, v, i, ibr, iua, iur, iv, clipped, cfg)
    requires Rated(q, p, v, i, ibr, iua, iur, iv, clipped, cfg)
    ensures r == q
  {
  }

  lemma PhasesAgree(c: PhaseCore, d: PhaseCore, r: PhaseState, q: PhaseState, s: SharedMeasures, t: SharedMeasures,
                    v: real, i: real, cfg: Config)
    requires cfg.Valid() && SameCore(c, d, cfg.samples) && SameSharedCoefficients(s, t)
    requires PhaseFormulas(c, r, s, v, i, cfg) && PhaseFormulas(d, q, t, v, i, cfg)
    ensures SamePhase(r, q, cfg.samples)
  {
    MeasuresAgree(c, d, r, q, v, i, cfg);
    SplitsAgree(c, d, r, q, s, t, v, i, cfg);
    RatingsAgree(r.w, q.w, r.m.pAvg, r.m.vRms, r.m.iRms, r.c.ibrRms, r.c.iuaRms, r.c.iurRms, r.c.ivRms, true, cfg);
  }

  // ---------------------------------------------------------------- the engine

  /** The same windows in all eight collective filters. */
  ghost predicate SameSharedCore(c: SharedCore, d: SharedCore, n: nat) {
    && SameWindow(c.v, d.v, n) && SameWindow(c.i, d.i, n) && SameWindow(c.ui, d.ui, n) && SameWindow(c.iv, d.iv, n)
    && SameWindow(c.iba, d.iba, n) && SameWindow(c.ibr, d.ibr, n)
    && SameWindow(c.iua, d.iua, n) && SameWindow(c.iur, d.iur, n)
  }

  /** The same windows in all filters, and the same integrators; the other fields are free. */
  ghost predicate SameMemory(s: CPTValue, t: CPTValue, n: nat) {
    && SameCore(s.x.core, t.x.core, n) && SameCore(s.y.core, t.y.core, n) && SameCore(s.z.core, t.z.core, n)
    && SameSharedCore(s.sh.core, t.sh.core, n)
  }

  /** Equal in everything but what the filters have seen before their windows. */
  ghost predicate Alike(r: CPTValue, q: CPTValue, n: nat) {
    && SamePhase(r.x, q.x, n) && SamePhase(r.y, q.y, n) && SamePhase(r.z, q.z, n)
    && r.sh.m == q.sh.m && r.sh.w == q.sh.w && SameSharedCore(r.sh.core, q.sh.core, n)
  }

  lemma SharedCoefficientsAgree(c: SharedCore, d: SharedCore, r: CPTValue, q: CPTValue, cfg: Config)
    requires cfg.Valid() && SameSharedCore(c, d, cfg.samples) && Collective(c, r, cfg) && Collective(d, q, cfg)
    requires r.x.m == q.x.m && r.y.m == q.y.m && r.z.m == q.z.m
    ensures SameSharedCoefficients(r.sh.m, q.sh.m) && r.sh.m.iRms == q.sh.m.iRms
    ensures SameReports(r.sh.core.v, q.sh.core.v, cfg) && SameReports(r.sh.core.i, q.sh.core.i, cfg)
    ensures SameReports(r.sh.core.ui, q.sh.core.ui, cfg)
  {
    SameAfterInput(c.v, d.v, r.x.m.vPow2 + r.y.m.vPow2 + r.z.m.vPow2, cfg);
    SameAfterInput(c.i, d.i, r.x.m.iPow2 + r.y.m.iPow2 + r.z.m.iPow2, cfg);
    SameAfterInput(c.ui, d.ui, r.x.m.unbiasedPow2 + r.y.m.unbiasedPow2 + r.z.m.unbiasedPow2, cfg);
  }

  lemma SharedPartsAgree(c: SharedCore, d: SharedCore, r: CPTValue, q: CPTValue, cfg: Config)
    requires cfg.Valid() && SameSharedCore(c, d, cfg.samples) && Collective(c, r, cfg) && Collective(d, q, cfg)
    requires r.x.c == q.x.c && r.y.c == q.y.c && r.z.c == q.z.c
    ensures SameReports(r.sh.core.iv, q.sh.core.iv, cfg) && SameReports(r.sh.core.iba, q.sh.core.iba, cfg)
    ensures SameReports(r.sh.core.ibr, q.sh.core.ibr, cfg) && SameReports(r.sh.core.iua, q.sh.core.iua, cfg)
    ensures SameReports(r.sh.core.iur, q.sh.core.iur, cfg)
  {
    SameAfterInput(c.iv, d.iv, Square(r.x.c.iv) + Square(r.y.c.iv) + Square(r.z.c.iv), cfg);
    SameAfterInput(c.iba, d.iba, Square(r.x.c.iba) + Square(r.y.c.iba) + Square(r.z.c.iba), cfg);
    SameAfterInput(c.ibr, d.ibr, Square(r.x.c.ibr) + Square(r.y.c.ibr) + Square(r.z.c.ibr), cfg);
    SameAfterInput(c.iua, d.iua, Square(r.x.c.iua) + Square(r.y.c.iua) + Square(r.z.c.iua), cfg);
    SameAfterInput(c.iur, d.iur, Square(r.x.c.iur) + Square(r.y.c.iur) + Square(r.z.c.iur), cfg);
  }

  lemma PhaseMeasuresAgree(s: CPTValue, t: CPTValue, pac: Sample, r: CPTValue, q: CPTValue, cfg: Config)
    requires cfg.Valid() && SameMemory(s, t, cfg.samples) && Formulas(s, pac, r, cfg) && Formulas(t, pac, q, cfg)
    ensures r.x.m == q.x.m && r.y.m == q.y.m && r.z.m == q.z.m
  {
    MeasuresAgree(s.x.core, t.x.core, r.x, q.x, pac.V[0], pac.I[0], cfg);
    MeasuresAgree(s.y.core, t.y.core, r.y, q.y, pac.V[1], pac.I[1], cfg);
    MeasuresAgree(s.z.core, t.z.core, r.z, q.z, pac.V[2], pac.I[2], cfg);
  }

  lemma AllPhasesAgree(s: CPTValue, t: CPTValue, pac: Sample, r: CPTValue, q: CPTValue, cfg: Config)
    requires cfg.Valid() && SameMemory(s, t, cfg.samples) && Formulas(s, pac, r, cfg) && Formulas(t, pac, q, cfg)
    requires SameSharedCoefficients(r.sh.m, q.sh.m)
    ensures SamePhase(r.x, q.x, cfg.samples) && SamePhase(r.y, q.y, cfg.samples) && SamePhase(r.z, q.z, cfg.samples)
  {
    PhasesAgree(s.x.core, t.x.core, r.x, q.x, r.sh.m, q.sh.m, pac.V[0], pac.I[0], cfg);
    PhasesAgree(s.y.core, t.y.core, r.y, q.y, r.sh.m, q.sh.m, pac.V[1], pac.I[1], cfg);
    PhasesAgree(s.z.core, t.z.core, r.z, q.z, r.sh.m, q.sh.m, pac.V[2], pac.I[2], cfg);
  }

  lemma FormulasAgree(s: CPTValue, t: CPTValue, pac: Sample, r: CPTValue, q: CPTValue, cfg: Config)
    requires cfg.Valid() && SameMemory(s, t, cfg.samples) && Formulas(s, pac, r, cfg) && Formulas(t, pac, q, cfg)
    ensures Alike(r, q, cfg.samples)
  {
    PhaseMeasuresAgree(s, t, pac, r, q, cfg);
    SharedCoefficientsAgree(s.sh.core, t.sh.core, r, q, cfg);
    AllPhasesAgree(s, t, pac, r, q, cfg);
    SharedPartsAgree(s.sh.core, t.sh.core, r, q, cfg);
    var m := r.sh.m;
    assert m == q.sh.m;
    RatingsAgree(r.sh.w, q.sh.w, m.pAvg, m.vRms, m.iRms, m.ibrRms, m.iuaRms, m.iurRms, m.ivRms, false, cfg);
  }

  /** The engine forgets everything older than a window, except in its integrators: two states
      with the same windows and integrators, whatever their filters saw before and their other
      fields hold, are equal after one update in every field, and have the same windows again. */
  lemma UpdateForgets(s: CPTValue, t: CPTValue, pac: Sample, cfg: Config)
    requires cfg.Valid() && SameMemory(s, t, cfg.samples)
    ensures Alike(Update(s, pac, cfg), Update(t, pac, cfg), cfg.samples)
  {
    UpdateMeetsFormulas(s, pac, cfg);
    UpdateMeetsFormulas(t, pac, cfg);
    FormulasAgree(s, t, pac, Update(s, pac, cfg), Update(t, pac, cfg), cfg);
  }

  /** The samples take the engine from each state to the next. */
  ghost predicate Steps(a: seq<CPTValue>, x: seq<Sample>, cfg: Config) {
    cfg.Valid() && |a| == |x| + 1 && forall t: nat :: t < |x| ==> StepAt(a, x, t, cfg)
  }

  lemma ForgetsAt(a: seq<CPTValue>, b: seq<CPTValue>, x: seq<Sample>, t: nat, cfg: Config)
    requires Steps(a, x, cfg) && Steps(b, x, cfg) && t < |x| && SameMemory(a[t], b[t], cfg.samples)
    ensures Alike(a[t + 1], b[t + 1], cfg.samples)
  {
    assert StepAt(a, x, t, cfg) && StepAt(b, x, t, cfg);
    UpdateForgets(a[t], b[t], x[t], cfg);
  }

  lemma AlikeInMemory(r: CPTValue, q: CPTValue, n: nat)
    requires Alike(r, q, n)
    ensures SameMemory(r, q, n)
  {
  }

  /** So two engines that start with the same windows and integrators report the same for ever. */
  lemma {:induction false} RunsForget(a: seq<CPTValue>, b: seq<CPTValue>, x: seq<Sample>, t: nat, cfg: Config)
    requires Steps(a, x, cfg) && Steps(b, x, cfg) && t < |x| && SameMemory(a[0], b[0], cfg.samples)
    ensures Alike(a[t + 1], b[t + 1], cfg.samples)
  {
    if t > 0 {
      RunsForget(a, b, x, t - 1, cfg);
      AlikeInMemory(a[t], b[t], cfg.samples);
    }
    ForgetsAt(a, b, x, t, cfg);
  }
}
