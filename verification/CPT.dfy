/** The CPT engine of CPT.c as objects updated in place, proved against the state machine
    of CPTState stage by stage. */
module CPTEngine {
  import opened Reals
  import opened CPTState
  import opened Filters

  // The filters of a phase, in the order their buffers are assigned.
  const V := 0
  const I := 1
  const P := 2
  const W := 3
  const UI := 4
  const INT := 5
  const IBA := 6
  const IBR := 7
  const IV := 8

  // The collective filters, likewise.
  const C_IBA := 0
  const C_IUA := 1
  const C_IBR := 2
  const C_IUR := 3
  const C_IV := 4
  const C_I := 5
  const C_V := 6
  const C_UI := 7

  class Phase {
    const maf: FilterBank

    var integral: real
    var integralLastInput: real

    // The measured, current and power fields of the phase.
    var m: Measures
    var c: Currents
    var w: Powers

    ghost const Repr: set<object>

    ghost predicate Valid(samples: nat)
      reads this, Repr
      ensures Valid(samples) ==> this in Repr
    {
      && Repr == {this, maf} + maf.Repr && this !in maf.Repr
      && maf.Valid() && maf.window == samples
      && maf.floored == [true, true, false, false, true, false, true, true, true]
    }

    ghost function State(): PhaseState
      reads this, maf
    {
      PhaseState(
        PhaseCore(maf.Input(V), maf.Input(I), maf.Input(P), maf.Input(W), maf.Input(UI), maf.Input(INT),
                  maf.Input(IBA), maf.Input(IBR), maf.Input(IV), integral, integralLastInput),
        m, c, w)
    }

    constructor Init(samples: nat)
      requires samples > 0
      ensures Valid(samples) && fresh(Repr)
      ensures State().core == PhaseCore([], [], [], [], [], [], [], [], [], 0.0, 0.0)
      ensures m.vRms == m.iRms == m.unbiased == m.unbiasedRms == m.pAvg == m.wAvg == 0.0
    {
      var bank := new FilterBank(samples, [true, true, false, false, true, false, true, true, true]);
      maf := bank;
      integral, integralLastInput := 0.0, 0.0;
      var unset: Measures := *;
      m := unset.(vRms := 0.0, iRms := 0.0, unbiased := 0.0, unbiasedRms := 0.0, pAvg := 0.0, wAvg := 0.0);
      Repr := {this, bank} + bank.Repr;
    }

    method UpdateRootMeanSquares(vIn: real, iIn: real, cfg: Config)
      requires cfg.Valid() && Valid(cfg.samples)
      modifies Repr
      ensures Valid(cfg.samples) && State() == RootMeanSquares(old(State()), vIn, iIn, cfg)
    {
      m := m.(vPow2 := Square(vIn));
      var mean := maf.Update(V, m.vPow2);
      m := m.(vRms := RmsEvaluate(mean, cfg));

      m := m.(iPow2 := Square(iIn));
      mean := maf.Update(I, m.iPow2);
      m := m.(iRms := RmsEvaluate(mean, cfg));
    }

    method IntegrateVoltage(vIn: real, cfg: Config)
      requires cfg.Valid() && Valid(cfg.samples)
      modifies Repr
      ensures Valid(cfg.samples) && State() == CPTState.IntegrateVoltage(old(State()), vIn, cfg)
    {
      RemoveBias(vIn, cfg);
      var mean := maf.Update(UI, m.unbiasedPow2);
      m := m.(unbiasedRms := RmsEvaluate(mean, cfg));
    }

    method RemoveBias(vIn: real, cfg: Config)
      requires cfg.Valid() && Valid(cfg.samples)
      modifies Repr
      ensures Valid(cfg.samples) && State() == CPTState.RemoveBias(old(State()), vIn, cfg)
    {
      integral := integral + Times(cfg.HalfStep(), vIn + integralLastInput);
      integralLastInput := vIn;
      var mean := maf.Update(INT, integral);

      m := m.(unbiased := integral - mean);
      m := m.(unbiasedPow2 := Square(m.unbiased));
    }

    method UpdateVoltageAndCurrent(vIn: real, iIn: real, cfg: Config)
      requires cfg.Valid() && Valid(cfg.samples)
      modifies Repr
      ensures Valid(cfg.samples) && State() == VoltageAndCurrent(old(State()), vIn, iIn, cfg)
    {
      UpdateRootMeanSquares(vIn, iIn, cfg);
      IntegrateVoltage(vIn, cfg);
    }

    method UpdatePowerAndEnergy(vIn: real, iIn: real, cfg: Config)
      requires cfg.Valid() && Valid(cfg.samples) && m.unbiasedRms != 0.0
      modifies Repr
      ensures Valid(cfg.samples) && State() == PowerAndEnergy(old(State()), vIn, iIn, cfg)
    {
      m := m.(pInst := Times(vIn, iIn));
      var mean := maf.Update(P, m.pInst);
      m := m.(pAvg := mean);
      if m.pAvg < FLOOR {
        m := m.(pAvg := FLOOR);
      }
      m := m.(wInst := Times(m.unbiased, iIn));
      mean := maf.Update(W, m.wInst);
      m := m.(wAvg := mean);
      w := w.(q := Times(m.wAvg, Over(m.vRms, m.unbiasedRms)));
    }

    /** `square` is what the engine adds to its own total. */
    method Split(vIn: real, iIn: real, cfg: Config) returns (square: real)
      requires cfg.Valid() && Valid(cfg.samples)
      modifies Repr
      ensures Valid(cfg.samples) && State() == SplitCurrent(old(State()), vIn, iIn, cfg)
      ensures square == Square(c.iv)
    {
      if m.vRms != 0.0 {
        c := c.(ia := Times(PerSquare(m.pAvg, m.vRms), vIn));
      }
      if m.unbiasedRms != 0.0 {
        c := c.(ir := Times(PerSquare(m.wAvg, m.unbiasedRms), m.unbiased));
      }
      c := c.(iv := iIn - c.ia - c.ir);
      c := c.(ivRms := Square(c.iv));
      square := c.ivRms;
      var mean := maf.Update(IV, c.ivRms);
      c := c.(ivRms := RmsEvaluate(mean, cfg));
    }

    method BalanceActive(shared: SharedMeasures, vIn: real)
      modifies this
      ensures State() == BalancedActive(old(State()), shared, vIn)
    {
      if shared.vRms != 0.0 {
        c := c.(iba := Times(PerSquare(shared.pAvg, shared.vRms), vIn));
      }
    }

    method BalanceReactive(shared: SharedMeasures)
      modifies this
      ensures State() == BalancedReactive(old(State()), shared)
    {
      if shared.uiRms != 0.0 {
        c := c.(ibr := Times(PerSquare(shared.wAvg, shared.uiRms), m.unbiased));
      }
    }

    method Unbalance()
      modifies this
      ensures State() == Unbalanced(old(State()))
    {
      c := c.(iua := c.ia - c.iba);
      c := c.(iur := c.ir - c.ibr);
      c := c.(iu := c.iua + c.iur);
    }

    method SquareUnbalanced() returns (activeSquare: real, reactiveSquare: real)
      modifies this
      ensures State() == UnbalancedSquares(old(State()))
      ensures activeSquare == c.iuaRms && reactiveSquare == c.iurRms
    {
      c := c.(iuaRms := Square(c.iua));
      c := c.(iurRms := Square(c.iur));
      activeSquare, reactiveSquare := c.iuaRms, c.iurRms;
    }

    method AverageBalanced(cfg: Config) returns (activeSquare: real, reactiveSquare: real)
      requires cfg.Valid() && Valid(cfg.samples)
      modifies Repr
      ensures Valid(cfg.samples) && State() == BalancedRms(old(State()), cfg)
      ensures activeSquare == Square(c.iba) && reactiveSquare == Square(c.ibr)
    {
      c := c.(ibaRms := Square(c.iba));
      c := c.(ibrRms := Square(c.ibr));
      activeSquare, reactiveSquare := c.ibaRms, c.ibrRms;
      var mean := maf.Update(IBA, c.ibaRms);
      c := c.(ibaRms := RmsEvaluate(mean, cfg));
      mean := maf.Update(IBR, c.ibrRms);
      c := c.(ibrRms := RmsEvaluate(mean, cfg));
    }

    method DecomposePower(cfg: Config)
      modifies this
      ensures State() == PhasePowers(old(State()), cfg)
    {
      w := w.(a := Times(m.vRms, m.iRms));
      w := w.(q := Times(m.vRms, c.ibrRms));
      w := w.(na := Times(m.vRms, c.iuaRms));
      w := w.(nr := Times(m.vRms, c.iurRms));
      w := w.(n := cfg.sqrt(Square(w.na) + Square(w.nr)));
      w := w.(v := Times(m.vRms, c.ivRms));
    }

    method EvaluateFactors(cfg: Config)
      requires cfg.Valid()
      modifies this
      ensures State() == PhaseFactors(old(State()), cfg)
    {
      if w.a != 0.0 {
        w := w.(pf := Over(m.pAvg, w.a));
        w := w.(vf := Over(w.v, w.a));
        if w.vf > 1.0 {
          w := w.(vf := 1.0);
        }
      }
      var p2, q2, n2 := Square(m.pAvg), Square(w.q), Square(w.n);
      if p2 + q2 + n2 > 0.0 {
        RootIsPositive(p2 + q2 + n2, cfg);
        w := w.(nf := Over(w.n, cfg.sqrt(p2 + q2 + n2)));
      }
      if p2 + q2 > 0.0 {
        RootIsPositive(p2 + q2, cfg);
        w := w.(qf := Over(w.q, cfg.sqrt(p2 + q2)));
      }
    }
  }

  method NewPhases(samples: nat) returns (phases: seq<Phase>)
    requires 0 < samples
    ensures |phases| == 3
    ensures forall k :: 0 <= k < 3 ==> phases[k].Valid(samples) && fresh(phases[k].Repr)
    ensures forall k :: 0 <= k < 3 ==> phases[k].State().core == PhaseCore([], [], [], [], [], [], [], [], [], 0.0, 0.0)
    ensures forall j, k :: 0 <= j < 3 && 0 <= k < 3 && j != k ==> phases[j].Repr !! phases[k].Repr
  {
    phases := [];
    for p := 0 to 3
      invariant |phases| == p
      invariant forall k :: 0 <= k < p ==> phases[k].Valid(samples) && fresh(phases[k].Repr)
      invariant forall k :: 0 <= k < p ==>
          phases[k].State().core == PhaseCore([], [], [], [], [], [], [], [], [], 0.0, 0.0)
      invariant forall j, k :: 0 <= j < p && 0 <= k < p && j != k ==> phases[j].Repr !! phases[k].Repr
    {
      var phase := new Phase.Init(samples);
      phases := phases + [phase];
    }
  }

  /** The squares of the void currents of the first `n` phases, added up. */
  ghost predicate VoidTotals(s: seq<CPTState.PhaseState>, total: real, n: nat)
    requires |s| == 3
  {
    total == Total(Square(s[0].c.iv), Square(s[1].c.iv), Square(s[2].c.iv), n)
  }

  lemma VoidTotalsStep(s: seq<CPTState.PhaseState>, total: real, n: nat)
    requires n < |s| == 3 && VoidTotals(s, total, n)
    ensures VoidTotals(s, total + Square(s[n].c.iv), n + 1)
  {
  }

  /** The squares of the balanced currents of the first `n` phases, added up. */
  ghost predicate BalancedTotals(s: seq<CPTState.PhaseState>, active: real, reactive: real, n: nat)
    requires |s| == 3
  {
    && active == Total(Square(s[0].c.iba), Square(s[1].c.iba), Square(s[2].c.iba), n)
    && reactive == Total(Square(s[0].c.ibr), Square(s[1].c.ibr), Square(s[2].c.ibr), n)
  }

  lemma BalancedTotalsStep(s: seq<CPTState.PhaseState>, active: real, reactive: real, n: nat)
    requires n < |s| == 3 && BalancedTotals(s, active, reactive, n)
    ensures BalancedTotals(s, active + Square(s[n].c.iba), reactive + Square(s[n].c.ibr), n + 1)
  {
  }

  class CPT {
    const phases: seq<Phase>
    const maf: FilterBank
    const cfg: Config
    var m: SharedMeasures
    var w: Powers

    ghost predicate Apart(j: nat, k: nat)
      requires j < |phases| && k < |phases|
    {
      phases[j].Repr !! phases[k].Repr
    }

    ghost predicate PhaseValid(k: nat)
      requires k < |phases|
      reads phases[k], phases[k].Repr
    {
      phases[k].Valid(cfg.samples)
    }

    /** The three phases and all their filters. */
    ghost function PhaseRepr(): set<object>
      requires |phases| == 3
    {
      phases[0].Repr + phases[1].Repr + phases[2].Repr
    }

    /** The engine itself and the collective filters. */
    ghost function OwnRepr(): set<object> {
      {this, maf} + maf.Repr
    }

    ghost predicate PhasesValid()
      requires |phases| == 3
      reads phases, PhaseRepr()
    {
      && cfg.Valid()
      && (forall j: nat, k: nat :: j < 3 && k < 3 && j != k ==> Apart(j, k))
      && (forall k: nat :: k < 3 ==> PhaseValid(k))
    }

    ghost predicate Valid()
      reads this, maf, maf.Repr, phases, if |phases| == 3 then PhaseRepr() else {}
    {
      |phases| == 3 && PhasesValid() && PhaseRepr() !! OwnRepr() && OwnValid()
    }

    ghost function PhaseState(k: nat): CPTState.PhaseState
      requires k < |phases|
      reads phases[k], phases[k].maf
    {
      phases[k].State()
    }

    ghost function SharedState(): Shared
      reads this, maf
    {
      Shared(SharedCore(maf.Input(C_IBA), maf.Input(C_IUA), maf.Input(C_IBR), maf.Input(C_IUR), maf.Input(C_IV),
                        maf.Input(C_V), maf.Input(C_I), maf.Input(C_UI)), m, w)
    }

    ghost function State(): CPTValue
      requires |phases| == 3
      reads this, maf, phases, phases[0].maf, phases[1].maf, phases[2].maf
    {
      CPTValue(PhaseState(0), PhaseState(1), PhaseState(2), SharedState())
    }

    constructor Config(freq: nat, samples: nat, sqrt: real -> real)
      requires 0 < freq && 0 < samples && IsSqrt(sqrt)
      ensures Valid() && fresh(PhaseRepr()) && fresh(OwnRepr())
      ensures cfg == CPTState.Config(samples, 1.0 / freq as real, sqrt)
      ensures Initial(State())
      ensures m.ibaRms == m.iuaRms == m.ibrRms == m.iurRms == m.ivRms == 0.0
    {
      var three := NewPhases(samples);
      var bank := new FilterBank(samples, [true, true, true, true, true, true, true, true]);
      phases := three;
      maf := bank;
      cfg := CPTState.Config(samples, 1.0 / freq as real, sqrt);
      var unset: SharedMeasures := *;
      m := unset.(ibaRms := 0.0, iuaRms := 0.0, ibrRms := 0.0, iurRms := 0.0, ivRms := 0.0);
      new;
      forall j: nat, k: nat | j < 3 && k < 3 && j != k
        ensures Apart(j, k)
      {
      }
      forall k: nat | k < 3
        ensures PhaseValid(k)
      {
      }
    }

    /** Whatever one phase's step does leaves the other phases alone. */
    twostate lemma OthersKept(p: nat)
      requires |phases| == 3 && p < 3 && old(PhasesValid()) && PhaseValid(p)
      requires unchanged(PhaseRepr() - phases[p].Repr)
      ensures PhasesValid()
      ensures forall k: nat :: k < 3 && k != p ==> PhaseState(k) == old(PhaseState(k))
    {
      forall k: nat | k < 3 && k != p
        ensures PhaseValid(k) && PhaseState(k) == old(PhaseState(k))
      {
        assert Apart(k, p) && old(PhaseValid(k));
      }
    }

    method MeasurePhases(pac: Sample)
      requires |phases| == 3 && PhasesValid()
      modifies PhaseRepr()
      ensures PhasesValid()
      ensures forall k: nat :: k < 3 ==> PhaseState(k) == VoltageAndCurrent(old(PhaseState(k)), pac.V[k], pac.I[k], cfg)
    {
      for p := 0 to 3
        invariant PhasesValid()
        invariant forall k: nat :: k < p ==>
            PhaseState(k) == VoltageAndCurrent(old(PhaseState(k)), pac.V[k], pac.I[k], cfg)
        invariant forall k: nat :: p <= k < 3 ==> PhaseState(k) == old(PhaseState(k))
      {
        assert PhaseValid(p) && PhaseState(p) == old(PhaseState(p));
        label before:
        phases[p].UpdateVoltageAndCurrent(pac.V[p], pac.I[p], cfg);
        OthersKept@before(p);
      }
    }

    method PowerPhases(pac: Sample)
      requires |phases| == 3 && PhasesValid()
      requires forall k: nat :: k < 3 ==> PhaseState(k).m.unbiasedRms != 0.0
      modifies PhaseRepr()
      ensures PhasesValid()
      ensures forall k: nat :: k < 3 ==> PhaseState(k) == PowerAndEnergy(old(PhaseState(k)), pac.V[k], pac.I[k], cfg)
    {
      for p := 0 to 3
        invariant PhasesValid()
        invariant forall k: nat :: k < p ==>
            PhaseState(k) == PowerAndEnergy(old(PhaseState(k)), pac.V[k], pac.I[k], cfg)
        invariant forall k: nat :: p <= k < 3 ==> PhaseState(k) == old(PhaseState(k))
      {
        assert PhaseValid(p) && PhaseState(p) == old(PhaseState(p));
        label before:
        phases[p].UpdatePowerAndEnergy(pac.V[p], pac.I[p], cfg);
        OthersKept@before(p);
      }
    }

    method TotalPhases()
      requires |phases| == 3
      modifies this
      ensures var x, y, z := phases[0].m, phases[1].m, phases[2].m;
              m == old(m).(pAvg := Total(x.pAvg, y.pAvg, z.pAvg, 3), wAvg := Total(x.wAvg, y.wAvg, z.wAvg, 3),
                           vRms := Total(x.vPow2, y.vPow2, z.vPow2, 3), iRms := Total(x.iPow2, y.iPow2, z.iPow2, 3),
                           uiRms := Total(x.unbiasedPow2, y.unbiasedPow2, z.unbiasedPow2, 3))
      ensures w == old(w)
    {
      m := m.(pAvg := 0.0, wAvg := 0.0, vRms := 0.0, iRms := 0.0, uiRms := 0.0);
      ghost var x, y, z := phases[0].m, phases[1].m, phases[2].m;
      for p := 0 to 3
        invariant m == old(m).(pAvg := Total(x.pAvg, y.pAvg, z.pAvg, p), wAvg := Total(x.wAvg, y.wAvg, z.wAvg, p),
                               vRms := Total(x.vPow2, y.vPow2, z.vPow2, p), iRms := Total(x.iPow2, y.iPow2, z.iPow2, p),
                               uiRms := Total(x.unbiasedPow2, y.unbiasedPow2, z.unbiasedPow2, p))
        invariant w == old(w)
      {
        var t := phases[p].m;
        m := m.(pAvg := m.pAvg + t.pAvg, wAvg := m.wAvg + t.wAvg, vRms := m.vRms + t.vPow2,
                iRms := m.iRms + t.iPow2, uiRms := m.uiRms + t.unbiasedPow2);
      }
    }

    ghost predicate OwnValid()
      reads this, maf, maf.Repr
    {
      && maf.Valid() && this !in maf.Repr && maf.window == cfg.samples
      && maf.floored == [true, true, true, true, true, true, true, true]
    }

    /** Feeds the three totals that the fields hold, and replaces them by their roots. */
    method AverageTotals()
      requires cfg.Valid() && OwnValid()
      modifies OwnRepr()
      ensures OwnValid()
      ensures SharedState() == Averaged(old(SharedState()), cfg)
    {
      var mean := maf.Update(C_I, m.iRms);
      m := m.(iRms := RmsEvaluate(mean, cfg));
      mean := maf.Update(C_V, m.vRms);
      m := m.(vRms := RmsEvaluate(mean, cfg));
      mean := maf.Update(C_UI, m.uiRms);
      m := m.(uiRms := RmsEvaluate(mean, cfg));
    }

    method CollectPhases()
      requires |phases| == 3 && cfg.Valid() && OwnValid()
      modifies OwnRepr()
      ensures OwnValid()
      ensures SharedState() == Collected(old(SharedState()), old(phases[0].m), old(phases[1].m), old(phases[2].m), cfg)
    {
      TotalPhases();
      AverageTotals();
    }

    method SplitPhase(p: nat, pac: Sample) returns (square: real)
      requires |phases| == 3 && PhasesValid() && p < 3
      modifies PhaseRepr()
      ensures PhasesValid()
      ensures PhaseState(p) == SplitCurrent(old(PhaseState(p)), pac.V[p], pac.I[p], cfg)
      ensures forall k: nat :: k < 3 && k != p ==> PhaseState(k) == old(PhaseState(k))
      ensures square == Square(PhaseState(p).c.iv)
    {
      assert PhaseValid(p);
      square := phases[p].Split(pac.V[p], pac.I[p], cfg);
      OthersKept(p);
    }

    ghost function VoidTotal(done: nat): real
      requires |phases| == 3
      reads phases, phases[0].maf, phases[1].maf, phases[2].maf
    {
      Total(Square(PhaseState(0).c.iv), Square(PhaseState(1).c.iv), Square(PhaseState(2).c.iv), done)
    }

    method SplitPhases(pac: Sample) returns (total: real)
      requires |phases| == 3 && PhasesValid()
      modifies PhaseRepr()
      ensures PhasesValid()
      ensures forall k: nat :: k < 3 ==> PhaseState(k) == SplitCurrent(old(PhaseState(k)), pac.V[k], pac.I[k], cfg)
      ensures total == VoidTotal(3)
    {
      total := 0.0;
      ghost var before := [PhaseState(0), PhaseState(1), PhaseState(2)];
      ghost var after := seq(3, k requires 0 <= k < 3 => SplitCurrent(before[k], pac.V[k], pac.I[k], cfg));
      for p := 0 to 3
        invariant PhasesValid() && VoidTotals(after, total, p)
        invariant forall k: nat :: k < p ==> PhaseState(k) == after[k]
        invariant forall k: nat :: p <= k < 3 ==> PhaseState(k) == before[k]
      {
        VoidTotalsStep(after, total, p);
        var square := SplitPhase(p, pac);
        total := total + square;
      }
    }

    method BalanceActive(pac: Sample, shared: SharedMeasures)
      requires |phases| == 3 && PhasesValid()
      modifies PhaseRepr()
      ensures PhasesValid()
      ensures forall k: nat :: k < 3 ==> PhaseState(k) == BalancedActive(old(PhaseState(k)), shared, pac.V[k])
    {
      for p := 0 to 3
        invariant PhasesValid()
        invariant forall k: nat :: k < p ==> PhaseState(k) == BalancedActive(old(PhaseState(k)), shared, pac.V[k])
        invariant forall k: nat :: p <= k < 3 ==> PhaseState(k) == old(PhaseState(k))
      {
        assert PhaseValid(p) && PhaseState(p) == old(PhaseState(p));
        label before:
        phases[p].BalanceActive(shared, pac.V[p]);
        OthersKept@before(p);
      }
    }

    method BalanceReactive(shared: SharedMeasures)
      requires |phases| == 3 && PhasesValid()
      modifies PhaseRepr()
      ensures PhasesValid()
      ensures forall k: nat :: k < 3 ==> PhaseState(k) == BalancedReactive(old(PhaseState(k)), shared)
    {
      for p := 0 to 3
        invariant PhasesValid()
        invariant forall k: nat :: k < p ==> PhaseState(k) == BalancedReactive(old(PhaseState(k)), shared)
        invariant forall k: nat :: p <= k < 3 ==> PhaseState(k) == old(PhaseState(k))
      {
        assert PhaseValid(p) && PhaseState(p) == old(PhaseState(p));
        label before:
        phases[p].BalanceReactive(shared);
        OthersKept@before(p);
      }
    }

    method AveragePhase(p: nat) returns (activeSquare: real, reactiveSquare: real)
      requires |phases| == 3 && PhasesValid() && p < 3
      modifies PhaseRepr()
      ensures PhasesValid()
      ensures PhaseState(p) == BalancedRms(old(PhaseState(p)), cfg)
      ensures forall k: nat :: k < 3 && k != p ==> PhaseState(k) == old(PhaseState(k))
      ensures activeSquare == Square(old(PhaseState(p)).c.iba) && reactiveSquare == Square(old(PhaseState(p)).c.ibr)
    {
      assert PhaseValid(p);
      activeSquare, reactiveSquare := phases[p].AverageBalanced(cfg);
      OthersKept(p);
    }

    method AveragePhases() returns (active: real, reactive: real)
      requires |phases| == 3 && PhasesValid()
      modifies PhaseRepr()
      ensures PhasesValid()
      ensures forall k: nat :: k < 3 ==> PhaseState(k) == BalancedRms(old(PhaseState(k)), cfg)
      ensures active ==
          old(Total(Square(PhaseState(0).c.iba), Square(PhaseState(1).c.iba), Square(PhaseState(2).c.iba), 3))
      ensures reactive ==
          old(Total(Square(PhaseState(0).c.ibr), Square(PhaseState(1).c.ibr), Square(PhaseState(2).c.ibr), 3))
    {
      active, reactive := 0.0, 0.0;
      ghost var before := [PhaseState(0), PhaseState(1), PhaseState(2)];
      for p := 0 to 3
        invariant PhasesValid() && BalancedTotals(before, active, reactive, p)
        invariant forall k: nat :: k < p ==> PhaseState(k) == BalancedRms(before[k], cfg)
        invariant forall k: nat :: p <= k < 3 ==> PhaseState(k) == before[k]
      {
        BalancedTotalsStep(before, active, reactive, p);
        var activeSquare, reactiveSquare := AveragePhase(p);
        active, reactive := active + activeSquare, reactive + reactiveSquare;
      }
    }

    method UnbalancePhases()
      requires |phases| == 3 && PhasesValid()
      modifies PhaseRepr()
      ensures PhasesValid()
      ensures forall k: nat :: k < 3 ==> PhaseState(k) == Unbalanced(old(PhaseState(k)))
    {
      for p := 0 to 3
        invariant PhasesValid()
        invariant forall k: nat :: k < p ==> PhaseState(k) == Unbalanced(old(PhaseState(k)))
        invariant forall k: nat :: p <= k < 3 ==> PhaseState(k) == old(PhaseState(k))
      {
        assert PhaseValid(p) && PhaseState(p) == old(PhaseState(p));
        label before:
        phases[p].Unbalance();
        OthersKept@before(p);
      }
    }

    method SquarePhase(p: nat) returns (activeSquare: real, reactiveSquare: real)
      requires |phases| == 3 && PhasesValid() && p < 3
      modifies PhaseRepr()
      ensures PhasesValid()
      ensures PhaseState(p) == UnbalancedSquares(old(PhaseState(p)))
      ensures forall k: nat :: k < 3 && k != p ==> PhaseState(k) == old(PhaseState(k))
      ensures activeSquare == Square(old(PhaseState(p)).c.iua) && reactiveSquare == Square(old(PhaseState(p)).c.iur)
    {
      assert PhaseValid(p);
      activeSquare, reactiveSquare := phases[p].SquareUnbalanced();
      OthersKept(p);
    }

    method SquarePhases() returns (active: real, reactive: real)
      requires |phases| == 3 && PhasesValid()
      modifies PhaseRepr()
      ensures PhasesValid()
      ensures forall k: nat :: k < 3 ==> PhaseState(k) == UnbalancedSquares(old(PhaseState(k)))
      ensures active ==
          old(Total(Square(PhaseState(0).c.iua), Square(PhaseState(1).c.iua), Square(PhaseState(2).c.iua), 3))
      ensures reactive ==
          old(Total(Square(PhaseState(0).c.iur), Square(PhaseState(1).c.iur), Square(PhaseState(2).c.iur), 3))
    {
      active, reactive := 0.0, 0.0;
      ghost var x, y, z := PhaseState(0).c, PhaseState(1).c, PhaseState(2).c;
      for p := 0 to 3
        invariant PhasesValid()
        invariant forall k: nat :: k < p ==> PhaseState(k) == UnbalancedSquares(old(PhaseState(k)))
        invariant forall k: nat :: p <= k < 3 ==> PhaseState(k) == old(PhaseState(k))
        invariant active == Total(Square(x.iua), Square(y.iua), Square(z.iua), p)
        invariant reactive == Total(Square(x.iur), Square(y.iur), Square(z.iur), p)
      {
        var activeSquare, reactiveSquare := SquarePhase(p);
        active, reactive := active + activeSquare, reactive + reactiveSquare;
      }
    }

    method DecomposePhasePowers()
      requires |phases| == 3 && PhasesValid()
      modifies PhaseRepr()
      ensures PhasesValid()
      ensures forall k: nat :: k < 3 ==> PhaseState(k) == PhasePowers(old(PhaseState(k)), cfg)
    {
      for p := 0 to 3
        invariant PhasesValid()
        invariant forall k: nat :: k < p ==> PhaseState(k) == PhasePowers(old(PhaseState(k)), cfg)
        invariant forall k: nat :: p <= k < 3 ==> PhaseState(k) == old(PhaseState(k))
      {
        assert PhaseValid(p) && PhaseState(p) == old(PhaseState(p));
        label before:
        phases[p].DecomposePower(cfg);
        OthersKept@before(p);
      }
    }

    method EvaluatePhaseFactors()
      requires |phases| == 3 && PhasesValid()
      modifies PhaseRepr()
      ensures PhasesValid()
      ensures forall k: nat :: k < 3 ==> PhaseState(k) == PhaseFactors(old(PhaseState(k)), cfg)
    {
      for p := 0 to 3
        invariant PhasesValid()
        invariant forall k: nat :: k < p ==> PhaseState(k) == PhaseFactors(old(PhaseState(k)), cfg)
        invariant forall k: nat :: p <= k < 3 ==> PhaseState(k) == old(PhaseState(k))
      {
        assert PhaseValid(p) && PhaseState(p) == old(PhaseState(p));
        label before:
        phases[p].EvaluateFactors(cfg);
        OthersKept@before(p);
      }
    }

    /** Steps on the collective side leave the phases alone, and the other way round. */
    twostate lemma PhasesKept()
      requires |phases| == 3 && old(PhasesValid())
      requires unchanged(PhaseRepr())
      ensures PhasesValid()
      ensures forall k: nat :: k < 3 ==> PhaseState(k) == old(PhaseState(k))
    {
      forall k: nat | k < 3
        ensures PhaseValid(k) && PhaseState(k) == old(PhaseState(k))
      {
        assert phases[k].Repr <= PhaseRepr() && old(PhaseValid(k));
      }
    }

    /** Steps on the phases leave the collective side alone. */
    twostate lemma OwnKept()
      requires |phases| == 3 && old(OwnValid())
      requires unchanged(this, maf, maf.Repr)
      ensures OwnValid() && SharedState() == old(SharedState())
    {
    }

    method FeedVoid(iv: real)
      requires cfg.Valid() && OwnValid()
      modifies OwnRepr()
      ensures OwnValid() && SharedState() == AddVoid(old(SharedState()), iv, cfg)
    {
      var mean := maf.Update(C_IV, iv);
      m := m.(ivRms := RmsEvaluate(mean, cfg));
    }

    method FeedBalanced(iba: real, ibr: real)
      requires cfg.Valid() && OwnValid()
      modifies OwnRepr()
      ensures OwnValid() && SharedState() == AddBalanced(old(SharedState()), iba, ibr, cfg)
    {
      var mean := maf.Update(C_IBA, iba);
      m := m.(ibaRms := RmsEvaluate(mean, cfg));
      mean := maf.Update(C_IBR, ibr);
      m := m.(ibrRms := RmsEvaluate(mean, cfg));
    }

    method FeedUnbalanced(iua: real, iur: real)
      requires cfg.Valid() && OwnValid()
      modifies OwnRepr()
      ensures OwnValid() && SharedState() == AddUnbalanced(old(SharedState()), iua, iur, cfg)
    {
      var mean := maf.Update(C_IUA, iua);
      m := m.(iuaRms := RmsEvaluate(mean, cfg));
      mean := maf.Update(C_IUR, iur);
      m := m.(iurRms := RmsEvaluate(mean, cfg));
    }

    method BalancePhases(pac: Sample, shared: SharedMeasures) returns (active: real, reactive: real)
      requires |phases| == 3 && PhasesValid()
      modifies PhaseRepr()
      ensures PhasesValid()
      ensures forall k: nat :: k < 3 ==> PhaseState(k) == Balanced(old(PhaseState(k)), shared, pac.V[k], cfg)
      ensures active == Total(Square(PhaseState(0).c.iba), Square(PhaseState(1).c.iba), Square(PhaseState(2).c.iba), 3)
      ensures reactive ==
          Total(Square(PhaseState(0).c.ibr), Square(PhaseState(1).c.ibr), Square(PhaseState(2).c.ibr), 3)
    {
      BalanceActive(pac, shared);
      BalanceReactive(shared);
      active, reactive := AveragePhases();
    }

    method DecomposeOwnPower()
      modifies this
      ensures m == old(m) && w == PowersOf(old(w), m.vRms, m.iRms, m.ibrRms, m.iuaRms, m.iurRms, m.ivRms, cfg)
    {
      w := w.(a := Times(m.vRms, m.iRms));
      w := w.(q := Times(m.vRms, m.ibrRms));
      w := w.(na := Times(m.vRms, m.iuaRms));
      w := w.(nr := Times(m.vRms, m.iurRms));
      w := w.(n := cfg.sqrt(Square(w.na) + Square(w.nr)));
      w := w.(v := Times(m.vRms, m.ivRms));
    }

    method EvaluateOwnFactors()
      requires cfg.Valid()
      modifies this
      ensures m == old(m) && w == Factors(old(w), m.pAvg, cfg)
    {
      if w.a != 0.0 {
        w := w.(pf := Over(m.pAvg, w.a));
        w := w.(vf := Over(w.v, w.a));
      }
      var p2, q2, n2 := Square(m.pAvg), Square(w.q), Square(w.n);
      if p2 + q2 + n2 > 0.0 {
        RootIsPositive(p2 + q2 + n2, cfg);
        w := w.(nf := Over(w.n, cfg.sqrt(p2 + q2 + n2)));
      }
      if p2 + q2 > 0.0 {
        RootIsPositive(p2 + q2, cfg);
        w := w.(qf := Over(w.q, cfg.sqrt(p2 + q2)));
      }
    }

    // The stages of an update. Each is one transition of the state machine.

    method UpdateVoltagesAndCurrents(pac: Sample)
      requires Valid()
      modifies PhaseRepr(), OwnRepr()
      ensures Valid() && State() == MeasureStage(old(State()), pac, cfg)
    {
      MeasurePhases(pac);
      OwnKept();
    }

    method UpdatePowerAndEnergy(pac: Sample)
      requires Valid() && Dividable(State())
      modifies PhaseRepr(), OwnRepr()
      ensures Valid() && State() == PowerStage(old(State()), pac, cfg)
    {
      assert PhaseState(0) == State().x && PhaseState(1) == State().y && PhaseState(2) == State().z;
      PowerPhases(pac);
      OwnKept();
    }

    method UpdateCollectiveValues()
      requires Valid()
      modifies PhaseRepr(), OwnRepr()
      ensures Valid() && State() == CollectStage(old(State()), cfg)
    {
      CollectPhases();
      PhasesKept();
    }

    method SeparateVoid(pac: Sample)
      requires Valid()
      modifies PhaseRepr(), OwnRepr()
      ensures Valid() && State() == VoidStage(old(State()), pac, cfg)
    {
      var total := SplitPhases(pac);
      OwnKept();
      label split:
      FeedVoid(total);
      PhasesKept@split();
    }

    method SeparateBalanced(pac: Sample)
      requires Valid()
      modifies PhaseRepr(), OwnRepr()
      ensures Valid() && State() == BalanceStage(old(State()), pac, cfg)
    {
      var active, reactive := BalancePhases(pac, m);
      OwnKept();
      AverageBalanced(active, reactive);
    }

    method AverageBalanced(active: real, reactive: real)
      requires Valid()
      modifies OwnRepr()
      ensures Valid() && State() == old(State()).(sh := AddBalanced(old(State()).sh, active, reactive, cfg))
    {
      FeedBalanced(active, reactive);
      PhasesKept();
    }

    method SeparateUnbalanced()
      requires Valid()
      modifies PhaseRepr(), OwnRepr()
      ensures Valid() && State() == UnbalanceStage(old(State()), cfg)
    {
      UnbalancePhases();
      var active, reactive := SquarePhases();
      OwnKept();
      label squared:
      FeedUnbalanced(active, reactive);
      PhasesKept@squared();
    }

    method CurrentDecomposition(pac: Sample)
      requires Valid()
      modifies PhaseRepr(), OwnRepr()
      ensures Valid()
      ensures State() == UnbalanceStage(BalanceStage(VoidStage(old(State()), pac, cfg), pac, cfg), cfg)
    {
      SeparateVoid(pac);
      SeparateBalanced(pac);
      SeparateUnbalanced();
    }

    method PowerDecomposition()
      requires Valid()
      modifies PhaseRepr(), OwnRepr()
      ensures Valid() && State() == PowersStage(old(State()), cfg)
    {
      DecomposePhasePowers();
      OwnKept();
      label phasesDone:
      DecomposeOwnPower();
      PhasesKept@phasesDone();
    }

    method EvaluateFactors()
      requires Valid()
      modifies PhaseRepr(), OwnRepr()
      ensures Valid() && State() == FactorsStage(old(State()), cfg)
    {
      EvaluateOwnFactors();
      PhasesKept();
      label ownDone:
      EvaluatePhaseFactors();
      OwnKept@ownDone();
    }

    /** One sample through the whole engine. */
    method Update(pac: Sample)
      requires Valid()
      modifies PhaseRepr(), OwnRepr()
      ensures Valid() && State() == CPTState.Update(old(State()), pac, cfg)
    {
      UpdateVoltagesAndCurrents(pac);
      UpdatePowerAndEnergy(pac);
      UpdateCollectiveValues();
      CurrentDecomposition(pac);
      PowerDecomposition();
      EvaluateFactors();
    }
  }
}
