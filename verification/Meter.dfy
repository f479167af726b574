/** The sample loop of main.cpp: one second of samples through the engine, sixty readings into
    the mean filters, forty raw records, one message. */
module Meter {
  import opened Reals
  import opened Arithmetic
  import opened Sums
  import opened MovingAverage
  import opened CPTState
  import opened CPTEngine
  import opened Filters
  import CPTRun
  import Message

  const SAMPLE_RATE: nat := 15360
  const SAMPLES_PER_CYCLE: nat := 256
  const FREQ: nat := 60
  const RAW_PERIOD: nat := 384
  const RECORDS: nat := 40
  const RAW_PARAM: nat := 12
  const PARAMS_LEN: nat := 36

  /** The attributes of a phase, in the order they are reported. */
  function Attribute(m: Measures, c: Currents, w: Powers, a: nat): real
    requires a < Message.ATTRIBUTES
  {
    match a
    case 0 => m.vRms
    case 1 => m.iRms
    case 2 => w.a
    case 3 => m.pAvg
    case 4 => w.q
    case 5 => c.ibaRms
    case 6 => c.ibrRms
    case 7 => c.ivRms
    case 8 => w.pf
    case 9 => w.qf
    case _ => w.vf
  }

  function Attributes(m: Measures, c: Currents, w: Powers): (readings: seq<real>)
    ensures |readings| == Message.ATTRIBUTES
    ensures forall a :: 0 <= a < Message.ATTRIBUTES ==> readings[a] == Attribute(m, c, w, a)
  {
    seq(Message.ATTRIBUTES, a requires 0 <= a < Message.ATTRIBUTES => Attribute(m, c, w, a))
  }

  /** What filter `k` is given by the first `n` of the readings that start at filter `base`. */
  function Fed(readings: seq<real>, base: nat, n: nat, k: nat): seq<real>
    requires n <= |readings|
  {
    if base <= k < base + n then [readings[k - base]] else []
  }

  /** What filter `k` is given by the readings of the phase at place `i`. */
  function FedAt(s: CPTValue, order: seq<nat>, i: nat, k: nat): seq<real>
    requires Message.IsOrder(order) && i < Message.PHASES
  {
    var p := CPTRun.Phase(s, order[i]);
    Fed(Attributes(p.m, p.c, p.w), i * Message.ATTRIBUTES, Message.ATTRIBUTES, k)
  }

  /** What filter `k` is for: an attribute of the phase that the order puts at a place. */
  function Reading(s: CPTValue, order: seq<nat>, k: nat): real
    requires Message.IsOrder(order) && k < Message.ITEMS
  {
    var p := CPTRun.Phase(s, order[k / Message.ATTRIBUTES]);
    Attribute(p.m, p.c, p.w, k % Message.ATTRIBUTES)
  }

  function Last(h: seq<real>): real {
    if h == [] then 0.0 else h[|h| - 1]
  }

  /** From place `at` on, what a phase reports: the root mean squares of voltage and current,
      the three powers, the root mean squares of the currents, and the three factors. */
  ghost predicate AreListed(values: seq<real>, at: nat, s: CPTState.PhaseState) {
    && at + 11 <= |values|
    && values[at] == s.m.vRms && values[at + 1] == s.m.iRms
    && values[at + 2] == s.w.a && values[at + 3] == s.m.pAvg && values[at + 4] == s.w.q
    && values[at + 5] == s.c.ibaRms && values[at + 6] == s.c.ibrRms && values[at + 7] == s.c.ivRms
    && values[at + 8] == s.w.pf && values[at + 9] == s.w.qf && values[at + 10] == s.w.vf
  }

  lemma AttributesListed(values: seq<real>, at: nat, s: CPTState.PhaseState)
    requires at + 11 <= |values|
    requires forall a: nat :: a < 11 ==> values[at + a] == Attribute(s.m, s.c, s.w, a)
    ensures AreListed(values, at, s)
  {
    var list := values[at..at + 11];
    assert forall a: nat :: a < 11 ==> list[a] == values[at + a];
    assert list[0] == Attribute(s.m, s.c, s.w, 0) && list[1] == Attribute(s.m, s.c, s.w, 1);
    assert list[2] == Attribute(s.m, s.c, s.w, 2) && list[3] == Attribute(s.m, s.c, s.w, 3);
    assert list[4] == Attribute(s.m, s.c, s.w, 4) && list[5] == Attribute(s.m, s.c, s.w, 5);
    assert list[6] == Attribute(s.m, s.c, s.w, 6) && list[7] == Attribute(s.m, s.c, s.w, 7);
    assert list[8] == Attribute(s.m, s.c, s.w, 8) && list[9] == Attribute(s.m, s.c, s.w, 9);
    assert list[10] == Attribute(s.m, s.c, s.w, 10);
  }

  /** Readings in the order of the filters are what the phases report, one after the other. */
  lemma ReadingsListed(values: seq<real>, s: CPTValue, order: seq<nat>, i: nat)
    requires Message.IsOrder(order) && i < 3 && |values| == Message.ITEMS
    requires forall k: nat :: k < Message.ITEMS ==> values[k] == Reading(s, order, k)
    ensures AreListed(values, 11 * i, CPTRun.Phase(s, order[i]))
  {
    var p, at := CPTRun.Phase(s, order[i]), 11 * i;
    forall a: nat | a < 11
      ensures values[at + a] == Attribute(p.m, p.c, p.w, a)
    {
      ReadingAt(s, order, i, a);
    }
    AttributesListed(values, at, p);
  }

  // ---------------------------------------------------------------- the record buffer

  function RecordOf(slot: nat): nat {
    slot / PARAMS_LEN
  }

  /** The last slot of each phase is never written. */
  predicate IsDummy(slot: nat) {
    slot % RAW_PARAM == Message.ATTRIBUTES
  }

  /** The reading that a slot holds. */
  function ItemOf(slot: nat): (k: nat)
    requires !IsDummy(slot)
    ensures k < Message.ITEMS
  {
    Message.ATTRIBUTES * (slot % PARAMS_LEN / RAW_PARAM) + slot % RAW_PARAM
  }

  /** The slot that write number `w` of a second goes to. */
  function SlotOf(w: nat): nat {
    PARAMS_LEN * (w / Message.ITEMS) + RAW_PARAM * (w % Message.ITEMS / Message.ATTRIBUTES)
    + w % Message.ITEMS % Message.ATTRIBUTES
  }

  function WriteOf(slot: nat): nat
    requires !IsDummy(slot)
  {
    Message.ITEMS * RecordOf(slot) + ItemOf(slot)
  }

  /** Every slot that is not a dummy is written exactly once in a second, and no other is. */
  lemma WrittenOnce(slot: nat, w: nat)
    ensures !IsDummy(slot) ==> SlotOf(WriteOf(slot)) == slot
    ensures !IsDummy(SlotOf(w)) && WriteOf(SlotOf(w)) == w
    ensures SlotOf(w) < RECORDS * PARAMS_LEN <==> w < RECORDS * Message.ITEMS
  {
    SlotParts(w);
    if !IsDummy(slot) {
      WriteOfParts(slot);
    }
  }

  lemma WriteOfParts(slot: nat)
    requires !IsDummy(slot)
    ensures SlotOf(WriteOf(slot)) == slot
  {
    var r, rest := slot / PARAMS_LEN, slot % PARAMS_LEN;
    var i, a := rest / RAW_PARAM, rest % RAW_PARAM;
    QuotientIs(slot, RAW_PARAM, 3 * r + i, a);
    QuotientIs(WriteOf(slot), Message.ITEMS, r, Message.ATTRIBUTES * i + a);
    QuotientIs(Message.ATTRIBUTES * i + a, Message.ATTRIBUTES, i, a);
  }

  lemma SlotParts(w: nat)
    ensures var slot := SlotOf(w);
            && !IsDummy(slot) && RecordOf(slot) == w / Message.ITEMS && ItemOf(slot) == w % Message.ITEMS
  {
    var r, k := w / Message.ITEMS, w % Message.ITEMS;
    var i, a := k / Message.ATTRIBUTES, k % Message.ATTRIBUTES;
    SlotOfParts(SlotOf(w), r, i, a);
  }

  lemma SlotOfParts(slot: nat, r: nat, i: nat, a: nat)
    requires i < Message.PHASES && a < Message.ATTRIBUTES && slot == PARAMS_LEN * r + RAW_PARAM * i + a
    ensures !IsDummy(slot) && RecordOf(slot) == r && ItemOf(slot) == Message.ATTRIBUTES * i + a
  {
    QuotientIs(slot, PARAMS_LEN, r, RAW_PARAM * i + a);
    QuotientIs(slot, RAW_PARAM, 3 * r + i, a);
    QuotientIs(RAW_PARAM * i + a, RAW_PARAM, i, a);
  }

  // ---------------------------------------------------------------- one second

  /** One sample through the engine, as a function value. */
  ghost function Stepper(cfg: Config): (CPTValue, Sample) -> CPTValue
    requires cfg.Valid()
  {
    (s: CPTValue, pac: Sample) => Update(s, pac, cfg)
  }

  lemma StepperSteps(s: CPTValue, pac: Sample, cfg: Config)
    requires cfg.Valid()
    ensures Stepper(cfg)(s, pac) == Update(s, pac, cfg)
  {
  }

  /** The samples `x` take the engine through these states. */
  ghost predicate Follows(states: seq<CPTValue>, x: seq<Sample>, step: (CPTValue, Sample) -> CPTValue) {
    && |states| == |x| + 1
    && forall t :: 0 <= t < |x| ==> states[t + 1] == step(states[t], x[t])
  }

  /** One second after another makes a longer run. */
  lemma FollowsJoin(a: seq<CPTValue>, x: seq<Sample>, b: seq<CPTValue>, y: seq<Sample>,
                    step: (CPTValue, Sample) -> CPTValue)
    requires Follows(a, x, step) && Follows(b, y, step) && b[0] == a[|x|]
    ensures Follows(a + b[1..], x + y, step)
  {
    var states, z := a + b[1..], x + y;
    forall t | 0 <= t < |z|
      ensures states[t + 1] == step(states[t], z[t])
    {
      if t >= |x| {
        assert states[t] == b[t - |x|] && states[t + 1] == b[t - |x| + 1] && z[t] == y[t - |x|];
      }
    }
  }

  /** From the configured state, that is a run of the engine. */
  lemma FollowsIsRun(states: seq<CPTValue>, x: seq<Sample>, cfg: Config)
    requires cfg.Valid() && Follows(states, x, Stepper(cfg)) && Initial(states[0])
    ensures CPTRun.IsRun(states, x, cfg)
  {
    forall t: nat | t < |x|
      ensures CPTRun.StepAt(states, x, t, cfg)
    {
      StepperSteps(states[t], x[t], cfg);
    }
  }

  lemma FollowsExtends(states: seq<CPTValue>, next: CPTValue, x: seq<Sample>, t: nat,
                       step: (CPTValue, Sample) -> CPTValue)
    requires t < |x| && Follows(states, x[..t], step) && next == step(states[t], x[t])
    ensures Follows(states + [next], x[..t + 1], step)
  {
  }

  /** The readings of the first `n` ends of a cycle. */
  ghost function CycleReadings(states: seq<CPTValue>, order: seq<nat>, k: nat, n: nat): (r: seq<real>)
    requires Message.IsOrder(order) && k < Message.ITEMS && SAMPLES_PER_CYCLE * n < |states|
    ensures |r| == n
  {
    seq(n, c requires 0 <= c < n => Reading(states[SAMPLES_PER_CYCLE * (c + 1)], order, k))
  }

  /** The inputs of the mean filters: those before the second, then the readings of `n` cycles. */
  ghost predicate CyclesFed(inputs: seq<seq<real>>, before: seq<seq<real>>, states: seq<CPTValue>, order: seq<nat>,
                            n: nat)
  {
    && Message.IsOrder(order) && |inputs| == |before| == Message.ITEMS && SAMPLES_PER_CYCLE * n < |states|
    && forall k :: 0 <= k < Message.ITEMS ==> inputs[k] == before[k] + CycleReadings(states, order, k, n)
  }

  lemma CyclesKept(inputs: seq<seq<real>>, before: seq<seq<real>>, states: seq<CPTValue>, next: CPTValue,
                   order: seq<nat>, n: nat)
    requires CyclesFed(inputs, before, states, order, n)
    ensures CyclesFed(inputs, before, states + [next], order, n)
  {
    forall k | 0 <= k < Message.ITEMS
      ensures CycleReadings(states + [next], order, k, n) == CycleReadings(states, order, k, n)
    {
    }
  }

  lemma CyclesStep(inputs: seq<seq<real>>, next: seq<seq<real>>, before: seq<seq<real>>, states: seq<CPTValue>,
                   order: seq<nat>, n: nat)
    requires CyclesFed(inputs, before, states, order, n) && |next| == Message.ITEMS
      && SAMPLES_PER_CYCLE * (n + 1) < |states|
    requires forall k :: 0 <= k < Message.ITEMS ==>
               next[k] == inputs[k] + [Reading(states[SAMPLES_PER_CYCLE * (n + 1)], order, k)]
    ensures CyclesFed(next, before, states, order, n + 1)
  {
    forall k | 0 <= k < Message.ITEMS
      ensures next[k] == before[k] + CycleReadings(states, order, k, n + 1)
    {
      assert CycleReadings(states, order, k, n + 1)
          == CycleReadings(states, order, k, n) + [Reading(states[SAMPLES_PER_CYCLE * (n + 1)], order, k)];
    }
  }

  /** The record buffer once the first `n` records are written over `before`. */
  ghost predicate RecordsWritten(params: seq<real>, before: seq<real>, states: seq<CPTValue>, order: seq<nat>, n: nat) {
    && Message.IsOrder(order) && |params| == |before| == RECORDS * PARAMS_LEN && RAW_PERIOD * n < |states|
    && forall slot: nat :: slot < |params| ==> params[slot] == RecordedAt(slot, before, states, order, n)
  }

  ghost function RecordedAt(slot: nat, before: seq<real>, states: seq<CPTValue>, order: seq<nat>, n: nat): real
    requires Message.IsOrder(order) && slot < |before| && RAW_PERIOD * n < |states|
  {
    if RecordOf(slot) < n && !IsDummy(slot)
    then Reading(states[RAW_PERIOD * (RecordOf(slot) + 1)], order, ItemOf(slot)) else before[slot]
  }

  /** Record `r` of a second is what the phases report after its sample 384(r + 1). */
  lemma RecordsListed(params: seq<real>, before: seq<real>, states: seq<CPTValue>, order: seq<nat>, r: nat, i: nat)
    requires RecordsWritten(params, before, states, order, RECORDS) && r < RECORDS && i < 3
    ensures AreListed(params, 36 * r + 12 * i, CPTRun.Phase(states[384 * (r + 1)], order[i]))
    ensures params[36 * r + 12 * i + 11] == before[36 * r + 12 * i + 11]
  {
    var s := states[384 * (r + 1)];
    var p, at := CPTRun.Phase(s, order[i]), 36 * r + 12 * i;
    forall a: nat | a < 11
      ensures params[at + a] == Attribute(p.m, p.c, p.w, a)
    {
      RecordedReading(params, before, states, order, r, i, a);
    }
    AttributesListed(params, at, p);
    QuotientIs(at + 11, RAW_PARAM, 3 * r + i, 11);
    assert params[at + 11] == RecordedAt(at + 11, before, states, order, RECORDS);
  }

  lemma RecordedReading(params: seq<real>, before: seq<real>, states: seq<CPTValue>, order: seq<nat>, r: nat, i: nat,
                        a: nat)
    requires RecordsWritten(params, before, states, order, RECORDS) && r < RECORDS && i < 3 && a < 11
    ensures var p := CPTRun.Phase(states[384 * (r + 1)], order[i]);
            params[36 * r + 12 * i + a] == Attribute(p.m, p.c, p.w, a)
  {
    var slot := 36 * r + 12 * i + a;
    SlotOfParts(slot, r, i, a);
    ReadingAt(states[384 * (r + 1)], order, i, a);
    assert params[slot] == RecordedAt(slot, before, states, order, RECORDS);
  }

  lemma RecordsKept(params: seq<real>, before: seq<real>, states: seq<CPTValue>, next: CPTValue, order: seq<nat>,
                    n: nat)
    requires RecordsWritten(params, before, states, order, n)
    ensures RecordsWritten(params, before, states + [next], order, n)
  {
    forall slot: nat | slot < |params|
      ensures params[slot] == RecordedAt(slot, before, states + [next], order, n)
    {
      assert params[slot] == RecordedAt(slot, before, states, order, n);
    }
  }

  lemma RecordsStep(params: seq<real>, next: seq<real>, before: seq<real>, states: seq<CPTValue>, order: seq<nat>,
                    n: nat)
    requires RecordsWritten(params, before, states, order, n) && RAW_PERIOD * (n + 1) < |states|
    requires PartlyWritten(next, params, states[RAW_PERIOD * (n + 1)], order, n, Message.ITEMS)
    ensures RecordsWritten(next, before, states, order, n + 1)
  {
    forall slot: nat | slot < |next|
      ensures next[slot] == RecordedAt(slot, before, states, order, n + 1)
    {
      assert params[slot] == RecordedAt(slot, before, states, order, n);
    }
  }

  /** How a counter that restarts at `period` goes on with the samples. */
  lemma CounterStep(idx: nat, period: nat)
    requires 0 < period
    ensures idx % period + 1 >= period ==> (idx + 1) % period == 0 && (idx + 1) / period == idx / period + 1
                                           && idx + 1 == period * (idx / period + 1)
    ensures idx % period + 1 < period ==> (idx + 1) % period == idx % period + 1 && (idx + 1) / period == idx / period
  {
    var q, r := idx / period, idx % period;
    assert idx == period * q + r;
    if r + 1 >= period {
      assert idx + 1 == period * (q + 1);
      QuotientIs(idx + 1, period, q + 1, 0);
    } else {
      QuotientIs(idx + 1, period, q, r + 1);
    }
  }

  /** What a second started from, the states it went through and the slots it wrote. */
  datatype Trace = Trace(inputs: seq<seq<real>>, params: seq<real>, states: seq<CPTValue>, log: seq<nat>)

  function Cycles(idx: nat): nat {
    idx / SAMPLES_PER_CYCLE
  }

  function Records(idx: nat): nat {
    idx / RAW_PERIOD
  }

  /** The counters of the loop: samples since the last reading, samples since the last record,
      and where the next record goes. */
  predicate Counted(m: nat, n: nat, offset: nat, idx: nat) {
    m == idx % SAMPLES_PER_CYCLE && n == idx % RAW_PERIOD && offset == PARAMS_LEN * Records(idx)
  }

  method NewEngine(sqrt: real -> real) returns (engine: CPT, ghost own: set<object>)
    requires IsSqrt(sqrt)
    ensures engine.Valid() && own == engine.PhaseRepr() + engine.OwnRepr() && fresh(own) && Initial(engine.State())
    ensures engine.cfg == CPTState.Config(SAMPLES_PER_CYCLE, 1.0 / SAMPLE_RATE as real, sqrt)
  {
    engine := new CPT.Config(SAMPLE_RATE, SAMPLES_PER_CYCLE, sqrt);
    own := engine.PhaseRepr() + engine.OwnRepr();
  }

  /** The filters that average the readings of a second. */
  method NewMeans() returns (bank: FilterBank)
    ensures bank.Valid() && bank.window == FREQ && |bank.floored| == Message.ITEMS
    ensures forall k: nat :: k < Message.ITEMS ==> !bank.floored[k] && bank.Input(k) == []
    ensures fresh(bank) && fresh(bank.Repr)
  {
    bank := new FilterBank(FREQ, seq(Message.ITEMS, _ => false));
  }

  lemma WholeSecond(m: nat, n: nat, offset: nat)
    requires Counted(m, n, offset, SAMPLE_RATE)
    ensures m == 0 && n == 0 && offset == RECORDS * PARAMS_LEN
    ensures Cycles(SAMPLE_RATE) == FREQ && Records(SAMPLE_RATE) == RECORDS
  {
  }

  class Meter {
    const cpt: CPT
    const mean: FilterBank
    const params: array<real>
    const order: seq<nat>

    // The objects of the engine, and of the mean filters.
    ghost const engineRepr: set<object>
    ghost const meanRepr: set<object>

    ghost predicate Apart() {
      && |cpt.phases| == 3 && engineRepr == cpt.PhaseRepr() + cpt.OwnRepr() && meanRepr == {mean} + mean.Repr
      && engineRepr !! meanRepr && params !in engineRepr && params !in meanRepr
    }

    ghost predicate MeanValid()
      reads mean, mean.Repr
    {
      && mean.Valid() && mean.window == FREQ && |mean.floored| == Message.ITEMS
      && forall k :: 0 <= k < Message.ITEMS ==> !mean.floored[k]
    }

    ghost predicate Shaped() {
      Apart() && params.Length == RECORDS * PARAMS_LEN && Message.IsOrder(order)
    }

    ghost predicate Valid()
      reads cpt, cpt.maf, cpt.maf.Repr, cpt.phases, engineRepr, mean, mean.Repr
    {
      Shaped() && MeanValid() && cpt.Valid()
    }

    constructor (order: seq<nat>, sqrt: real -> real)
      requires Message.IsOrder(order) && IsSqrt(sqrt)
      ensures Valid() && this.order == order && Initial(cpt.State())
      ensures fresh(engineRepr) && fresh(meanRepr) && fresh(params)
      ensures cpt.cfg == CPTState.Config(SAMPLES_PER_CYCLE, 1.0 / SAMPLE_RATE as real, sqrt)
      ensures forall k: nat :: k < Message.ITEMS ==> mean.Input(k) == []
    {
      var engine, own := NewEngine(sqrt);
      var bank := NewMeans();
      var records := new real[RECORDS * PARAMS_LEN](_ => 0.0);
      cpt, mean, params := engine, bank, records;
      this.order := order;
      engineRepr := own;
      meanRepr := {bank} + bank.Repr;
    }

    /** One reading of every attribute of a phase into its mean filter. */
    method UpdatePhaseMeans(m: Measures, c: Currents, w: Powers, base: nat)
      requires Apart() && MeanValid() && base + Message.ATTRIBUTES <= Message.ITEMS
      modifies meanRepr
      ensures MeanValid()
      ensures forall k: nat ::
          mean.Input(k) == old(mean.Input(k)) + Fed(Attributes(m, c, w), base, Message.ATTRIBUTES, k)
    {
      var readings := Attributes(m, c, w);
      for a := 0 to Message.ATTRIBUTES
        invariant MeanValid()
        invariant forall k: nat :: mean.Input(k) == old(mean.Input(k)) + Fed(readings, base, a, k)
      {
        var reported := mean.Update(base + a, readings[a]);
      }
    }

    twostate lemma EngineKept()
      requires Shaped() && old(cpt.Valid()) && unchanged(engineRepr)
      ensures cpt.Valid() && cpt.State() == old(cpt.State())
    {
      cpt.PhasesKept();
      cpt.OwnKept();
    }

    twostate lemma MeanKept()
      requires Apart() && old(MeanValid()) && unchanged(meanRepr)
      ensures MeanValid()
    {
    }

    method UpdateMeansOf(i: nat)
      requires Valid() && i < Message.PHASES
      modifies meanRepr
      ensures MeanValid()
      ensures forall k: nat ::
          mean.Input(k) == old(mean.Input(k)) + FedAt(old(cpt.State()), order, i, k)
    {
      var p := cpt.phases[order[i]];
      assert p.State() == CPTRun.Phase(cpt.State(), order[i]);
      assert cpt.PhaseValid(order[i]);
      UpdatePhaseMeans(p.m, p.c, p.w, i * Message.ATTRIBUTES);
    }

    method UpdateMeansAt(i: nat)
      requires Valid() && i < Message.PHASES
      modifies meanRepr
      ensures Valid() && cpt.State() == old(cpt.State())
      ensures forall k: nat :: k < Message.ITEMS ==>
        mean.Input(k) == old(mean.Input(k)) + (if InPlace(i, k) then [Reading(cpt.State(), order, k)] else [])
    {
      UpdateMeansOf(i);
      EngineKept();
      forall k: nat | k < Message.ITEMS
        ensures mean.Input(k) == old(mean.Input(k)) + (if InPlace(i, k) then [Reading(cpt.State(), order, k)] else [])
      {
        FedInPlace(cpt.State(), order, i, k);
      }
    }

    /** One reading of every attribute of every phase into its mean filter. */
    method UpdateMeanValues()
      requires Valid()
      modifies meanRepr
      ensures Valid() && cpt.State() == old(cpt.State())
      ensures forall k: nat :: k < Message.ITEMS ==>
          mean.Input(k) == old(mean.Input(k)) + [Reading(cpt.State(), order, k)]
      ensures forall i: nat :: i < 3 ==> AreListed(Newest(), 11 * i, CPTRun.Phase(cpt.State(), order[i]))
    {
      ghost var s := cpt.State();
      for i := 0 to Message.PHASES
        invariant Valid() && cpt.State() == s
        invariant forall k: nat :: k < Message.ITEMS ==>
          mean.Input(k) == old(mean.Input(k)) + (if k < i * Message.ATTRIBUTES then [Reading(s, order, k)] else [])
      {
        UpdateMeansAt(i);
      }
      forall i: nat | i < 3
        ensures AreListed(Newest(), 11 * i, CPTRun.Phase(s, order[i]))
      {
        ReadingsListed(Newest(), s, order, i);
      }
    }

    /** The last input of every mean filter. */
    ghost function Newest(): (values: seq<real>)
      reads mean
      ensures |values| == Message.ITEMS
    {
      seq(Message.ITEMS, k requires 0 <= k < Message.ITEMS reads mean => Last(mean.Input(k)))
    }

    /** Writes record `r`; `log` lists the slots written, in order. */
    method UpdateRawValues(offset: nat, ghost r: nat, ghost written: seq<nat>) returns (ghost log: seq<nat>)
      requires Valid() && r < RECORDS && offset == PARAMS_LEN * r && AllSlots(written, Message.ITEMS * r)
      modifies params
      ensures Valid() && cpt.State() == old(cpt.State())
      ensures PartlyWritten(params[..], old(params[..]), cpt.State(), order, r, Message.ITEMS)
      ensures forall i: nat :: i < 3 ==>
                AreListed(params[..], 36 * r + 12 * i, CPTRun.Phase(cpt.State(), order[i]))
      ensures AllSlots(log, Message.ITEMS * (r + 1))
    {
      log := written;
      for i := 0 to Message.PHASES
        invariant PartlyWritten(params[..], old(params[..]), cpt.State(), order, r, Message.ATTRIBUTES * i)
        invariant AllSlots(log, Message.ITEMS * r + Message.ATTRIBUTES * i)
      {
        log := WritePhase(cpt.phases[order[i]], offset, r, i, log, old(params[..]));
      }
      forall i: nat | i < 3
        ensures AreListed(params[..], 36 * r + 12 * i, CPTRun.Phase(cpt.State(), order[i]))
      {
        RecordListed(params[..], old(params[..]), cpt.State(), order, r, i);
      }
    }

    method WritePhase(p: Phase, offset: nat, ghost r: nat, i: nat, ghost written: seq<nat>, ghost before: seq<real>)
      returns (ghost log: seq<nat>)
      requires Valid() && r < RECORDS && i < Message.PHASES && offset == PARAMS_LEN * r && p == cpt.phases[order[i]]
      requires AllSlots(written, Message.ITEMS * r + Message.ATTRIBUTES * i)
      requires PartlyWritten(params[..], before, cpt.State(), order, r, Message.ATTRIBUTES * i)
      modifies params
      ensures PartlyWritten(params[..], before, cpt.State(), order, r, Message.ATTRIBUTES * (i + 1))
      ensures AllSlots(log, Message.ITEMS * r + Message.ATTRIBUTES * (i + 1))
    {
      log := written;
      var k := offset + i * RAW_PARAM;
      ghost var s := cpt.State();
      assert p.State() == CPTRun.Phase(s, order[i]);
      for a := 0 to Message.ATTRIBUTES
        invariant PartlyWritten(params[..], before, s, order, r, Message.ATTRIBUTES * i + a)
        invariant AllSlots(log, Message.ITEMS * r + Message.ATTRIBUTES * i + a)
      {
        PartlyStep(params[..], before, s, order, r, i, a);
        LogStep(log, r, i, a);
        ghost var now := params[..];
        params[k + a] := Attribute(p.m, p.c, p.w, a);
        assert params[..] == now[k + a := Attribute(p.m, p.c, p.w, a)];
        log := log + [k + a];
      }
    }

    /** What a second has done after `idx` samples, `cycles` readings and `records` records. */
    ghost predicate SoFar(t: Trace, x: seq<Sample>, idx: nat, cycles: nat, records: nat)
      requires Valid() && idx <= |x|
      reads cpt, cpt.maf, cpt.maf.Repr, cpt.phases, engineRepr, mean, mean.Repr, params
    {
      assert cpt.PhaseValid(0) && cpt.PhaseValid(1) && cpt.PhaseValid(2);
      && |t.states| == idx + 1 && t.states[idx] == cpt.State()
      && Follows(t.states, x[..idx], Stepper(cpt.cfg))
      && CyclesFed(mean.inputs, t.inputs, t.states, order, cycles)
      && RecordsWritten(params[..], t.params, t.states, order, records)
      && AllSlots(t.log, Message.ITEMS * records)
    }

    ghost predicate Going(t: Trace, x: seq<Sample>, idx: nat, cycles: nat, records: nat)
      reads cpt, cpt.maf, cpt.maf.Repr, cpt.phases, engineRepr, mean, mean.Repr, params
    {
      Valid() && idx <= |x| && SoFar(t, x, idx, cycles, records)
    }

    /** One sample through the engine. */
    method Feed(pac: Sample)
      requires Shaped() && cpt.Valid()
      modifies engineRepr
      ensures cpt.Valid() && cpt.State() == Stepper(cpt.cfg)(old(cpt.State()), pac)
    {
      StepperSteps(cpt.State(), pac, cpt.cfg);
      cpt.Update(pac);
    }

    /** The rest of the meter is left alone. */
    method FeedOnly(pac: Sample)
      requires Valid()
      modifies engineRepr
      ensures Valid() && cpt.State() == Stepper(cpt.cfg)(old(cpt.State()), pac)
      ensures mean.inputs == old(mean.inputs) && params[..] == old(params[..])
    {
      Feed(pac);
      MeanKept();
    }

    method Tick(ghost t: Trace, x: seq<Sample>, idx: nat, ghost cycles: nat, ghost records: nat)
      returns (ghost next: Trace)
      requires idx < |x| && Going(t, x, idx, cycles, records)
      modifies engineRepr
      ensures Going(next, x, idx + 1, cycles, records)
      ensures next.inputs == t.inputs && next.params == t.params && t.states <= next.states
    {
      FeedOnly(x[idx]);
      FollowsExtends(t.states, cpt.State(), x, idx, Stepper(cpt.cfg));
      CyclesKept(mean.inputs, t.inputs, t.states, cpt.State(), order, cycles);
      RecordsKept(params[..], t.params, t.states, cpt.State(), order, records);
      next := t.(states := t.states + [cpt.State()]);
    }

    method EndCycle(ghost t: Trace, ghost x: seq<Sample>, ghost idx: nat, ghost cycles: nat, ghost records: nat)
      requires Going(t, x, idx, cycles, records) && idx == SAMPLES_PER_CYCLE * (cycles + 1)
      modifies meanRepr
      ensures Going(t, x, idx, cycles + 1, records)
    {
      ghost var inputs := mean.inputs;
      UpdateMeanValues();
      CyclesStep(inputs, mean.inputs, t.inputs, t.states, order, cycles);
    }

    method EndRecord(ghost t: Trace, ghost x: seq<Sample>, ghost idx: nat, ghost cycles: nat, ghost records: nat,
                     offset: nat)
      returns (ghost next: Trace)
      requires Going(t, x, idx, cycles, records) && idx == RAW_PERIOD * (records + 1)
      requires records < RECORDS && offset == PARAMS_LEN * records
      modifies params
      ensures Going(next, x, idx, cycles, records + 1) && next == t.(log := next.log)
    {
      ghost var written := params[..];
      ghost var log := UpdateRawValues(offset, records, t.log);
      RecordsStep(written, params[..], t.params, t.states, order, records);
      next := t.(log := log);
    }

    /** Counts a sample towards the next cycle, and takes a reading at its end. */
    method CountCycle(ghost t: Trace, ghost x: seq<Sample>, ghost idx: nat, m: nat, ghost records: nat)
      returns (after: nat)
      requires Going(t, x, idx + 1, Cycles(idx), records) && m == idx % SAMPLES_PER_CYCLE
      modifies meanRepr
      ensures Going(t, x, idx + 1, Cycles(idx + 1), records) && after == (idx + 1) % SAMPLES_PER_CYCLE
    {
      CounterStep(idx, SAMPLES_PER_CYCLE);
      after := m + 1;
      if after >= SAMPLES_PER_CYCLE {
        after := 0;
        EndCycle(t, x, idx + 1, Cycles(idx), records);
      }
    }

    /** Counts a sample towards the next record, and writes it when it is due. */
    method CountRecord(ghost t: Trace, ghost x: seq<Sample>, ghost idx: nat, ghost cycles: nat, n: nat, offset: nat)
      returns (ghost next: Trace, after: nat, newOffset: nat)
      requires Going(t, x, idx + 1, cycles, Records(idx)) && |x| == SAMPLE_RATE
      requires n == idx % RAW_PERIOD && offset == PARAMS_LEN * Records(idx)
      modifies params
      ensures Going(next, x, idx + 1, cycles, Records(idx + 1)) && next == t.(log := next.log)
      ensures after == (idx + 1) % RAW_PERIOD && newOffset == PARAMS_LEN * Records(idx + 1)
    {
      CounterStep(idx, RAW_PERIOD);
      next, after, newOffset := t, n + 1, offset;
      if after >= RAW_PERIOD {
        after := 0;
        next := EndRecord(t, x, idx + 1, cycles, Records(idx), offset);
        newOffset := offset + PARAMS_LEN;
      }
    }

    lemma NothingYet(x: seq<Sample>)
      requires Valid()
      ensures Going(Trace(mean.inputs, params[..], [cpt.State()], []), x, 0, 0, 0)
    {
      assert forall k :: 0 <= k < Message.ITEMS ==> mean.inputs[k] == mean.inputs[k] + [];
    }

    /** One turn of the loop. */
    method Turn(ghost t: Trace, x: seq<Sample>, idx: nat, m: nat, n: nat, offset: nat)
      returns (ghost next: Trace, m': nat, n': nat, offset': nat)
      requires idx < |x| == SAMPLE_RATE && Going(t, x, idx, Cycles(idx), Records(idx)) && Counted(m, n, offset, idx)
      modifies engineRepr, meanRepr, params
      ensures Going(next, x, idx + 1, Cycles(idx + 1), Records(idx + 1)) && Counted(m', n', offset', idx + 1)
      ensures next.inputs == t.inputs && next.params == t.params && t.states <= next.states
    {
      next := Tick(t, x, idx, Cycles(idx), Records(idx));
      m' := CountCycle(next, x, idx, m, Records(idx));
      next, n', offset' := CountRecord(next, x, idx, Cycles(idx + 1), n, offset);
    }

    /** A whole second: every sample goes through the engine, each of the sixty cycles feeds the
        mean filters once, and each of the forty records is written once. Both counters end at
        zero and the offset at the end of the buffer. */
    method Second(x: seq<Sample>) returns (m: nat, n: nat, offset: nat, ghost t: Trace)
      requires Valid() && |x| == SAMPLE_RATE
      modifies engineRepr, meanRepr, params
      ensures Going(t, x, SAMPLE_RATE, FREQ, RECORDS)
      ensures t.states[0] == old(cpt.State()) && t.inputs == old(mean.inputs) && t.params == old(params[..])
      ensures m == 0 && n == 0 && offset == params.Length
    {
      m, n, offset := 0, 0, 0;
      t := Trace(mean.inputs, params[..], [cpt.State()], []);
      NothingYet(x);
      ghost var first := t;
      for idx := 0 to SAMPLE_RATE
        invariant Going(t, x, idx, Cycles(idx), Records(idx))
        invariant Counted(m, n, offset, idx)
        invariant t.inputs == first.inputs && t.params == first.params && first.states <= t.states
      {
        t, m, n, offset := Turn(t, x, idx, m, n, offset);
      }
      WholeSecond(m, n, offset);
    }

    /** After a second, whatever came before it, every filter reports the mean of exactly its
        sixty readings, and its ring is back where it was. */
    lemma MeansOfSecond(t: Trace, x: seq<Sample>, k: nat)
      requires |x| == SAMPLE_RATE && Going(t, x, SAMPLE_RATE, FREQ, RECORDS) && k < Message.ITEMS
      ensures mean.maf[k].meanValue == Sum(CycleReadings(t.states, order, k, FREQ), 0, FREQ) / FREQ as real
      ensures mean.maf[k].head == |t.inputs[k]| % FREQ
    {
      var readings := CycleReadings(t.states, order, k, FREQ);
      assert mean.Configured(k) && mean.FilterValid(k);
      assert mean.maf[k].inputs == t.inputs[k] + readings;
      WindowOfLast(t.inputs[k], readings);
      QuotientIs(|t.inputs[k]| + FREQ, FREQ, |t.inputs[k]| / FREQ + 1, |t.inputs[k]| % FREQ);
    }

    /** What the first `n` mean filters report. */
    function MeanValues(n: nat): (values: seq<real>)
      requires MeanValid() && n <= Message.ITEMS
      reads mean, mean.Repr
      ensures |values| == n
    {
      if n == 0 then []
      else
        assert mean.Configured(n - 1);
        MeanValues(n - 1) + [mean.maf[n - 1].meanValue]
    }

    /** Prints a message; the meter is left alone. */
    method Print(message: array<char>, texts: seq<string>) returns (end: nat)
      requires Valid() && message !in engineRepr && message !in meanRepr && message.Length == Message.BUFFER_SIZE
      requires |texts| == Message.ITEMS && Message.ValuesLength(texts, Message.ITEMS) <= 744
      modifies message
      ensures Valid() && cpt.State() == old(cpt.State())
      ensures end < message.Length && message[end] == '\0'
      ensures message[..end] == Message.Content(order, texts)
    {
      end := Message.BuildMessage(message, order, texts);
      EngineKept();
      MeanKept();
    }

    /** Prints the message of the second. */
    method Send(message: array<char>, format: real -> string) returns (end: nat)
      requires Valid() && message !in engineRepr && message !in meanRepr && message.Length == Message.BUFFER_SIZE
      requires Message.ValuesLength(Formatted(MeanValues(Message.ITEMS), format), Message.ITEMS) <= 744
      modifies message
      ensures Valid() && cpt.State() == old(cpt.State())
      ensures end < message.Length && message[end] == '\0'
      ensures message[..end] == Message.Content(order, old(Formatted(MeanValues(Message.ITEMS), format)))
    {
      end := Print(message, Formatted(MeanValues(Message.ITEMS), format));
    }

    lemma MeanValueAt(n: nat, k: nat)
      requires MeanValid() && k < n <= Message.ITEMS
      ensures mean.Configured(k) && MeanValues(n)[k] == mean.maf[k].meanValue
    {
    }
  }

  function Formatted(values: seq<real>, format: real -> string): (texts: seq<string>)
    ensures |texts| == |values|
  {
    seq(|values|, k requires 0 <= k < |values| => format(values[k]))
  }

  lemma WindowOfLast(before: seq<real>, last: seq<real>)
    requires last != []
    ensures WindowMean(before + last, |last|) == Sum(last, 0, |last|) / |last| as real
  {
    var s, n := before + last, |last|;
    assert forall k :: 0 <= k < n ==> last[k] == s[k + |before|];
    SumCongruent(last, s, 0, n, |before|);
    assert LastSum(s, n) == Sum(s, |before|, |s|);
  }

  /** A buffer with the first `n` readings of record `r` written over `before`. */
  ghost predicate PartlyWritten(params: seq<real>, before: seq<real>, s: CPTValue, order: seq<nat>, r: nat, n: nat)
    requires Message.IsOrder(order)
  {
    && |params| == |before| == RECORDS * PARAMS_LEN
    && forall slot: nat :: slot < |params| ==>
         params[slot] == if RecordOf(slot) == r && !IsDummy(slot) && ItemOf(slot) < n
                         then Reading(s, order, ItemOf(slot)) else before[slot]
  }

  /** A whole record is what the phases report, one after the other, each with a slot left out. */
  lemma RecordListed(params: seq<real>, before: seq<real>, s: CPTValue, order: seq<nat>, r: nat, i: nat)
    requires Message.IsOrder(order) && r < RECORDS && i < 3
    requires PartlyWritten(params, before, s, order, r, Message.ITEMS)
    ensures AreListed(params, 36 * r + 12 * i, CPTRun.Phase(s, order[i]))
    ensures params[36 * r + 12 * i + 11] == before[36 * r + 12 * i + 11]
  {
    var p, at := CPTRun.Phase(s, order[i]), 36 * r + 12 * i;
    forall a: nat | a < 11
      ensures params[at + a] == Attribute(p.m, p.c, p.w, a)
    {
      SlotOfParts(at + a, r, i, a);
      ReadingAt(s, order, i, a);
    }
    AttributesListed(params, at, p);
    QuotientIs(at + 11, RAW_PARAM, 3 * r + i, 11);
  }

  lemma PartlyStep(params: seq<real>, before: seq<real>, s: CPTValue, order: seq<nat>, r: nat, i: nat, a: nat)
    requires Message.IsOrder(order) && r < RECORDS && i < Message.PHASES && a < Message.ATTRIBUTES
    requires PartlyWritten(params, before, s, order, r, Message.ATTRIBUTES * i + a)
    ensures var slot, p := PARAMS_LEN * r + RAW_PARAM * i + a, CPTRun.Phase(s, order[i]);
            && slot < |params|
            && PartlyWritten(params[slot := Attribute(p.m, p.c, p.w, a)], before, s, order, r,
                Message.ATTRIBUTES * i + a + 1)
  {
    SlotAt(r, i, a);
    ReadingAt(s, order, i, a);
  }

  lemma LogStep(log: seq<nat>, r: nat, i: nat, a: nat)
    requires i < Message.PHASES && a < Message.ATTRIBUTES
      && AllSlots(log, Message.ITEMS * r + Message.ATTRIBUTES * i + a)
    ensures AllSlots(log + [PARAMS_LEN * r + RAW_PARAM * i + a], Message.ITEMS * r + Message.ATTRIBUTES * i + a + 1)
  {
    SlotAt(r, i, a);
  }

  /** The first `n` writes of a second, by the slots they go to. */
  ghost predicate AllSlots(written: seq<nat>, n: nat) {
    |written| == n && forall w :: 0 <= w < n ==> written[w] == SlotOf(w)
  }

  lemma SlotAt(r: nat, i: nat, a: nat)
    requires i < Message.PHASES && a < Message.ATTRIBUTES
    ensures var slot := PARAMS_LEN * r + RAW_PARAM * i + a;
            && slot == SlotOf(Message.ITEMS * r + (Message.ATTRIBUTES * i + a))
            && !IsDummy(slot) && RecordOf(slot) == r && ItemOf(slot) == Message.ATTRIBUTES * i + a
            && forall other: nat ::
                 RecordOf(other) == r && !IsDummy(other) && ItemOf(other) == Message.ATTRIBUTES * i + a ==>
                   other == slot
  {
    var k := Message.ATTRIBUTES * i + a;
    var w := Message.ITEMS * r + k;
    assert w / Message.ITEMS == r && w % Message.ITEMS == k;
    assert k / Message.ATTRIBUTES == i && k % Message.ATTRIBUTES == a;
    SlotParts(w);
    forall other: nat | RecordOf(other) == r && !IsDummy(other) && ItemOf(other) == k
      ensures other == SlotOf(w)
    {
      WrittenOnce(other, w);
      assert WriteOf(other) == w;
    }
  }

  /** Filter `k` is for the phase at place `i`. */
  ghost predicate InPlace(i: nat, k: nat) {
    i * Message.ATTRIBUTES <= k < (i + 1) * Message.ATTRIBUTES
  }

  lemma FedInPlace(s: CPTValue, order: seq<nat>, i: nat, k: nat)
    requires Message.IsOrder(order) && i < Message.PHASES && k < Message.ITEMS
    ensures FedAt(s, order, i, k) == if InPlace(i, k) then [Reading(s, order, k)] else []
  {
    if InPlace(i, k) {
      ReadingAt(s, order, i, k - i * Message.ATTRIBUTES);
    }
  }

  lemma ReadingAt(s: CPTValue, order: seq<nat>, i: nat, a: nat)
    requires Message.IsOrder(order) && i < Message.PHASES && a < Message.ATTRIBUTES
    ensures var p := CPTRun.Phase(s, order[i]);
            Reading(s, order, i * Message.ATTRIBUTES + a) == Attribute(p.m, p.c, p.w, a)
  {
    var k := i * Message.ATTRIBUTES + a;
    assert k / Message.ATTRIBUTES == i && k % Message.ATTRIBUTES == a;
  }
}
