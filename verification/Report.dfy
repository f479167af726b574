/** From the samples of a second to the line in the log: what main.cpp averages and prints and
    datalogger.py parses and writes. */
module Report {
  import opened Wrappers
  import opened Sums
  import opened CPTState
  import opened Meter
  import Bounds
  import CPTRun
  import Datalogger
  import Decimal
  import Message
  import Text

  /** The mean of an attribute of a phase over the ends of the sixty cycles of a second. */
  ghost function MeanOfSecond(states: seq<CPTValue>, p: nat, a: nat): real
    requires p < Message.PHASES && a < Message.ATTRIBUTES && SAMPLES_PER_CYCLE * FREQ < |states|
  {
    var readings := seq(FREQ, c requires 0 <= c < FREQ =>
      var s := CPTRun.Phase(states[SAMPLES_PER_CYCLE * (c + 1)], p); Attribute(s.m, s.c, s.w, a));
    Sum(readings, 0, FREQ) / FREQ as real
  }

  /** The line of a second: its time, and in the column of each phase and attribute the text of
      that phase's mean of that attribute. */
  ghost predicate IsLogged(row: string, states: seq<CPTValue>, format: real -> string, now: string)
    requires SAMPLES_PER_CYCLE * FREQ < |states|
  {
    var cells := Text.Split(row, ',');
    && |cells| == Message.ITEMS + 1 && cells[0] == now
    && forall p: nat, a: nat :: p < Message.PHASES && a < Message.ATTRIBUTES ==>
         cells[1 + Datalogger.Slot(p, a)] == format(MeanOfSecond(states, p, a))
  }

  /** Value by value, the texts of the means of a second, in the order the phases are sent. */
  ghost predicate CarriesMeans(values: seq<string>, states: seq<CPTValue>, order: seq<nat>, format: real -> string)
    requires SAMPLES_PER_CYCLE * FREQ < |states| && Message.IsOrder(order)
  {
    && |values| == Message.ITEMS
    && forall i: nat, a: nat :: i < Message.PHASES && a < Message.ATTRIBUTES ==>
         values[Datalogger.Slot(i, a)] == format(MeanOfSecond(states, order[i], a))
  }

  lemma ReportedMean(m: Meter, t: Trace, x: seq<Sample>, i: nat, a: nat)
    requires |x| == SAMPLE_RATE && m.Going(t, x, SAMPLE_RATE, FREQ, RECORDS)
    requires i < Message.PHASES && a < Message.ATTRIBUTES
    ensures m.MeanValues(Message.ITEMS)[Datalogger.Slot(i, a)] == MeanOfSecond(t.states, m.order[i], a)
  {
    var k, p := Datalogger.Slot(i, a), m.order[i];
    m.MeansOfSecond(t, x, k);
    m.MeanValueAt(Message.ITEMS, k);
    var readings := CycleReadings(t.states, m.order, k, FREQ);
    var same := seq(FREQ, c requires 0 <= c < FREQ =>
      var s := CPTRun.Phase(t.states[SAMPLES_PER_CYCLE * (c + 1)], p); Attribute(s.m, s.c, s.w, a));
    assert readings == same;
  }

  /** After a second, the formatted reports of the mean filters are the means of that second. */
  lemma ReportedMeans(m: Meter, t: Trace, x: seq<Sample>, format: real -> string)
    requires |x| == SAMPLE_RATE && m.Going(t, x, SAMPLE_RATE, FREQ, RECORDS)
    ensures CarriesMeans(Formatted(m.MeanValues(Message.ITEMS), format), t.states, m.order, format)
  {
    forall i: nat, a: nat | i < Message.PHASES && a < Message.ATTRIBUTES
      ensures m.MeanValues(Message.ITEMS)[Datalogger.Slot(i, a)] == MeanOfSecond(t.states, m.order[i], a)
    {
      ReportedMean(m, t, x, i, a);
    }
  }

  /** Whatever order the phases are sent in, a row of such values is the line of the second. */
  lemma RowIsLogged(row: string, values: seq<string>, states: seq<CPTValue>, order: seq<nat>,
                    format: real -> string, now: string)
    requires SAMPLES_PER_CYCLE * FREQ < |states| && Message.IsPermutation(order)
    requires CarriesMeans(values, states, order, format)
    requires Datalogger.IsRowText(row, order, Datalogger.Sent(values, now))
    ensures IsLogged(row, states, format, now)
  {
    forall p: nat, a: nat | p < Message.PHASES && a < Message.ATTRIBUTES
      ensures Text.Split(row, ',')[1 + Datalogger.Slot(p, a)] == format(MeanOfSecond(states, p, a))
    {
      var i := PlaceOf(order, p);
      assert Text.Split(row, ',')[1 + Datalogger.Slot(order[i], a)] == values[Datalogger.Slot(i, a)];
    }
  }

  lemma PlaceOf(order: seq<nat>, p: nat) returns (i: nat)
    requires Message.IsPermutation(order) && p < Message.PHASES
    ensures i < Message.PHASES && order[i] == p
  {
    i := if order[0] == p then 0 else if order[1] == p then 1 else 2;
  }

  /** The samples of a second take the engine from one state to another. */
  ghost predicate IsSecond(states: seq<CPTValue>, x: seq<Sample>, first: CPTValue, last: CPTValue, cfg: Config) {
    && cfg.Valid() && |x| == SAMPLE_RATE && |states| == SAMPLE_RATE + 1
    && states[0] == first && states[SAMPLE_RATE] == last && Follows(states, x, Stepper(cfg))
  }

  /** The states of second `i` of a longer run. */
  function SecondOf(states: seq<CPTValue>, i: nat): (second: seq<CPTValue>)
    requires SAMPLE_RATE * (i + 1) < |states|
    ensures |second| == SAMPLE_RATE + 1
  {
    states[SAMPLE_RATE * i..SAMPLE_RATE * (i + 1) + 1]
  }

  /** The samples of second `i`. */
  function SamplesOf(x: seq<Sample>, i: nat): (second: seq<Sample>)
    requires SAMPLE_RATE * (i + 1) <= |x|
    ensures |second| == SAMPLE_RATE
  {
    x[SAMPLE_RATE * i..SAMPLE_RATE * (i + 1)]
  }

  /** One line for each second of a run of the engine, in the order of the seconds. */
  ghost predicate AreLogged(rows: seq<string>, states: seq<CPTValue>, format: real -> string, nows: seq<string>) {
    && |rows| <= |nows| && |states| == SAMPLE_RATE * |rows| + 1
    && forall i: nat :: i < |rows| ==> LoggedAt(rows, states, format, nows, i)
  }

  ghost predicate LoggedAt(rows: seq<string>, states: seq<CPTValue>, format: real -> string, nows: seq<string>,
                           i: nat)
    requires i < |rows| <= |nows| && SAMPLE_RATE * (i + 1) < |states|
  {
    IsLogged(rows[i], SecondOf(states, i), format, nows[i])
  }

  /** The run over the first `n` seconds of the samples ends in `last`. */
  ghost predicate RunOver(states: seq<CPTValue>, x: seq<Sample>, n: nat, last: CPTValue, cfg: Config) {
    && cfg.Valid() && SAMPLE_RATE * n <= |x| && Follows(states, x[..SAMPLE_RATE * n], Stepper(cfg))
    && states[SAMPLE_RATE * n] == last
  }

  lemma RunExtends(states: seq<CPTValue>, x: seq<Sample>, n: nat, second: seq<CPTValue>, start: CPTValue,
                   last: CPTValue, cfg: Config)
    returns (longer: seq<CPTValue>)
    requires SAMPLE_RATE * (n + 1) <= |x| && RunOver(states, x, n, start, cfg)
    requires IsSecond(second, SamplesOf(x, n), start, last, cfg)
    ensures RunOver(longer, x, n + 1, last, cfg) && states <= longer && SecondOf(longer, n) == second
  {
    var before, more := x[..SAMPLE_RATE * n], SamplesOf(x, n);
    longer := states + second[1..];
    FollowsJoin(states, before, second, more, Stepper(cfg));
    assert before + more == x[..SAMPLE_RATE * (n + 1)];
  }

  lemma ReadingsOfPart(x: seq<Sample>, lo: nat, hi: nat)
    requires Bounds.AreReadings(x) && lo <= hi <= |x|
    ensures Bounds.AreReadings(x[lo..hi])
  {
    var part := x[lo..hi];
    forall t: nat | t < |part|
      ensures Bounds.ReadingAt(part, t)
    {
      assert Bounds.ReadingAt(x, lo + t);
    }
  }

  ghost predicate AreTimes(nows: seq<string>) {
    forall i :: 0 <= i < |nows| ==> Text.Free(nows[i], ',')
  }

  /** The samples of some seconds, the time at each, what the two ends are set up with, and
      what they start from. */
  datatype Plan = Plan(x: seq<Sample>, nows: seq<string>, format: real -> string, cfg: Config,
                       params: Datalogger.Params, start: CPTValue, first: Datalogger.Log) {
    ghost predicate Valid() {
      && cfg.Valid() && cfg.samples == SAMPLES_PER_CYCLE && Initial(start) && !first.started
      && |x| == SAMPLE_RATE * |nows| && Bounds.AreReadings(x) && AreTimes(nows)
    }
  }

  /** The lines and the states of the seconds so far. */
  datatype Done = Done(rows: seq<string>, states: seq<CPTValue>) {
    ghost predicate Logged(plan: Plan, n: nat, last: CPTValue, log: Datalogger.Log) {
      && plan.Valid() && |rows| == n <= |plan.nows| && RunOver(states, plan.x, n, last, plan.cfg)
      && states[0] == plan.start && AreLogged(rows, states, plan.format, plan.nows)
      && if n == 0 then log == plan.first else Datalogger.FileIs(plan.first, log, plan.params, rows)
    }

    lemma Next(plan: Plan, n: nat, second: seq<CPTValue>, row: string, start: CPTValue, last: CPTValue,
               before: Datalogger.Log, log: Datalogger.Log)
      returns (next: Done)
      requires n < |plan.nows| && Logged(plan, n, start, before)
      requires IsSecond(second, SamplesOf(plan.x, n), start, last, plan.cfg)
      requires IsLogged(row, second, plan.format, plan.nows[n])
      requires Datalogger.WithLine(before, log, plan.params, row)
      ensures next.Logged(plan, n + 1, last, log)
    {
      var longer := RunExtends(states, plan.x, n, second, start, last, plan.cfg);
      Datalogger.FileExtends(plan.first, before, log, plan.params, rows, row);
      LoggedExtends(rows, states, row, longer, plan.format, plan.nows);
      next := Done(rows + [row], longer);
    }

    lemma History(plan: Plan, n: nat, last: CPTValue, log: Datalogger.Log)
      requires Logged(plan, n, last, log)
      ensures Reached(states, plan.x[..SAMPLE_RATE * n], last, plan.cfg)
    {
      var y := plan.x[..SAMPLE_RATE * n];
      FollowsIsRun(states, y, plan.cfg);
      ReadingsOfPart(plan.x, 0, SAMPLE_RATE * n);
      assert plan.x[0..SAMPLE_RATE * n] == y;
    }

    lemma Whole(plan: Plan, last: CPTValue, log: Datalogger.Log)
      requires Logged(plan, |plan.nows|, last, log)
      ensures plan.cfg.Valid() && CPTRun.IsRun(states, plan.x, plan.cfg) && states[0] == plan.start
      ensures |rows| == |plan.nows| && AreLogged(rows, states, plan.format, plan.nows)
      ensures rows != [] ==> Datalogger.FileIs(plan.first, log, plan.params, rows)
    {
      assert plan.x[..SAMPLE_RATE * |plan.nows|] == plan.x;
      FollowsIsRun(states, plan.x, plan.cfg);
    }
  }

  lemma NothingLogged(plan: Plan)
    requires plan.Valid()
    ensures Done([], [plan.start]).Logged(plan, 0, plan.start, plan.first)
  {
    assert plan.x[..0] == [];
  }

  lemma LoggedExtends(rows: seq<string>, states: seq<CPTValue>, row: string, longer: seq<CPTValue>,
                      format: real -> string, nows: seq<string>)
    requires AreLogged(rows, states, format, nows) && |rows| < |nows|
    requires states <= longer && |longer| == SAMPLE_RATE * (|rows| + 1) + 1
    requires IsLogged(row, SecondOf(longer, |rows|), format, nows[|rows|])
    ensures AreLogged(rows + [row], longer, format, nows)
  {
    forall i: nat | i < |rows|
      ensures LoggedAt(rows + [row], longer, format, nows, i)
    {
      assert LoggedAt(rows, states, format, nows, i);
      assert SecondOf(longer, i) == SecondOf(states, i);
    }
    assert LoggedAt(rows + [row], longer, format, nows, |rows|);
  }

  // ---------------------------------------------------------------- the length of the message

  /** The meter has gone from configuration to the state `last`, over readings of the converter. */
  ghost predicate Reached(past: seq<CPTValue>, y: seq<Sample>, last: CPTValue, cfg: Config) {
    && cfg.Valid() && cfg.samples == SAMPLES_PER_CYCLE && Bounds.AreReadings(y)
    && CPTRun.IsRun(past, y, cfg) && past[|y|] == last
  }

  lemma ReadingsJoin(y: seq<Sample>, x: seq<Sample>)
    requires Bounds.AreReadings(y) && Bounds.AreReadings(x)
    ensures Bounds.AreReadings(y + x)
  {
    var z := y + x;
    forall t: nat | t < |z|
      ensures Bounds.ReadingAt(z, t)
    {
      if t < |y| {
        assert Bounds.ReadingAt(y, t);
      } else {
        assert Bounds.ReadingAt(x, t - |y|);
      }
    }
  }

  lemma RunFollows(past: seq<CPTValue>, y: seq<Sample>, cfg: Config)
    requires cfg.Valid() && CPTRun.IsRun(past, y, cfg)
    ensures Follows(past, y, Stepper(cfg))
  {
    forall t: nat | t < |y|
      ensures past[t + 1] == Stepper(cfg)(past[t], y[t])
    {
      assert CPTRun.StepAt(past, y, t, cfg);
      StepperSteps(past[t], y[t], cfg);
    }
  }

  /** A second more. */
  lemma ReachedNext(past: seq<CPTValue>, y: seq<Sample>, second: seq<CPTValue>, x: seq<Sample>, first: CPTValue,
                    last: CPTValue, cfg: Config)
    requires Reached(past, y, first, cfg) && IsSecond(second, x, first, last, cfg) && Bounds.AreReadings(x)
    ensures Reached(past + second[1..], y + x, last, cfg)
  {
    RunFollows(past, y, cfg);
    FollowsJoin(past, y, second, x, Stepper(cfg));
    FollowsIsRun(past + second[1..], y + x, cfg);
    ReadingsJoin(y, x);
  }

  /** What no report exceeds. */
  const REPORT_LIMIT := 1000000000000.0

  lemma AttributeInRange(past: seq<CPTValue>, y: seq<Sample>, second: seq<CPTValue>, x: seq<Sample>, first: CPTValue,
                         last: CPTValue, t: nat, p: nat, a: nat, cfg: Config)
    requires Reached(past, y, first, cfg) && IsSecond(second, x, first, last, cfg) && Bounds.AreReadings(x)
    requires 0 < t <= SAMPLE_RATE && p < Message.PHASES && a < Message.ATTRIBUTES
    ensures var s := CPTRun.Phase(second[t], p); 0.0 < Attribute(s.m, s.c, s.w, a) <= REPORT_LIMIT
  {
    ReachedNext(past, y, second, x, first, last, cfg);
    assert (past + second[1..])[|y| + t] == second[t];
    Bounds.AttributeWithin(past + second[1..], y + x, |y| + t, p, a, cfg);
  }

  /** Every mean of a second that the meter can reach is positive and below the limit. */
  lemma MeanInRange(past: seq<CPTValue>, y: seq<Sample>, second: seq<CPTValue>, x: seq<Sample>, first: CPTValue,
                    last: CPTValue, p: nat, a: nat, cfg: Config)
    requires Reached(past, y, first, cfg) && IsSecond(second, x, first, last, cfg) && Bounds.AreReadings(x)
    requires p < Message.PHASES && a < Message.ATTRIBUTES
    ensures 0.0 <= MeanOfSecond(second, p, a) <= REPORT_LIMIT
  {
    var readings := seq(FREQ, c requires 0 <= c < FREQ =>
      var s := CPTRun.Phase(second[SAMPLES_PER_CYCLE * (c + 1)], p); Attribute(s.m, s.c, s.w, a));
    forall c | 0 <= c < FREQ
      ensures 0.0 <= readings[c] <= REPORT_LIMIT
    {
      AttributeInRange(past, y, second, x, first, last, SAMPLES_PER_CYCLE * (c + 1), p, a, cfg);
    }
    SumNonNegative(readings, 0, FREQ);
    Bounds.SumWithin(readings, 0, FREQ, REPORT_LIMIT);
  }

  ghost predicate MeansInRange(second: seq<CPTValue>)
    requires SAMPLES_PER_CYCLE * FREQ < |second|
  {
    forall p: nat, a: nat :: p < Message.PHASES && a < Message.ATTRIBUTES ==>
      0.0 <= MeanOfSecond(second, p, a) <= REPORT_LIMIT
  }

  lemma AllMeansInRange(past: seq<CPTValue>, y: seq<Sample>, second: seq<CPTValue>, x: seq<Sample>, first: CPTValue,
                        last: CPTValue, cfg: Config)
    requires Reached(past, y, first, cfg) && IsSecond(second, x, first, last, cfg) && Bounds.AreReadings(x)
    ensures MeansInRange(second)
  {
    forall p: nat, a: nat | p < Message.PHASES && a < Message.ATTRIBUTES
      ensures 0.0 <= MeanOfSecond(second, p, a) <= REPORT_LIMIT
    {
      MeanInRange(past, y, second, x, first, last, p, a, cfg);
    }
  }

  lemma NumeralIsPlain(text: string)
    requires Decimal.IsNumeral(text)
    ensures Datalogger.Plain(text)
  {
  }

  lemma ValueFits(values: seq<string>, states: seq<CPTValue>, order: seq<nat>, format: real -> string, k: nat)
    requires SAMPLES_PER_CYCLE * FREQ < |states| && Message.IsOrder(order) && k < Message.ITEMS
    requires CarriesMeans(values, states, order, format) && MeansInRange(states) && Decimal.PrintsHundredths(format)
    ensures |values[k]| <= 16 && Datalogger.Plain(values[k])
  {
    var i, a := k / Message.ATTRIBUTES, k % Message.ATTRIBUTES;
    var mean := MeanOfSecond(states, order[i], a);
    assert Datalogger.Slot(i, a) == k;
    Decimal.PrintedLength(format, mean);
    Decimal.PrintedIsNumeral(format, mean);
    NumeralIsPlain(format(mean));
  }

  lemma {:induction false} ShortValues(values: seq<string>, n: nat)
    requires n <= |values| && forall k :: 0 <= k < |values| ==> |values[k]| <= 16
    ensures Message.ValuesLength(values, n) <= 16 * n
  {
    if n > 0 {
      ShortValues(values, n - 1);
    }
  }

  /** Printed with two decimals, such means always fit the message. */
  lemma MeansFit(values: seq<string>, states: seq<CPTValue>, order: seq<nat>, format: real -> string)
    requires SAMPLES_PER_CYCLE * FREQ < |states| && Message.IsPermutation(order)
    requires CarriesMeans(values, states, order, format) && MeansInRange(states) && Decimal.PrintsHundredths(format)
    ensures Carried(values, states, order, format)
  {
    forall k: nat | k < Message.ITEMS
      ensures |values[k]| <= 16 && Datalogger.Plain(values[k])
    {
      ValueFits(values, states, order, format, k);
    }
    ShortValues(values, Message.ITEMS);
  }

  /** What the log says of a mean, read back, is the mean to within half a hundredth. */
  lemma LoggedReadsBack(row: string, states: seq<CPTValue>, format: real -> string, now: string, p: nat, a: nat)
    requires SAMPLES_PER_CYCLE * FREQ < |states| && IsLogged(row, states, format, now) && MeansInRange(states)
    requires Decimal.PrintsHundredths(format) && p < Message.PHASES && a < Message.ATTRIBUTES
    ensures var cell := Text.Split(row, ',')[1 + Datalogger.Slot(p, a)];
            Decimal.Nearest(Decimal.NumberOf(cell), MeanOfSecond(states, p, a))
  {
    Decimal.ReadsBack(format, MeanOfSecond(states, p, a));
  }

  /** How numbers are printed, with two decimals, and how board numbers are read. */
  datatype Codec = Codec(format: real -> string, toInt: string -> Option<int>) {
    ghost predicate Valid() {
      Decimal.PrintsHundredths(format) && toInt("1") == Some(1)
    }
  }

  /** Texts that carry the means of a second in a message that fits its buffer. */
  ghost predicate Carried(values: seq<string>, states: seq<CPTValue>, order: seq<nat>, format: real -> string) {
    && SAMPLES_PER_CYCLE * FREQ < |states| && Message.IsPermutation(order)
    && CarriesMeans(values, states, order, format) && Datalogger.AllPlain(values)
    && Message.ValuesLength(values, Message.ITEMS) <= 744
  }

  lemma TraceIsSecond(m: Meter, t: Trace, x: seq<Sample>)
    requires |x| == SAMPLE_RATE && m.Going(t, x, SAMPLE_RATE, FREQ, RECORDS)
    ensures IsSecond(t.states, x, t.states[0], m.cpt.State(), m.cpt.cfg)
  {
    assert x[..SAMPLE_RATE] == x;
  }

  /** A meter and the connection that receives its messages. */
  class Station {
    const meter: Meter
    const client: Datalogger.ClientThread
    const message: array<char>

    constructor (meter: Meter, client: Datalogger.ClientThread, message: array<char>)
      ensures this.meter == meter && this.client == client && this.message == message
    {
      this.meter, this.client, this.message := meter, client, message;
    }

    /** The two ends share nothing, and agree on the columns. */
    ghost predicate Joined() {
      && Message.IsPermutation(meter.order) && message.Length == Message.BUFFER_SIZE
      && client !in meter.engineRepr && client !in meter.meanRepr
      && message !in meter.engineRepr && message !in meter.meanRepr
      && client.params.ForMeter()
    }

    /** What only the message and the receiver see leaves the meter alone. */
    twostate lemma MeterKept()
      requires old(meter.Valid()) && unchanged(meter.engineRepr) && unchanged(meter.meanRepr)
      ensures meter.Valid() && meter.cpt.State() == old(meter.cpt.State())
    {
      meter.EngineKept();
      meter.MeanKept();
    }

    /** The meter samples a second; its mean filters then hold the means of that second. */
    method Sample(x: seq<Sample>, ghost format: real -> string, ghost past: seq<CPTValue>, ghost y: seq<Sample>)
      returns (ghost states: seq<CPTValue>, ghost values: seq<string>)
      requires meter.Valid() && Joined() && |x| == SAMPLE_RATE && Decimal.PrintsHundredths(format)
      requires Bounds.AreReadings(x) && Reached(past, y, meter.cpt.State(), meter.cpt.cfg)
      modifies meter.engineRepr, meter.meanRepr, meter.params
      ensures meter.Valid() && IsSecond(states, x, old(meter.cpt.State()), meter.cpt.State(), meter.cpt.cfg)
      ensures Carried(values, states, meter.order, format)
      ensures values == Formatted(meter.MeanValues(Message.ITEMS), format)
    {
      var m, n, offset;
      ghost var t;
      ghost var first := meter.cpt.State();
      m, n, offset, t := meter.Second(x);
      TraceIsSecond(meter, t, x);
      ReportedMeans(meter, t, x, format);
      states, values := t.states, Formatted(meter.MeanValues(Message.ITEMS), format);
      AllMeansInRange(past, y, states, x, first, meter.cpt.State(), meter.cpt.cfg);
      MeansFit(values, states, meter.order, format);
    }

    /** The message of a second. It always fits its buffer. */
    method SampleAndSend(x: seq<Sample>, format: real -> string, ghost past: seq<CPTValue>, ghost y: seq<Sample>)
      returns (text: string, ghost states: seq<CPTValue>, ghost values: seq<string>)
      requires meter.Valid() && Joined() && |x| == SAMPLE_RATE && Decimal.PrintsHundredths(format)
      requires Bounds.AreReadings(x) && Reached(past, y, meter.cpt.State(), meter.cpt.cfg)
      modifies meter.engineRepr, meter.meanRepr, meter.params, message
      ensures meter.Valid() && IsSecond(states, x, old(meter.cpt.State()), meter.cpt.State(), meter.cpt.cfg)
      ensures Carried(values, states, meter.order, format) && text == Message.Content(meter.order, values)
    {
      states, values := Sample(x, format, past, y);
      var end := meter.Send(message, format);
      text := message[..end];
    }

    /** The receiver parses a message and writes its line. */
    method Receive(text: string, now: string, codec: Codec, ghost states: seq<CPTValue>, ghost values: seq<string>)
      returns (ok: bool, ghost row: string)
      requires Joined() && codec.Valid() && Text.Free(now, ',')
      requires Carried(values, states, meter.order, codec.format) && text == Message.Content(meter.order, values)
      modifies client
      ensures ok && IsLogged(row, states, codec.format, now)
      ensures Datalogger.WithLine(old(client.State()), client.State(), client.params, row)
    {
      var reply := Datalogger.ProcessInput(text, now, codec.toInt);
      ghost var sent := Datalogger.Sent(values, now);
      row := Datalogger.MessageHandled(client.State(), meter.order, sent, client.params, codec.toInt);
      ok := client.Handle(reply);
      RowIsLogged(row, values, states, meter.order, codec.format, now);
    }

    /** The same beside the meter, which is left alone. */
    method ReceiveOnly(text: string, now: string, codec: Codec, ghost states: seq<CPTValue>, ghost values: seq<string>)
      returns (ok: bool, ghost row: string)
      requires meter.Valid() && Joined() && codec.Valid() && Text.Free(now, ',')
      requires Carried(values, states, meter.order, codec.format) && text == Message.Content(meter.order, values)
      modifies client
      ensures meter.Valid() && meter.cpt.State() == old(meter.cpt.State())
      ensures ok && IsLogged(row, states, codec.format, now)
      ensures Datalogger.WithLine(old(client.State()), client.State(), client.params, row)
    {
      ok, row := Receive(text, now, codec, states, values);
      MeterKept();
    }

    /** One second on both sides. */
    method LogSecond(x: seq<Sample>, now: string, codec: Codec, ghost past: seq<CPTValue>, ghost y: seq<Sample>)
      returns (ok: bool, ghost states: seq<CPTValue>, ghost row: string)
      requires meter.Valid() && Joined() && |x| == SAMPLE_RATE && codec.Valid() && Text.Free(now, ',')
      requires Bounds.AreReadings(x) && Reached(past, y, meter.cpt.State(), meter.cpt.cfg)
      modifies meter.engineRepr, meter.meanRepr, meter.params, message, client
      ensures meter.Valid() && IsSecond(states, x, old(meter.cpt.State()), meter.cpt.State(), meter.cpt.cfg)
      ensures ok && IsLogged(row, states, codec.format, now)
      ensures Datalogger.WithLine(old(client.State()), client.State(), client.params, row)
    {
      var text;
      ghost var values;
      text, states, values := SampleAndSend(x, codec.format, past, y);
      ok, row := ReceiveOnly(text, now, codec, states, values);
    }

    /** The next second of the samples. */
    method LogNext(ghost done: Done, ghost plan: Plan, x: seq<Sample>, now: string, i: nat, codec: Codec)
      returns (ok: bool, ghost next: Done)
      requires meter.Valid() && Joined() && codec.Valid() && Planned(plan, codec) && i < |plan.nows|
      requires now == plan.nows[i] && x == SamplesOf(plan.x, i)
      requires done.Logged(plan, i, meter.cpt.State(), client.State())
      modifies meter.engineRepr, meter.meanRepr, meter.params, message, client
      ensures meter.Valid() && ok
      ensures next.Logged(plan, i + 1, meter.cpt.State(), client.State())
    {
      ghost var before, start := client.State(), meter.cpt.State();
      ghost var second, row;
      done.History(plan, i, start, before);
      ReadingsOfPart(plan.x, SAMPLE_RATE * i, SAMPLE_RATE * (i + 1));
      ok, second, row := LogSecond(x, now, codec, done.states, plan.x[..SAMPLE_RATE * i]);
      next := done.Next(plan, i, second, row, start, meter.cpt.State(), before, client.State());
    }

    ghost predicate Planned(plan: Plan, codec: Codec) {
      plan.Valid() && plan.format == codec.format && plan.cfg == meter.cpt.cfg && plan.params == client.params
    }

    /** Second after second: the engine goes through one run over all the samples, and the
        meter's file is its header and one line for each second, in order, with the means of
        exactly that second's readings. */
    method LogSeconds(x: seq<Sample>, nows: seq<string>, codec: Codec)
      returns (ok: bool, ghost states: seq<CPTValue>, ghost rows: seq<string>)
      requires meter.Valid() && Joined() && codec.Valid() && |x| == SAMPLE_RATE * |nows|
      requires !client.started && AreTimes(nows)
      requires Initial(meter.cpt.State()) && meter.cpt.cfg.samples == SAMPLES_PER_CYCLE && Bounds.AreReadings(x)
      modifies meter.engineRepr, meter.meanRepr, meter.params, message, client
      ensures meter.Valid() && meter.cpt.cfg.Valid() && CPTRun.IsRun(states, x, meter.cpt.cfg)
      ensures states[0] == old(meter.cpt.State())
      ensures ok && |rows| == |nows| && AreLogged(rows, states, codec.format, nows)
      ensures rows != [] ==> Datalogger.FileIs(old(client.State()), client.State(), client.params, rows)
    {
      ghost var plan := Plan(x, nows, codec.format, meter.cpt.cfg, client.params, meter.cpt.State(), client.State());
      ghost var done := Done([], [plan.start]);
      NothingLogged(plan);
      ok, done := LogAll(done, plan, x, nows, codec);
      done.Whole(plan, meter.cpt.State(), client.State());
      states, rows := done.states, done.rows;
    }

    /** The loop over the seconds. */
    method LogAll(ghost begun: Done, ghost plan: Plan, x: seq<Sample>, nows: seq<string>, codec: Codec)
      returns (ok: bool, ghost done: Done)
      requires meter.Valid() && Joined() && codec.Valid() && Planned(plan, codec) && x == plan.x && nows == plan.nows
      requires begun.Logged(plan, 0, meter.cpt.State(), client.State())
      modifies meter.engineRepr, meter.meanRepr, meter.params, message, client
      ensures meter.Valid() && ok && done.Logged(plan, |nows|, meter.cpt.State(), client.State())
    {
      ok, done := true, begun;
      for i := 0 to |nows|
        invariant ok && meter.Valid() && done.Logged(plan, i, meter.cpt.State(), client.State())
      {
        ok, done := LogNext(done, plan, SamplesOf(x, i), nows[i], i, codec);
      }
    }
  }
}
