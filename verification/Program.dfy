/** The main loop of main.cpp, from the packets of every second to the lines in the log. */
module Program {
  import opened Arithmetic
  import opened Bytes
  import opened Reals
  import opened CPTState
  import opened GoertzelFilter
  import opened Acquisition
  import opened Meter
  import opened Report
  import AC = AnalogCore
  import Bounds
  import CPTRun
  import Columns
  import Datalogger
  import Message

  /** The samples of second after second of packets. */
  function AllDecoded(halves: seq<Packets>): (x: seq<Sample>)
    ensures |x| == SAMPLE_RATE * |halves|
  {
    seq(SAMPLE_RATE * |halves|, t requires 0 <= t < SAMPLE_RATE * |halves| =>
      SampleAt(halves[t / SAMPLE_RATE], t % SAMPLE_RATE))
  }

  lemma AllDecodedIs(halves: seq<Packets>, i: nat, s: nat)
    requires i < |halves| && s < SAMPLE_RATE
    ensures AllDecoded(halves)[SAMPLE_RATE * i + s] == SampleAt(halves[i], s)
  {
    QuotientIs(SAMPLE_RATE * i + s, SAMPLE_RATE, i, s);
  }

  lemma SecondIsDecoded(halves: seq<Packets>, i: nat)
    requires i < |halves|
    ensures SamplesOf(AllDecoded(halves), i) == Decoded(halves[i])
  {
    forall s: nat | s < SAMPLE_RATE
      ensures SamplesOf(AllDecoded(halves), i)[s] == SampleAt(halves[i], s)
    {
      AllDecodedIs(halves, i, s);
    }
  }

  lemma AllDecodedAreReadings(halves: seq<Packets>)
    ensures Bounds.AreReadings(AllDecoded(halves))
  {
    var x := AllDecoded(halves);
    forall t: nat | t < |x|
      ensures Bounds.ReadingAt(x, t)
    {
      SampleIsReading(halves[t / SAMPLE_RATE], t % SAMPLE_RATE);
    }
  }

  /** The packets that the samples of a plan are decoded from. */
  ghost predicate AreHalves(halves: seq<Packets>, plan: Plan) {
    && |halves| == |plan.nows| && |plan.x| == SAMPLE_RATE * |plan.nows|
    && forall i: nat :: i < |halves| ==> IsHalf(halves[i], plan, i)
  }

  ghost predicate IsHalf(buffer: Packets, plan: Plan, i: nat)
    requires SAMPLE_RATE * (i + 1) <= |plan.x|
  {
    Decoded(buffer) == SamplesOf(plan.x, i)
  }

  lemma HalvesOf(halves: seq<Packets>, plan: Plan)
    requires plan.x == AllDecoded(halves) && |halves| == |plan.nows|
    ensures AreHalves(halves, plan)
  {
    forall i: nat | i < |halves|
      ensures IsHalf(halves[i], plan, i)
    {
      SecondIsDecoded(halves, i);
    }
  }

  /** What acquiring the samples of a second changes. */
  ghost function FrontObjects(front: Front): set<object> {
    {front.analog as object, front.analog.dbuffer} + (set row | row in front.analog.chData)
  }

  /** What logging a second changes. */
  ghost function StationObjects(station: Station): set<object> {
    var own: set<object> := {station.meter.params as object, station.message, station.client};
    station.meter.engineRepr + station.meter.meanRepr + own
  }

  /** The acquisition, the shared memory and the rest share nothing. */
  ghost predicate Disjoint(front: Front, station: Station, ram: array<byte>) {
    && ram.Length == 2 * AC.PRU_PACKET_SIZE && FrontObjects(front) !! StationObjects(station)
    && ram !in FrontObjects(front) && ram !in StationObjects(station)
    && front.metrology !in FrontObjects(front) && front.metrology !in StationObjects(station)
  }

  method NewFront(dft: array3<real>, cos: real -> real, ghost sin: real -> real) returns (front: Front)
    requires IsTrig(cos, sin)
    ensures front.Ready() && front.analog.calls == 0
    ensures fresh(FrontObjects(front)) && fresh(front.metrology) && front.metrology !in FrontObjects(front)
  {
    front := new Front(dft);
    var status := front.metrology.Init(SAMPLES_PER_CYCLE, SAMPLE_RATE, FREQ, cos, sin);
  }

  method NewStation(order: seq<nat>, sqrt: real -> real, params: Datalogger.Params, files: map<string, string>)
    returns (station: Station)
    requires Message.IsPermutation(order) && IsSqrt(sqrt) && params.ForMeter()
    ensures station.meter.Valid() && station.Joined() && station.client.State() == Datalogger.Log(false, files)
    ensures Initial(station.meter.cpt.State()) && station.meter.cpt.cfg.samples == SAMPLES_PER_CYCLE
    ensures fresh(StationObjects(station))
  {
    var client := new Datalogger.ClientThread(params, files);
    var message := new char[Message.BUFFER_SIZE];
    var meter := new Meter(order, sqrt);
    station := Connect(meter, client, message);
  }

  method Connect(meter: Meter, client: Datalogger.ClientThread, message: array<char>) returns (station: Station)
    requires meter.Valid()
    ensures station.meter == meter && station.client == client && station.message == message
    ensures meter.Valid() && meter.cpt.State() == old(meter.cpt.State()) && client.State() == old(client.State())
  {
    station := new Station(meter, client, message);
    meter.EngineKept();
    meter.MeanKept();
  }

  /** Sets up the whole program, ready for its first second. */
  method Start(order: seq<nat>, dft: array3<real>, cos: real -> real, ghost sin: real -> real, sqrt: real -> real,
               params: Datalogger.Params, files: map<string, string>)
    returns (program: Program)
    requires IsTrig(cos, sin) && Message.IsPermutation(order) && IsSqrt(sqrt) && params.ForMeter()
    ensures program.Separate() && program.ReadyFor(0) && program.station.meter.Valid() && program.station.Joined()
    ensures Initial(program.station.meter.cpt.State())
    ensures program.station.meter.cpt.cfg.samples == SAMPLES_PER_CYCLE
    ensures program.station.client.State() == Datalogger.Log(false, files)
  {
    var front := NewFront(dft, cos, sin);
    var ram := new byte[2 * AC.PRU_PACKET_SIZE](_ => 0);
    program := StartWith(front, ram, order, sqrt, params, files);
  }

  method StartWith(front: Front, ram: array<byte>, order: seq<nat>, sqrt: real -> real, params: Datalogger.Params,
                   files: map<string, string>)
    returns (program: Program)
    requires front.Ready() && front.analog.calls == 0 && front.metrology !in FrontObjects(front)
    requires ram.Length == 2 * AC.PRU_PACKET_SIZE && ram !in FrontObjects(front)
    requires Message.IsPermutation(order) && IsSqrt(sqrt) && params.ForMeter()
    ensures program.Separate() && program.ReadyFor(0) && program.station.meter.Valid() && program.station.Joined()
    ensures Initial(program.station.meter.cpt.State())
    ensures program.station.meter.cpt.cfg.samples == SAMPLES_PER_CYCLE
    ensures program.station.client.State() == Datalogger.Log(false, files)
  {
    var station := NewStation(order, sqrt, params, files);
    program := Assemble(front, station, ram);
  }

  method Assemble(front: Front, station: Station, ram: array<byte>) returns (program: Program)
    requires Disjoint(front, station, ram) && station.meter.Valid() && front.Ready() && front.analog.calls == 0
    ensures program.Separate() && program.ReadyFor(0) && program.station == station
    ensures station.meter.Valid() && station.meter.cpt.State() == old(station.meter.cpt.State())
    ensures station.client.State() == old(station.client.State())
  {
    program := new Program(front, station, ram);
    station.MeterKept();
  }

  /** Every second of the decoded samples is made of the numbers in its own packets. */
  lemma AllDecodedAreWired(halves: seq<Packets>, i: nat)
    requires i < |halves|
    ensures AreWired(SamplesOf(AllDecoded(halves), i), halves[i])
  {
    SecondIsDecoded(halves, i);
    DecodedAreWired(halves[i]);
  }

  class Program {
    const front: Front
    const station: Station
    const ram: array<byte>

    // The objects of the acquisition, and all that change.
    ghost const frontRepr: set<object>
    ghost const repr: set<object>

    constructor (front: Front, station: Station, ram: array<byte>)
      ensures this.front == front && this.station == station && this.ram == ram
      ensures frontRepr == FrontObjects(front) && repr == {ram as object} + frontRepr + StationObjects(station)
    {
      this.front, this.station, this.ram := front, station, ram;
      frontRepr := FrontObjects(front);
      repr := {ram as object} + FrontObjects(front) + StationObjects(station);
    }

    ghost predicate Separate() {
      && frontRepr == FrontObjects(front) && repr == {ram as object} + frontRepr + StationObjects(station)
      && Disjoint(front, station, ram)
    }

    /** The acquisition has taken the samples of `i` seconds. */
    ghost predicate ReadyFor(i: nat)
      reads front.analog, front.metrology
    {
      front.Ready() && front.analog.calls == i
    }

    /** The other processor fills a half of the shared memory. */
    method Fill(from: nat, buffer: Packets)
      requires from + AC.PRU_PACKET_SIZE <= ram.Length
      modifies ram
      ensures ram[from..from + AC.PRU_PACKET_SIZE] == buffer
    {
      forall i | 0 <= i < AC.PRU_PACKET_SIZE {
        ram[from + i] := buffer[i];
      }
    }

    /** The samples of second `i`, which fills the halves in turn; the meter is left alone. */
    method Acquire(buffer: Packets, i: nat) returns (x: seq<Sample>)
      requires Separate() && ReadyFor(i) && station.meter.Valid()
      modifies ram, frontRepr
      ensures ReadyFor(i + 1) && x == Decoded(buffer)
      ensures station.meter.Valid() && station.meter.cpt.State() == old(station.meter.cpt.State())
    {
      Fill(AC.PRU_PACKET_SIZE * (i % 2), buffer);
      x := front.Acquire(ram, buffer);
      station.MeterKept();
    }

    /** The two ends are set up as planned. */
    ghost predicate Planned(plan: Plan, codec: Codec) {
      station.Joined() && codec.Valid() && station.Planned(plan, codec)
    }

    /** One turn of the main loop. */
    method LogNext(ghost done: Done, ghost plan: Plan, buffer: Packets, now: string, i: nat, codec: Codec)
      returns (ok: bool, ghost next: Done)
      requires Separate() && ReadyFor(i) && station.meter.Valid() && Planned(plan, codec) && i < |plan.nows|
      requires now == plan.nows[i] && IsHalf(buffer, plan, i)
      requires done.Logged(plan, i, station.meter.cpt.State(), station.client.State())
      modifies repr
      ensures ReadyFor(i + 1) && station.meter.Valid() && ok
      ensures next.Logged(plan, i + 1, station.meter.cpt.State(), station.client.State())
    {
      var x := Acquire(buffer, i);
      ok, next := station.LogNext(done, plan, x, now, i, codec);
    }

    /** The loop over the seconds. */
    method LogAll(ghost begun: Done, ghost plan: Plan, halves: seq<Packets>, nows: seq<string>, codec: Codec)
      returns (ok: bool, ghost done: Done)
      requires Separate() && ReadyFor(0) && station.meter.Valid() && Planned(plan, codec)
      requires nows == plan.nows && AreHalves(halves, plan)
      requires begun.Logged(plan, 0, station.meter.cpt.State(), station.client.State())
      modifies repr
      ensures station.meter.Valid() && ok
      ensures done.Logged(plan, |nows|, station.meter.cpt.State(), station.client.State())
    {
      ok, done := true, begun;
      for i := 0 to |halves|
        invariant ok && ReadyFor(i) && station.meter.Valid()
        invariant done.Logged(plan, i, station.meter.cpt.State(), station.client.State())
      {
        assert IsHalf(halves[i], plan, i);
        ok, done := LogNext(done, plan, halves[i], nows[i], i, codec);
      }
    }

    /** The whole program, for any number of seconds and whatever bytes the converter delivers:
        the engine goes through one run over the decoded samples, every message fits its buffer
        and is accepted, and the meter's file is the header and one line for each second, with
        the means of that second. */
    method Run(halves: seq<Packets>, nows: seq<string>, codec: Codec)
      returns (ok: bool, ghost states: seq<CPTValue>, ghost rows: seq<string>)
      requires Separate() && ReadyFor(0) && station.meter.Valid() && station.Joined() && codec.Valid()
      requires |halves| == |nows| && AreTimes(nows) && !station.client.started
      requires Initial(station.meter.cpt.State()) && station.meter.cpt.cfg.samples == SAMPLES_PER_CYCLE
      modifies repr
      ensures station.meter.cpt.cfg.Valid() && CPTRun.IsRun(states, AllDecoded(halves), station.meter.cpt.cfg)
      ensures ok && |rows| == |nows| && AreLogged(rows, states, codec.format, nows)
      ensures Columns.AreShown(rows, AllDecoded(halves), codec.format, nows, station.meter.cpt.cfg)
      ensures rows != [] ==>
                Datalogger.FileIs(old(station.client.State()), station.client.State(), station.client.params, rows)
    {
      ghost var plan := Plan(AllDecoded(halves), nows, codec.format, station.meter.cpt.cfg, station.client.params,
                             station.meter.cpt.State(), station.client.State());
      AllDecodedAreReadings(halves);
      HalvesOf(halves, plan);
      ghost var done := Done([], [plan.start]);
      NothingLogged(plan);
      ok, done := LogAll(done, plan, halves, nows, codec);
      done.Whole(plan, station.meter.cpt.State(), station.client.State());
      states, rows := done.states, done.rows;
      Columns.LogIsShown(rows, states, AllDecoded(halves), codec.format, nows, station.meter.cpt.cfg);
    }
  }
}
