/** From the packets in the shared memory to the samples that the engine is given: the decoder,
    the channel wiring of main.cpp and the scaling, one after the other. */
module Acquisition {
  import opened Bytes
  import opened CPTState
  import opened Metrology
  import AC = AnalogCore
  import Bounds

  // Which channel is wired to which input: the voltages of phases A and C are swapped.
  const V_CHANNELS: seq<nat> := [2, 1, 0]
  const I_CHANNELS: seq<nat> := [3, 6, 7]

  type Packets = buffer: seq<byte> | |buffer| == AC.PRU_PACKET_SIZE witness seq(AC.PRU_PACKET_SIZE, _ => 0)

  function VoltageAt(buffer: Packets, j: nat, s: nat): real
    requires j < INPUTS && s < AC.SAMPLE_RATE
  {
    AC.ValueAt(buffer, V_CHANNELS[j], s) * V_SCALE
  }

  function CurrentAt(buffer: Packets, j: nat, s: nat): real
    requires j < INPUTS && s < AC.SAMPLE_RATE
  {
    AC.ValueAt(buffer, I_CHANNELS[j], s) * I_SCALE
  }

  function SampleAt(buffer: Packets, s: nat): Sample
    requires s < AC.SAMPLE_RATE
  {
    PAC([VoltageAt(buffer, 0, s), VoltageAt(buffer, 1, s), VoltageAt(buffer, 2, s)],
        [CurrentAt(buffer, 0, s), CurrentAt(buffer, 1, s), CurrentAt(buffer, 2, s)])
  }

  /** The samples of a second of packets. */
  function Decoded(buffer: Packets): (x: seq<Sample>)
    ensures |x| == AC.SAMPLE_RATE && forall s: nat :: s < |x| ==> x[s] == SampleAt(buffer, s)
  {
    seq(AC.SAMPLE_RATE, s requires 0 <= s < AC.SAMPLE_RATE => SampleAt(buffer, s))
  }

  // A converter number at an input of the voltages, in volts, and of the currents, in amperes.
  function Volts(v: int): real {
    v as real * 4.0 / 8388607.0 * 160.0 / 2.4
  }

  function Amperes(v: int): real {
    v as real * 4.0 / 8388607.0 * 50.0 / 2.4
  }

  /** Sample `s` is made of the numbers that the packets carry for it: channels 2, 1 and 0 are
      the voltages of the phases, and channels 3, 6 and 7 their currents. */
  ghost predicate IsWired(pac: Sample, buffer: Packets, s: nat)
    requires s < 15360
  {
    forall v: int ::
      && (AC.Carries(buffer, 2, s, v) ==> pac.V[0] == Volts(v))
      && (AC.Carries(buffer, 3, s, v) ==> pac.I[0] == Amperes(v))
      && (AC.Carries(buffer, 1, s, v) ==> pac.V[1] == Volts(v))
      && (AC.Carries(buffer, 6, s, v) ==> pac.I[1] == Amperes(v))
      && (AC.Carries(buffer, 0, s, v) ==> pac.V[2] == Volts(v))
      && (AC.Carries(buffer, 7, s, v) ==> pac.I[2] == Amperes(v))
  }

  lemma CarriedUnits(buffer: Packets, k: nat, s: nat, v: int)
    requires k < 8 && s < 15360 && AC.Carries(buffer, k, s, v)
    ensures AC.ValueAt(buffer, k, s) * V_SCALE == Volts(v) && AC.ValueAt(buffer, k, s) * I_SCALE == Amperes(v)
  {
    AC.CarriedValue(buffer, k, s, v);
  }

  lemma SampleIsWired(buffer: Packets, s: nat)
    requires s < 15360
    ensures IsWired(SampleAt(buffer, s), buffer, s)
  {
    var pac := SampleAt(buffer, s);
    forall k: nat, v: int | k < 8 && AC.Carries(buffer, k, s, v)
      ensures AC.ValueAt(buffer, k, s) * V_SCALE == Volts(v) && AC.ValueAt(buffer, k, s) * I_SCALE == Amperes(v)
    {
      CarriedUnits(buffer, k, s, v);
    }
  }

  ghost predicate AreWired(x: seq<Sample>, buffer: Packets) {
    |x| == 15360 && forall s: nat :: s < |x| ==> IsWired(x[s], buffer, s)
  }

  lemma DecodedAreWired(buffer: Packets)
    ensures AreWired(Decoded(buffer), buffer)
  {
    forall s: nat | s < 15360
      ensures IsWired(Decoded(buffer)[s], buffer, s)
    {
      SampleIsWired(buffer, s);
    }
  }

  lemma UnitsWithin(v: real, unit: real)
    requires 1.0 <= v <= 8388608.0 && unit > 0.0
    ensures unit <= v * unit <= 8388608.0 * unit
  {
  }

  /** Whatever the packets hold, a scaled sample is in the range of the converter, and zero or
      at least its resolution. */
  lemma ScaledIsReading(v: int, scale: real)
    requires AC.Is24Bit(v) && (scale == I_SCALE || scale == V_SCALE)
    ensures Bounds.IsReading(AC.Scale(v) * scale)
  {
    var unit := 4.0 / 8388607.0 * scale;
    assert AC.Scale(v) * scale == v as real * unit;
    assert 0.000009 <= unit <= 0.0000318;
    if v >= 1 {
      UnitsWithin(v as real, unit);
    } else if v <= -1 {
      UnitsWithin((-v) as real, unit);
      assert v as real * unit == -((-v) as real * unit);
    }
  }

  lemma DecodedAreReadings(buffer: Packets)
    ensures Bounds.AreReadings(Decoded(buffer))
  {
    var x := Decoded(buffer);
    forall s: nat | s < |x|
      ensures Bounds.ReadingAt(x, s)
    {
      SampleIsReading(buffer, s);
    }
  }

  lemma SampleIsReading(buffer: Packets, s: nat)
    requires s < AC.SAMPLE_RATE
    ensures var pac := SampleAt(buffer, s);
            forall j :: 0 <= j < INPUTS ==> Bounds.IsReading(pac.V[j]) && Bounds.IsReading(pac.I[j])
  {
    InputIsReading(buffer, 0, s);
    InputIsReading(buffer, 1, s);
    InputIsReading(buffer, 2, s);
  }

  lemma InputIsReading(buffer: Packets, j: nat, s: nat)
    requires j < INPUTS && s < AC.SAMPLE_RATE
    ensures Bounds.IsReading(VoltageAt(buffer, j, s)) && Bounds.IsReading(CurrentAt(buffer, j, s))
  {
    var v := AC.ValueIsScaled(buffer, V_CHANNELS[j], s);
    var i := AC.ValueIsScaled(buffer, I_CHANNELS[j], s);
    ScaledIsReading(v, V_SCALE);
    ScaledIsReading(i, I_SCALE);
  }

  /** The decoder and the scaling, wired. */
  class Front {
    const analog: AC.AnalogCore
    const metrology: MetrologyCore

    constructor (dft: array3<real>)
      ensures analog.Valid() && analog.calls == 0 && Wired()
      ensures fresh(analog) && fresh(analog.dbuffer) && fresh(analog.chData)
      ensures fresh(metrology) && fresh(metrology.goertzel)
    {
      var core := new AC.AnalogCore();
      var ch := core.chData;
      analog := core;
      metrology := new MetrologyCore([ch[2], ch[1], ch[0]], [ch[3], ch[6], ch[7]], dft);
    }

    ghost predicate Wired() {
      && analog.Rows() && |metrology.vSamples| == |metrology.iSamples| == INPUTS
      && (forall j :: 0 <= j < INPUTS ==> metrology.vSamples[j] == analog.chData[V_CHANNELS[j]])
      && (forall j :: 0 <= j < INPUTS ==> metrology.iSamples[j] == analog.chData[I_CHANNELS[j]])
    }

    ghost predicate Ready()
      reads analog, metrology
    {
      analog.Valid() && Wired() && metrology.fs == AC.SAMPLE_RATE
    }

    /** The channels hold the scaled values of a buffer. */
    ghost predicate Holding(buffer: Packets)
      requires Wired()
      reads analog.chData
    {
      forall j: nat, s: nat :: j < INPUTS && s < AC.SAMPLE_RATE ==>
        && metrology.vSamples[j][s] == VoltageAt(buffer, j, s)
        && metrology.iSamples[j][s] == CurrentAt(buffer, j, s)
    }

    /** The channels hold the values of a buffer, not yet scaled. */
    ghost predicate Unscaled(buffer: Packets)
      requires Wired()
      reads analog.chData
    {
      forall j: nat, s: nat :: j < INPUTS && s < AC.SAMPLE_RATE ==>
        && metrology.vSamples[j][s] == AC.ValueAt(buffer, V_CHANNELS[j], s)
        && metrology.iSamples[j][s] == AC.ValueAt(buffer, I_CHANNELS[j], s)
    }

    method Scale(ghost buffer: Packets)
      requires Ready() && Unscaled(buffer)
      modifies analog.chData
      ensures Ready() && Holding(buffer)
    {
      metrology.Scale();
    }

    /** Takes a second of packets from its half of the shared memory, and scales them. */
    method Fetch(ram: array<byte>, ghost buffer: Packets)
      requires Ready() && ram.Length == 2 * AC.PRU_PACKET_SIZE && ram != analog.dbuffer
      requires var half := AC.PRU_PACKET_SIZE * (analog.calls % 2); ram[half..half + AC.PRU_PACKET_SIZE] == buffer
      modifies analog, analog.dbuffer, analog.chData
      ensures Ready() && analog.calls == old(analog.calls) + 1 && Holding(buffer)
    {
      analog.GetSamples(ram);
      Scale(buffer);
    }

    /** One sample of every input. */
    method Pick(idx: nat) returns (pac: Sample)
      requires Ready() && idx < AC.SAMPLE_RATE
      ensures pac.V == [metrology.vSamples[0][idx], metrology.vSamples[1][idx], metrology.vSamples[2][idx]]
      ensures pac.I == [metrology.iSamples[0][idx], metrology.iSamples[1][idx], metrology.iSamples[2][idx]]
    {
      var v, i := [], [];
      for j := 0 to INPUTS
        invariant |v| == |i| == j
        invariant forall k :: 0 <= k < j ==> v[k] == metrology.vSamples[k][idx] && i[k] == metrology.iSamples[k][idx]
      {
        v, i := v + [metrology.vSamples[j][idx]], i + [metrology.iSamples[j][idx]];
      }
      pac := PAC(v, i);
    }

    /** The samples that the channels hold. */
    method Collect(ghost buffer: Packets) returns (x: seq<Sample>)
      requires Ready() && Holding(buffer)
      ensures x == Decoded(buffer)
    {
      x := [];
      for idx := 0 to AC.SAMPLE_RATE
        invariant |x| == idx && forall s: nat :: s < idx ==> x[s] == SampleAt(buffer, s)
      {
        var pac := Pick(idx);
        x := x + [pac];
      }
    }

    /** The samples of the next second. */
    method Acquire(ram: array<byte>, ghost buffer: Packets) returns (x: seq<Sample>)
      requires Ready() && ram.Length == 2 * AC.PRU_PACKET_SIZE && ram != analog.dbuffer
      requires var half := AC.PRU_PACKET_SIZE * (analog.calls % 2); ram[half..half + AC.PRU_PACKET_SIZE] == buffer
      modifies analog, analog.dbuffer, analog.chData
      ensures Ready() && analog.calls == old(analog.calls) + 1 && x == Decoded(buffer)
      ensures AreWired(x, buffer)
    {
      Fetch(ram, buffer);
      x := Collect(buffer);
      DecodedAreWired(buffer);
    }
  }
}
