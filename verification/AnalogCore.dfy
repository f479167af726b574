/** The demultiplexer of AnalogCore.c: packets of four samples of eight channels, three bytes
    each, into one row of values per channel. */
module AnalogCore {
  import opened Bytes
  import opened Arithmetic

  const SAMPLE_RATE: nat := 15360
  const CHANNELS: nat := 8
  const PKG_SIZE: nat := 100
  const PKG_SAMPLES: nat := 4
  const PKG_TOTAL: nat := 3840
  const PRU_PACKET_SIZE: nat := 384000

  // ---------------------------------------------------------------- one value

  /** The 32-bit two's complement value of an integer. */
  function Int32(x: int): int {
    (x + 0x8000_0000) % 0x1_0000_0000 - 0x8000_0000
  }

  /** Three bytes, most significant first, shifted up by a byte and back down in 32 bits. */
  function Decode(b2: byte, b1: byte, b0: byte): int {
    Int32((b2 * 0x1_0000 + b1 * 0x100 + b0) * 0x100) / 0x100
  }

  /** The two shifts extend the sign of a 24-bit value. */
  lemma DecodeExtendsSign(b2: byte, b1: byte, b0: byte)
    ensures var x := b2 * 0x1_0000 + b1 * 0x100 + b0;
            Decode(b2, b1, b0) == if b2 >= 0x80 then x - 0x100_0000 else x
  {
    var x := b2 * 0x1_0000 + b1 * 0x100 + b0;
    if b2 >= 0x80 {
      assert Int32(x * 0x100) == (x - 0x100_0000) * 0x100;
    } else {
      assert Int32(x * 0x100) == x * 0x100;
    }
  }

  predicate Is24Bit(v: int) {
    -0x80_0000 <= v < 0x80_0000
  }

  /** The bytes of a 24-bit value, most significant first. */
  function Encode(v: int): (byte, byte, byte)
    requires Is24Bit(v)
  {
    var x := if v < 0 then v + 0x100_0000 else v;
    (x / 0x1_0000, x / 0x100 % 0x100, x % 0x100)
  }

  lemma DecodeOfEncode(v: int)
    requires Is24Bit(v)
    ensures var (b2, b1, b0) := Encode(v); Decode(b2, b1, b0) == v
  {
    var (b2, b1, b0) := Encode(v);
    DecodeExtendsSign(b2, b1, b0);
  }

  lemma EncodeOfDecode(b2: byte, b1: byte, b0: byte)
    ensures Is24Bit(Decode(b2, b1, b0)) && Encode(Decode(b2, b1, b0)) == (b2, b1, b0)
  {
    DecodeExtendsSign(b2, b1, b0);
    var x := b2 * 0x1_0000 + b1 * 0x100 + b0;
    assert x / 0x1_0000 == b2 && x / 0x100 == b2 * 0x100 + b1;
  }

  function Scale(v: int): real {
    v as real * 4.0 / 8388607.0
  }

  // ---------------------------------------------------------------- the layout

  /** Where the value of a channel at a sample starts in the buffer. */
  function ByteOf(k: nat, s: nat): nat {
    PKG_SIZE * (s / PKG_SAMPLES) + 4 + 24 * (s % PKG_SAMPLES) + 3 * k
  }

  /** The first four bytes of a packet are passed over. */
  predicate IsStatus(at: nat) {
    at % PKG_SIZE < 4
  }

  function ChannelOf(at: nat): int {
    (at % PKG_SIZE - 4) % 24 / 3
  }

  function SampleOf(at: nat): int {
    PKG_SAMPLES * (at / PKG_SIZE) + (at % PKG_SIZE - 4) / 24
  }

  /** Every byte of a value belongs to that channel and sample and to no other. */
  lemma ByteHasOneOwner(k: nat, s: nat, r: nat)
    requires k < CHANNELS && s < SAMPLE_RATE && r < 3
    ensures var at := ByteOf(k, s) + r;
            at < PRU_PACKET_SIZE && !IsStatus(at) && ChannelOf(at) == k && SampleOf(at) == s
  {
    var i, j := s / PKG_SAMPLES, s % PKG_SAMPLES;
    var rest := 4 + 24 * j + 3 * k + r;
    var at := PKG_SIZE * i + rest;
    assert at / PKG_SIZE == i && at % PKG_SIZE == rest;
    assert (rest - 4) / 24 == j && (rest - 4) % 24 == 3 * k + r;
  }

  /** Every byte that is not of a status word belongs to a value. */
  lemma ByteIsUsed(at: nat)
    requires at < PRU_PACKET_SIZE && !IsStatus(at)
    ensures 0 <= ChannelOf(at) < CHANNELS && 0 <= SampleOf(at) < SAMPLE_RATE
    ensures ByteOf(ChannelOf(at), SampleOf(at)) <= at < ByteOf(ChannelOf(at), SampleOf(at)) + 3
  {
    var i, rest := at / PKG_SIZE, at % PKG_SIZE - 4;
    var j, inner := rest / 24, rest % 24;
    assert SampleOf(at) / PKG_SAMPLES == i && SampleOf(at) % PKG_SAMPLES == j;
  }

  /** The value of a channel at a sample. */
  function ValueAt(buffer: seq<byte>, k: nat, s: nat): real
    requires |buffer| == PRU_PACKET_SIZE && k < CHANNELS && s < SAMPLE_RATE
  {
    ByteHasOneOwner(k, s, 2);
    var at := ByteOf(k, s);
    Scale(Decode(buffer[at], buffer[at + 1], buffer[at + 2]))
  }

  /** Every value is a scaled 24-bit number. */
  lemma ValueIsScaled(buffer: seq<byte>, k: nat, s: nat) returns (v: int)
    requires |buffer| == PRU_PACKET_SIZE && k < CHANNELS && s < SAMPLE_RATE
    ensures Is24Bit(v) && ValueAt(buffer, k, s) == Scale(v)
  {
    ByteHasOneOwner(k, s, 2);
    var at := ByteOf(k, s);
    v := Decode(buffer[at], buffer[at + 1], buffer[at + 2]);
    EncodeOfDecode(buffer[at], buffer[at + 1], buffer[at + 2]);
  }

  function BigEndian(first: int, second: int, third: int): int {
    0x1_0000 * first + 0x100 * second + third
  }

  /** The three bytes of a channel at a sample are those of the 24-bit number `v` in two's
      complement, the most significant one first. */
  predicate Carries(buffer: seq<byte>, k: nat, s: nat, v: int)
    requires |buffer| == PRU_PACKET_SIZE && k < 8 && s < 15360
  {
    var at := 100 * (s / 4) + 4 + 24 * (s % 4) + 3 * k;
    -0x80_0000 <= v < 0x80_0000 && v % 0x100_0000 == BigEndian(buffer[at], buffer[at + 1], buffer[at + 2])
  }

  /** What such bytes stand for: four volts for the largest number. */
  lemma CarriedValue(buffer: seq<byte>, k: nat, s: nat, v: int)
    requires |buffer| == PRU_PACKET_SIZE && k < 8 && s < 15360 && Carries(buffer, k, s, v)
    ensures ValueAt(buffer, k, s) == v as real * 4.0 / 8388607.0
  {
    var at := ByteOf(k, s);
    ByteHasOneOwner(k, s, 2);
    DecodeExtendsSign(buffer[at], buffer[at + 1], buffer[at + 2]);
    Complement(v, BigEndian(buffer[at], buffer[at + 1], buffer[at + 2]));
  }

  lemma Complement(v: int, x: int)
    requires -0x80_0000 <= v < 0x80_0000 && v % 0x100_0000 == x
    ensures v == if x >= 0x80_0000 then x - 0x100_0000 else x
  {
  }

  /** There is always such a number. */
  lemma AlwaysCarries(buffer: seq<byte>, k: nat, s: nat) returns (v: int)
    requires |buffer| == PRU_PACKET_SIZE && k < 8 && s < 15360
    ensures Carries(buffer, k, s, v)
  {
    var at := ByteOf(k, s);
    ByteHasOneOwner(k, s, 2);
    var x := BigEndian(buffer[at], buffer[at + 1], buffer[at + 2]);
    v := if x >= 0x80_0000 then x - 0x100_0000 else x;
  }

  /** One step of the conversion: the cell written, and the first of the three bytes read. */
  datatype Access = Access(channel: nat, sample: nat, at: nat)

  /** The first `n` steps: every cell of a sample in the order of the channels, sample by sample. */
  ghost predicate InOrder(log: seq<Access>, n: nat, channels: nat)
    requires 0 < channels
  {
    |log| == n && forall w: nat :: w < n ==>
      log[w] == Access(w % channels, w / channels, ByteOf(w % channels, w / channels))
  }

  lemma InOrderStep(log: seq<Access>, s: nat, k: nat, channels: nat)
    requires k < channels && InOrder(log, channels * s + k, channels)
    ensures InOrder(log + [Access(k, s, ByteOf(k, s))], channels * s + k + 1, channels)
  {
    QuotientIs(channels * s + k, channels, s, k);
  }

  lemma NextSample(log: seq<Access>, s: nat, channels: nat)
    requires 0 < channels && InOrder(log, channels * s + channels, channels)
    ensures InOrder(log, channels * (s + 1), channels)
  {
    assert channels * s + channels == channels * (s + 1);
  }

  method NewRows() returns (rows: seq<array<real>>)
    ensures |rows| == CHANNELS && fresh(rows)
    ensures forall k :: 0 <= k < CHANNELS ==> rows[k].Length == SAMPLE_RATE
    ensures forall j, k :: 0 <= j < k < CHANNELS ==> rows[j] != rows[k]
  {
    rows := [];
    while |rows| < CHANNELS
      invariant |rows| <= CHANNELS && fresh(rows)
      invariant forall k :: 0 <= k < |rows| ==> rows[k].Length == SAMPLE_RATE
      invariant forall j, k :: 0 <= j < k < |rows| ==> rows[j] != rows[k]
    {
      var row := new real[SAMPLE_RATE](_ => 0.0);
      rows := rows + [row];
    }
  }

  class AnalogCore {
    var bufferIx: nat
    const dbuffer: array<byte>
    /** A row of samples for every channel. */
    const chData: seq<array<real>>

    /** How often samples were taken since the set-up. */
    ghost var calls: nat

    ghost predicate Valid()
      reads this
    {
      && bufferIx == calls % 2
      && dbuffer.Length == PRU_PACKET_SIZE && Rows()
    }

    ghost predicate Rows() {
      && |chData| == CHANNELS && (forall k :: 0 <= k < CHANNELS ==> chData[k].Length == SAMPLE_RATE)
      && (forall j, k :: 0 <= j < k < CHANNELS ==> chData[j] != chData[k])
    }

    /** The first samples of every channel up to `s`, and those of sample `s` up to channel `k`. */
    ghost predicate Converted(from: seq<byte>, n: nat, s: nat, k: nat)
      requires Valid() && |from| == PRU_PACKET_SIZE && n <= CHANNELS && s <= SAMPLE_RATE
      reads this, chData
    {
      forall c: nat, t: nat :: c < n && (t < s || (t == s < SAMPLE_RATE && c < k)) ==>
        chData[c][t] == ValueAt(from, c, t)
    }

    /** Every number that the buffer carries is in its cell, in volts. */
    ghost predicate InVolts(from: seq<byte>, n: nat)
      requires Valid() && |from| == PRU_PACKET_SIZE && n <= 8
      reads this, chData
    {
      forall k: nat, s: nat, v: int :: k < n && s < 15360 && Carries(from, k, s, v) ==>
        chData[k][s] == v as real * 4.0 / 8388607.0
    }

    lemma ConvertedIsInVolts(from: seq<byte>, n: nat)
      requires Valid() && |from| == PRU_PACKET_SIZE && n <= 8 && Converted(from, n, SAMPLE_RATE, 0)
      ensures InVolts(from, n)
    {
      forall k: nat, s: nat, v: int | k < n && s < 15360 && Carries(from, k, s, v)
        ensures chData[k][s] == v as real * 4.0 / 8388607.0
      {
        CarriedValue(from, k, s, v);
      }
    }

    constructor ()
      ensures Valid() && calls == 0 && fresh(dbuffer) && fresh(chData)
    {
      var rows := NewRows();
      bufferIx, calls := 0, 0;
      dbuffer := new byte[PRU_PACKET_SIZE](_ => 0);
      chData := rows;
    }

    method Setup()
      requires Valid()
      modifies this
      ensures Valid() && calls == 0
    {
      bufferIx, calls := 0, 0;
    }

    /** Converts one buffer. Every cell of the channels is written once, from its own bytes. */
    method ConvertRawValues(from: array<byte>, n: nat) returns (ghost log: seq<Access>)
      requires Valid() && from.Length == PRU_PACKET_SIZE && 0 < n <= CHANNELS
      modifies chData
      ensures Converted(from[..], n, SAMPLE_RATE, 0) && InVolts(from[..], n)
      ensures forall c: nat, t: nat :: n <= c < CHANNELS && t < SAMPLE_RATE ==> chData[c][t] == old(chData[c][t])
      ensures InOrder(log, n * SAMPLE_RATE, n)
    {
      log := [];
      var sIdx := 0;
      for i := 0 to PKG_TOTAL
        invariant sIdx == PKG_SAMPLES * i && Converted(from[..], n, sIdx, 0) && InOrder(log, n * sIdx, n)
        invariant forall c: nat, t: nat :: n <= c < CHANNELS && t < SAMPLE_RATE ==> chData[c][t] == old(chData[c][t])
      {
        log := ConvertPacket(from, n, i, log);
        sIdx := sIdx + PKG_SAMPLES;
      }
      ConvertedIsInVolts(from[..], n);
    }

    /** The four samples of a packet. */
    method ConvertPacket(from: array<byte>, n: nat, i: nat, ghost before: seq<Access>) returns (ghost log: seq<Access>)
      requires Valid() && from.Length == PRU_PACKET_SIZE && 0 < n <= CHANNELS && i < PKG_TOTAL
      requires Converted(from[..], n, PKG_SAMPLES * i, 0) && InOrder(before, n * (PKG_SAMPLES * i), n)
      modifies chData
      ensures Converted(from[..], n, PKG_SAMPLES * i + PKG_SAMPLES, 0)
      ensures InOrder(log, n * (PKG_SAMPLES * i + PKG_SAMPLES), n)
      ensures forall c: nat, t: nat :: n <= c < CHANNELS && t < SAMPLE_RATE ==> chData[c][t] == old(chData[c][t])
    {
      log := before;
      var pIdx, sIdx := i * PKG_SIZE + 4, PKG_SAMPLES * i;
      for j := 0 to PKG_SAMPLES
        invariant pIdx == i * PKG_SIZE + 4 + 24 * j && sIdx == PKG_SAMPLES * i + j
        invariant Converted(from[..], n, sIdx, 0) && InOrder(log, n * sIdx, n)
        invariant forall c: nat, t: nat :: n <= c < CHANNELS && t < SAMPLE_RATE ==> chData[c][t] == old(chData[c][t])
      {
        log := ConvertSample(from, n, pIdx, sIdx, log);
        pIdx := pIdx + 24;
        sIdx := sIdx + 1;
      }
    }

    /** The values of all channels at one sample. */
    method ConvertSample(from: array<byte>, n: nat, pIdx: nat, sIdx: nat, ghost before: seq<Access>)
      returns (ghost log: seq<Access>)
      requires Valid() && from.Length == PRU_PACKET_SIZE && 0 < n <= CHANNELS && sIdx < SAMPLE_RATE
        && pIdx == ByteOf(0, sIdx)
      requires Converted(from[..], n, sIdx, 0) && InOrder(before, n * sIdx, n)
      modifies chData
      ensures Converted(from[..], n, sIdx + 1, 0) && InOrder(log, n * (sIdx + 1), n)
      ensures forall c: nat, t: nat :: n <= c < CHANNELS && t < SAMPLE_RATE ==> chData[c][t] == old(chData[c][t])
    {
      log := before;
      var at := pIdx;
      for k := 0 to n
        invariant at == pIdx + 3 * k && Converted(from[..], n, sIdx, k) && InOrder(log, n * sIdx + k, n)
        invariant forall c: nat, t: nat :: n <= c < CHANNELS && t < SAMPLE_RATE ==> chData[c][t] == old(chData[c][t])
      {
        ConvertValue(from, n, at, k, sIdx);
        InOrderStep(log, sIdx, k, n);
        log := log + [Access(k, sIdx, at)];
        at := at + 3;
      }
      NextSample(log, sIdx, n);
    }

    /** The value of one channel at one sample. */
    method ConvertValue(from: array<byte>, n: nat, at: nat, k: nat, sIdx: nat)
      requires Valid() && from.Length == PRU_PACKET_SIZE && k < n <= CHANNELS && sIdx < SAMPLE_RATE
      requires at == ByteOf(k, sIdx) && Converted(from[..], n, sIdx, k)
      modifies chData[k]
      ensures Converted(from[..], n, sIdx, k + 1)
    {
      ByteHasOneOwner(k, sIdx, 2);
      var value := Scale(Decode(from[at], from[at + 1], from[at + 2]));
      assert value == ValueAt(from[..], k, sIdx);
      chData[k][sIdx] := value;
    }

    /** Takes one second of samples: the two halves of the shared memory in turn. */
    method GetSamples(ram: array<byte>)
      requires Valid() && ram.Length == 2 * PRU_PACKET_SIZE && ram != dbuffer
      modifies this, dbuffer, chData
      ensures Valid() && calls == old(calls) + 1 && ram[..] == old(ram[..])
      ensures var half := PRU_PACKET_SIZE * (old(calls) % 2);
              forall c: nat, t: nat :: c < CHANNELS && t < SAMPLE_RATE ==>
                chData[c][t] == ValueAt(ram[half..half + PRU_PACKET_SIZE], c, t)
      ensures var half := PRU_PACKET_SIZE * (old(calls) % 2); InVolts(ram[half..half + PRU_PACKET_SIZE], CHANNELS)
    {
      if bufferIx == 0 {
        Run(ram, 0);
        bufferIx := 1;
      } else {
        Run(ram, PRU_PACKET_SIZE);
        bufferIx := 0;
      }
      calls := calls + 1;
      ghost var log := ConvertRawValues(dbuffer, CHANNELS);
    }

    /** The copy that follows the wait for the event. */
    method Run(ram: array<byte>, from: nat)
      requires dbuffer.Length == PRU_PACKET_SIZE && from + PRU_PACKET_SIZE <= ram.Length && ram != dbuffer
      modifies dbuffer
      ensures dbuffer[..] == ram[from..from + PRU_PACKET_SIZE]
    {
      forall i | 0 <= i < PRU_PACKET_SIZE {
        dbuffer[i] := ram[from + i];
      }
    }
  }
}
