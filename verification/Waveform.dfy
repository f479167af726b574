/** Waveform records of Waveform.c: finding a zero crossing, the phase-aligned difference of two
    records, and the copy of a record around an event. */
module Waveform {

  const WINDOW: nat := 512

  /** The first index from `from` on whose sample has no sign against it, or the last one;
      `rising` passes over negative samples, otherwise positive ones are passed over. */
  function FirstFrom(s: seq<real>, from: nat, len: nat, rising: bool): (k: nat)
    requires from < len <= |s|
    ensures from <= k < len
    decreases len - from
  {
    if from == len - 1 || !PassedOver(s[from], rising) then from else FirstFrom(s, from + 1, len, rising)
  }

  predicate PassedOver(x: real, rising: bool) {
    if rising then x < 0.0 else x > 0.0
  }

  lemma {:induction false} FirstFromMeans(s: seq<real>, from: nat, len: nat, rising: bool)
    requires from < len <= |s|
    ensures var k := FirstFrom(s, from, len, rising);
            && (forall j :: from <= j < k ==> PassedOver(s[j], rising))
            && (k < len - 1 ==> !PassedOver(s[k], rising))
    decreases len - from
  {
    if from < len - 1 && PassedOver(s[from], rising) {
      FirstFromMeans(s, from + 1, len, rising);
    }
  }

  /** The first non-positive sample at or after the first non-negative one; the last sample
      of the window when there is none. */
  function Crossing(s: seq<real>, len: nat): (k: nat)
    requires 0 < len <= |s|
    ensures k < len
  {
    FirstFrom(s, FirstFrom(s, 0, len, true), len, false)
  }

  /** Everything before a crossing is passed over, and unless the window ends first the wave
      comes down to zero or below there, from above if it got there. */
  lemma CrossingMeans(s: seq<real>, len: nat)
    requires 0 < len <= |s|
    ensures var start, k := FirstFrom(s, 0, len, true), Crossing(s, len);
            start <= k && CrossesAfter(s, len, start, k)
  {
    FirstFromMeans(s, 0, len, true);
    FirstFromMeans(s, FirstFrom(s, 0, len, true), len, false);
  }

  predicate CrossesAfter(s: seq<real>, len: nat, start: int, k: int)
    requires 0 <= start <= k < len <= |s|
  {
    && (forall j :: 0 <= j < start ==> s[j] < 0.0) && (start < len - 1 ==> s[start] >= 0.0)
    && (forall j :: start <= j < k ==> s[j] > 0.0) && (k < len - 1 ==> s[k] <= 0.0)
  }

  lemma {:induction false} FirstFromIs(s: seq<real>, from: nat, len: nat, rising: bool, k: nat)
    requires from <= k < len <= |s| && (k < len - 1 ==> !PassedOver(s[k], rising))
    requires forall j :: from <= j < k ==> PassedOver(s[j], rising)
    ensures FirstFrom(s, from, len, rising) == k
    decreases k - from
  {
    if from < k {
      FirstFromIs(s, from + 1, len, rising, k);
    }
  }

  /** Finds the crossing; it never looks at a sample beyond the window. */
  method FindZero(waveform: array<real>, len: nat) returns (found: nat)
    requires 0 < len <= waveform.Length
    ensures found == Crossing(waveform[..], len)
  {
    ghost var s := waveform[..];
    var k := 0;
    var c1v1 := waveform[0];
    if c1v1 < 0.0 {
      c1v1 := waveform[k];
      k := k + 1;
      while c1v1 < 0.0 && k < len
        invariant 1 <= k <= len && c1v1 == s[k - 1]
        invariant forall j :: 0 <= j < k - 1 ==> s[j] < 0.0
        decreases len - k
      {
        c1v1 := waveform[k];
        k := k + 1;
      }
      k := k - 1;
    }
    FirstFromIs(s, 0, len, true, k);
    ghost var start := k;
    c1v1 := waveform[k];
    k := k + 1;
    while c1v1 > 0.0 && k < len
      invariant start < k <= len && c1v1 == s[k - 1]
      invariant forall j :: start <= j < k - 1 ==> s[j] > 0.0
      decreases len - k
    {
      c1v1 := waveform[k];
      k := k + 1;
    }
    FirstFromIs(s, start, len, false, k - 1);
    found := k - 1;
  }

  /** A record that starts `d` samples earlier in the same negative half-wave crosses zero
      `d` samples later. */
  lemma ShiftedCrossing(s: seq<real>, t: seq<real>, len: nat, d: nat)
    requires 0 < len <= |s| && len <= |t| && s[0] < 0.0
    requires forall n :: 0 <= n < d && n < len ==> t[n] < 0.0
    requires forall n :: 0 <= n && n + d < len ==> t[n + d] == s[n]
    requires Crossing(s, len) + d < len - 1
    ensures Crossing(t, len) == Crossing(s, len) + d
  {
    var start, k := FirstFrom(s, 0, len, true), Crossing(s, len);
    CrossingMeans(s, len);
    assert forall j :: d <= j < k + d ==> t[j] == s[j - d];
    FirstFromIs(t, 0, len, true, start + d);
    FirstFromIs(t, start + d, len, false, k + d);
  }

  // ---------------------------------------------------------------- the difference

  class Signature {
    const V: array<real>
    const I: array<real>
    const samples: nat

    constructor (V: array<real>, I: array<real>, samples: nat)
      ensures this.V == V && this.I == I && this.samples == samples
    {
      this.V, this.I, this.samples := V, I, samples;
    }

    ghost predicate Valid() {
      samples <= V.Length && samples <= I.Length
    }

    /** Where the difference of `n` samples starts: at the crossing, or as far before the end as
        to leave one window after it. */
    ghost function Start(n: nat, startEnd: int): int
      requires WINDOW <= V.Length
      reads V
    {
      Crossing(V[..], WINDOW) + (if startEnd == 1 then samples - n - WINDOW else 0)
    }

    ghost predicate Reaches(n: nat, startEnd: int)
      requires WINDOW <= V.Length
      reads V
    {
      0 <= Start(n, startEnd) && Start(n, startEnd) + n <= samples
    }

    /** The `n` samples of the voltage, or of the current, from there on. */
    ghost function AlignedV(n: nat, startEnd: int): (v: seq<real>)
      requires Valid() && WINDOW <= V.Length && Reaches(n, startEnd)
      reads V
      ensures |v| == n
    {
      V[Start(n, startEnd)..Start(n, startEnd) + n]
    }

    ghost function AlignedI(n: nat, startEnd: int): (i: seq<real>)
      requires Valid() && WINDOW <= V.Length && Reaches(n, startEnd)
      reads V, I
      ensures |i| == n
    {
      I[Start(n, startEnd)..Start(n, startEnd) + n]
    }
  }

  /** In the mode that starts late, the last sample is as far before the end of the record as the
      crossing is before the end of its window; in the other mode the difference starts at the
      crossing itself. */
  lemma StartIs(s: Signature, n: nat, startEnd: int)
    requires 512 <= s.V.Length
    ensures startEnd == 1 ==> s.samples - (s.Start(n, startEnd) + n) == 512 - Crossing(s.V[..], 512)
    ensures startEnd != 1 ==> s.Start(n, startEnd) == Crossing(s.V[..], 512)
  {
  }

  /** Sample by sample. */
  function Difference(s: seq<real>, t: seq<real>): (d: seq<real>)
    requires |s| == |t|
    ensures |d| == |s| && forall k :: 0 <= k < |s| ==> d[k] == s[k] - t[k]
  {
    seq(|s|, k requires 0 <= k < |s| => s[k] - t[k])
  }

  predicate Distinct(s: Signature, t: Signature) {
    s.V != t.V && s.V != t.I && s.I != t.V && s.I != t.I
  }

  /** A record with one window more than the difference is long enough, whatever it holds. */
  lemma LongEnough(s: Signature, n: nat, startEnd: int)
    requires s.Valid() && s.samples >= n + WINDOW
    ensures s.Reaches(n, startEnd)
  {
  }

  /** The places in two records where their difference starts, and the record that `offset12`
      picks for the voltage with the place in it. */
  method Align(prior: Signature, current: Signature, n: nat, offset12: int, startEnd: int)
    returns (i1: nat, i2: nat, record: array<real>, v: nat)
    requires WINDOW <= prior.V.Length && WINDOW <= current.V.Length
    requires prior.Reaches(n, startEnd) && current.Reaches(n, startEnd)
    ensures i1 == prior.Start(n, startEnd) && i2 == current.Start(n, startEnd)
    ensures if offset12 == 2 then record == current.V && v == i2 else record == prior.V && v == i1
  {
    var s1: int, s2: int := 0, 0;
    if startEnd == 1 {
      s1 := s1 + prior.samples - n - WINDOW;
      s2 := s2 + current.samples - n - WINDOW;
    }
    var k1 := FindZero(prior.V, WINDOW);
    var k2 := FindZero(current.V, WINDOW);
    i1 := s1 + k1;
    i2 := s2 + k2;
    var w: int;
    if offset12 == 2 {
      record, w := current.V, k2;
      if startEnd == 1 {
        w := w + current.samples - n - WINDOW;
      }
    } else {
      record, w := prior.V, k1;
      if startEnd == 1 {
        w := w + prior.samples - n - WINDOW;
      }
    }
    v := w;
  }

  /** The difference of two records from their crossings on, with the voltage of the one that
      `offset12` picks, from the same place on. */
  method WaveformDiff(prior: Signature, current: Signature, out: Signature, offset12: int, startEnd: int)
    requires prior.Valid() && current.Valid() && out.Valid()
    requires WINDOW <= prior.V.Length && WINDOW <= current.V.Length
    requires prior.Reaches(out.samples, startEnd) && current.Reaches(out.samples, startEnd)
    requires Distinct(out, prior) && Distinct(out, current) && out.V != out.I
    modifies out.V, out.I
    ensures out.I[..out.samples]
         == Difference(old(current.AlignedI(out.samples, startEnd)), old(prior.AlignedI(out.samples, startEnd)))
    ensures offset12 == 2 ==> out.V[..out.samples] == old(current.AlignedV(out.samples, startEnd))
    ensures offset12 != 2 ==> out.V[..out.samples] == old(prior.AlignedV(out.samples, startEnd))
    ensures out.V[out.samples..] == old(out.V[out.samples..]) && out.I[out.samples..] == old(out.I[out.samples..])
  {
    ghost var a, b := current.AlignedI(out.samples, startEnd), prior.AlignedI(out.samples, startEnd);
    ghost var c := if offset12 == 2 then current.AlignedV(out.samples, startEnd)
                   else prior.AlignedV(out.samples, startEnd);
    SubtractAligned(prior, current, out, offset12, startEnd, a, b, c);
  }

  /** The same, for the records from their crossings on. */
  method SubtractAligned(prior: Signature, current: Signature, out: Signature, offset12: int, startEnd: int,
                         ghost a: seq<real>, ghost b: seq<real>, ghost c: seq<real>)
    requires prior.Valid() && current.Valid() && out.Valid()
    requires WINDOW <= prior.V.Length && WINDOW <= current.V.Length
    requires prior.Reaches(out.samples, startEnd) && current.Reaches(out.samples, startEnd)
    requires Distinct(out, prior) && Distinct(out, current) && out.V != out.I
    requires a == current.AlignedI(out.samples, startEnd) && b == prior.AlignedI(out.samples, startEnd)
    requires c == if offset12 == 2 then current.AlignedV(out.samples, startEnd)
                  else prior.AlignedV(out.samples, startEnd)
    modifies out.V, out.I
    ensures out.I[..out.samples] == Difference(a, b) && out.V[..out.samples] == c
    ensures out.V[out.samples..] == old(out.V[out.samples..]) && out.I[out.samples..] == old(out.I[out.samples..])
  {
    var i1, i2, record, v := Align(prior, current, out.samples, offset12, startEnd);
    Subtract(prior.I, i1, current.I, i2, record, v, out, a, b, c);
  }

  /** The samples of a difference, from three places on. */
  method Subtract(prior: array<real>, i1: nat, current: array<real>, i2: nat, record: array<real>, v: nat,
                  out: Signature, ghost a: seq<real>, ghost b: seq<real>, ghost c: seq<real>)
    requires out.Valid() && i1 + out.samples <= prior.Length && i2 + out.samples <= current.Length
    requires v + out.samples <= record.Length && out.V != out.I
    requires {out.V, out.I} !! {prior, current, record}
    requires a == current[i2..i2 + out.samples] && b == prior[i1..i1 + out.samples]
    requires c == record[v..v + out.samples]
    modifies out.V, out.I
    ensures out.I[..out.samples] == Difference(a, b) && out.V[..out.samples] == c
    ensures out.V[out.samples..] == old(out.V[out.samples..]) && out.I[out.samples..] == old(out.I[out.samples..])
  {
    for k := 0 to out.samples
      invariant forall j :: 0 <= j < k ==> out.I[j] == current[i2 + j] - prior[i1 + j] && out.V[j] == record[v + j]
      invariant out.V[out.samples..] == old(out.V[out.samples..]) && out.I[out.samples..] == old(out.I[out.samples..])
    {
      out.I[k] := current[i2 + k] - prior[i1 + k];
      out.V[k] := record[v + k];
    }
    assert forall j :: 0 <= j < out.samples ==> out.I[..out.samples][j] == a[j] - b[j];
    assert forall j :: 0 <= j < out.samples ==> out.V[..out.samples][j] == c[j];
  }

  /** Copies one cycle before and one after `offset`: together a seamless stretch. */
  method CopyWaveform(offset: nat, vchannel: array<real>, ichannel: array<real>, wvfV: array<real>, wvfI: array<real>)
    requires 256 <= offset && offset + 256 <= vchannel.Length && offset + 256 <= ichannel.Length
    requires wvfV.Length >= WINDOW && wvfI.Length >= WINDOW
    requires wvfV != wvfI && {wvfV, wvfI} !! {vchannel, ichannel}
    modifies wvfV, wvfI
    ensures wvfV[..WINDOW] == vchannel[offset - 256..offset + 256]
      && wvfI[..WINDOW] == ichannel[offset - 256..offset + 256]
    ensures wvfV[WINDOW..] == old(wvfV[WINDOW..]) && wvfI[WINDOW..] == old(wvfI[WINDOW..])
  {
    var before, after := offset - 256, offset;
    for i := 0 to 256
      invariant wvfV[..i] == vchannel[offset - 256..offset - 256 + i]
      invariant wvfI[..i] == ichannel[offset - 256..offset - 256 + i]
      invariant before == offset - 256 + i
      invariant wvfV[WINDOW..] == old(wvfV[WINDOW..]) && wvfI[WINDOW..] == old(wvfI[WINDOW..])
    {
      wvfV[i] := vchannel[before];
      wvfI[i] := ichannel[before];
      before := before + 1;
    }
    for i := 256 to 512
      invariant wvfV[..i] == vchannel[offset - 256..offset - 256 + i]
      invariant wvfI[..i] == ichannel[offset - 256..offset - 256 + i]
      invariant after == offset + i - 256
      invariant wvfV[WINDOW..] == old(wvfV[WINDOW..]) && wvfI[WINDOW..] == old(wvfI[WINDOW..])
    {
      wvfV[i] := vchannel[after];
      wvfI[i] := ichannel[after];
      after := after + 1;
    }
  }
}
