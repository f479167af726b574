/** The per-second harmonic analysis and the channel scaling of MetrologyCore.c. */
module Metrology {
  import opened Reals
  import opened Complexes
  import opened Tones
  import opened GoertzelFilter

  const DFT_POINTS := 10
  const INPUTS := 3
  const V_SCALE := 160.0 / 2.4
  const I_SCALE := 50.0 / 2.4

  /** The unit number of DFT bin `k` over windows of `points` samples. */
  ghost function BinUnit(points: int, k: int, cos: real -> real, sin: real -> real): Complex
    requires points != 0
  {
    Complex(cos(Angle(points, k)), sin(Angle(points, k)))
  }

  class MetrologyCore {
    const goertzel: Goertzel
    var points: int
    var fs: int
    var f1: int
    /** The sample buffers of the three voltages and the three currents. */
    const vSamples: seq<array<real>>
    const iSamples: seq<array<real>>
    /** The odd harmonics of every current channel and window. */
    const dft: array3<real>

    constructor (vSamples: seq<array<real>>, iSamples: seq<array<real>>, dft: array3<real>)
      ensures this.vSamples == vSamples && this.iSamples == iSamples && this.dft == dft && fresh(goertzel)
    {
      goertzel := new Goertzel();
      this.vSamples, this.iSamples, this.dft := vSamples, iSamples, dft;
    }

    ghost predicate Configured(cos: real -> real, sin: real -> real)
      reads this, goertzel, goertzel.coeff
    {
      && goertzel.points == points && goertzel.fsample == fs as real && goertzel.fdtm == f1 as real
      && goertzel.Ready(cos, sin)
    }

    method Init(points: int, fs: int, f1: int, cos: real -> real, ghost sin: real -> real) returns (status: int)
      requires IsTrig(cos, sin) && fs != 0
      modifies this, goertzel
      ensures points > 0 ==> status == 0 && this.points == points && this.fs == fs && this.f1 == f1
      ensures points > 0 ==> Configured(cos, sin) && fresh(goertzel.coeff)
      ensures points <= 0 ==> status == -1
    {
      status := goertzel.Init(points, fs as real, f1 as real);
      if status == -1 {
        return -1;
      }
      this.points, this.fs, this.f1 := points, fs, f1;
      goertzel.EvaluateCoefficients(cos, sin);
      return 0;
    }

    /** The one second of samples splits exactly into the fundamental's periods. */
    ghost predicate Tiled()
      reads this
    {
      && f1 > 0 && points >= 2 * DFT_POINTS && f1 * points == fs
      && |iSamples| == INPUTS && (forall j :: 0 <= j < INPUTS ==> iSamples[j].Length == fs)
      && dft.Length0 == INPUTS && dft.Length1 == f1 && dft.Length2 == DFT_POINTS
    }

    ghost predicate Inside(i: int)
      reads this
    {
      points >= 0 && 0 <= i * points && i * points + points <= fs
    }

    lemma WindowFits(i: nat)
      requires Tiled() && i < f1
      ensures Inside(i)
    {
      assert (i + 1) * points <= f1 * points;
    }

    /** Every sample of the second lies in exactly one window. */
    lemma WindowsTile(s: nat)
      requires Tiled() && s < fs
      ensures s / points < f1 && s / points * points <= s < s / points * points + points
      ensures forall i: nat :: i < f1 && i * points <= s < i * points + points ==> i == s / points
    {
      var q := s / points;
      assert s == q * points + s % points;
      assert q >= f1 ==> q * points >= f1 * points;
      forall i: nat | i < f1 && i * points <= s < i * points + points
        ensures i == q
      {
        assert i < q ==> (i + 1) * points <= q * points;
        assert i > q ==> (q + 1) * points <= i * points;
      }
    }

    /** `h` is the magnitude of odd bin `2k+1` of window `i` of channel `j`. */
    ghost predicate HarmonicOf(h: real, j: nat, i: nat, k: nat, cos: real -> real, sin: real -> real)
      requires points > 0 && j < |iSamples| && iSamples[j].Length == fs && Inside(i)
      reads this, if j < |iSamples| then {iSamples[j]} else {}
    {
      IsHarmonic(h, iSamples[j][i * points..i * points + points], BinUnit(points, 2 * k + 1, cos, sin))
    }

    method WindowHarmonics(j: nat, i: nat, cos: real -> real, ghost sin: real -> real, sqrt: real -> real)
      returns (row: array<real>)
      requires Tiled() && Configured(cos, sin) && IsSqrt(sqrt) && j < INPUTS && i < f1 && Inside(i)
      ensures fresh(row) && row.Length == DFT_POINTS
      ensures forall k: nat :: k < DFT_POINTS ==> HarmonicOf(row[k], j, i, k, cos, sin)
    {
      var input := iSamples[j][i * points..];
      row := new real[DFT_POINTS];
      goertzel.CalculateOdd(input, row, DFT_POINTS, cos, sin, sqrt);
      assert input[..points] == iSamples[j][i * points..i * points + points];
      forall k: nat | k < DFT_POINTS
        ensures HarmonicOf(row[k], j, i, k, cos, sin)
      {
        BinsAreExact(points, fs as real, f1 as real, 2 * k + 1);
      }
    }

    method StoreRow(j: nat, i: nat, row: array<real>)
      requires j < dft.Length0 && i < dft.Length1 && dft.Length2 == row.Length == DFT_POINTS
      modifies dft
      ensures forall k :: 0 <= k < DFT_POINTS ==> dft[j, i, k] == row[k]
      ensures forall a, b, k ::
                0 <= a < dft.Length0 && 0 <= b < dft.Length1 && 0 <= k < DFT_POINTS && (a != j || b != i) ==>
                dft[a, b, k] == old(dft[a, b, k])
    {
      for k := 0 to DFT_POINTS
        invariant forall c :: 0 <= c < k ==> dft[j, i, c] == row[c]
        invariant forall a, b, c ::
                    0 <= a < dft.Length0 && 0 <= b < dft.Length1 && 0 <= c < DFT_POINTS && (a != j || b != i) ==>
                    dft[a, b, c] == old(dft[a, b, c])
      {
        dft[j, i, k] := row[k];
      }
    }

    ghost predicate WindowDone(j: nat, i: nat, cos: real -> real, sin: real -> real)
      requires Tiled() && j < INPUTS && i < f1
      reads this, dft, iSamples
    {
      Inside(i) && forall k: nat :: k < DFT_POINTS ==> HarmonicOf(dft[j, i, k], j, i, k, cos, sin)
    }

    /** The row of a window tells apart the tones and the constants that the window may hold. */
    ghost predicate WindowPicks(j: nat, i: nat, cos: real -> real)
      requires Tiled() && j < INPUTS && i < f1
      reads this, dft, iSamples
    {
      Inside(i) && forall k: nat :: k < DFT_POINTS ==>
        PicksOdd(dft[j, i, k], iSamples[j][i * points..i * points + points], 2 * k + 1, cos)
    }

    lemma DonePicks(j: nat, i: nat, cos: real -> real, sin: real -> real)
      requires Tiled() && j < INPUTS && i < f1 && IsCircular(cos, sin) && WindowDone(j, i, cos, sin)
      ensures WindowPicks(j, i, cos)
    {
      var window := iSamples[j][i * points..i * points + points];
      forall k: nat | k < DFT_POINTS
        ensures PicksOdd(dft[j, i, k], window, 2 * k + 1, cos)
      {
        assert HarmonicOf(dft[j, i, k], j, i, k, cos, sin);
        AngleIsPart(points, 2 * k + 1);
        HarmonicPicks(dft[j, i, k], window, 2 * k + 1, cos, sin);
      }
    }

    /** All odd harmonics of all windows of all current channels. */
    method CalculateHarmonics(cos: real -> real, ghost sin: real -> real, sqrt: real -> real)
      requires Tiled() && Configured(cos, sin) && IsSqrt(sqrt)
      modifies dft
      ensures forall j: nat, i: nat :: j < INPUTS && i < f1 ==> WindowDone(j, i, cos, sin)
      ensures IsCircular(cos, sin) ==> forall j: nat, i: nat :: j < INPUTS && i < f1 ==> WindowPicks(j, i, cos)
    {
      for j := 0 to INPUTS
        invariant forall a: nat, b: nat :: a < j && b < f1 ==> WindowDone(a, b, cos, sin)
      {
        for i := 0 to f1
          invariant forall a: nat, b: nat :: a < j && b < f1 ==> WindowDone(a, b, cos, sin)
          invariant forall b: nat :: b < i ==> WindowDone(j, b, cos, sin)
        {
          WindowFits(i);
          var row := WindowHarmonics(j, i, cos, sin, sqrt);
          label before:
          StoreRow(j, i, row);
          forall a: nat, b: nat | (a < j && b < f1) || (a == j && b < i)
            ensures WindowDone(a, b, cos, sin)
          {
            assert old@before(WindowDone(a, b, cos, sin));
          }
        }
      }
      if IsCircular(cos, sin) {
        forall j: nat, i: nat | j < INPUTS && i < f1
          ensures WindowPicks(j, i, cos)
        {
          DonePicks(j, i, cos, sin);
        }
      }
    }

    ghost predicate Scaled(now: array<real>, before: seq<real>, scale: real)
      reads now
    {
      now.Length == |before| && forall i :: 0 <= i < |before| ==> now[i] == before[i] * scale
    }

    /** Converts the samples of every channel in place. */
    method Scale()
      requires |vSamples| == |iSamples| == INPUTS
      requires forall j :: 0 <= j < INPUTS ==> vSamples[j].Length == iSamples[j].Length == fs
      requires forall i, j :: 0 <= i < INPUTS && 0 <= j < INPUTS ==> vSamples[i] != iSamples[j]
      requires forall i, j :: 0 <= i < j < INPUTS ==> vSamples[i] != vSamples[j] && iSamples[i] != iSamples[j]
      modifies vSamples, iSamples
      ensures forall j :: 0 <= j < INPUTS ==> Scaled(vSamples[j], old(vSamples[j][..]), 160.0 / 2.4)
      ensures forall j :: 0 <= j < INPUTS ==> Scaled(iSamples[j], old(iSamples[j][..]), 50.0 / 2.4)
    {
      for j := 0 to INPUTS
        invariant forall a :: 0 <= a < j ==> Scaled(vSamples[a], old(vSamples[a][..]), V_SCALE)
        invariant forall a :: j <= a < INPUTS ==> vSamples[a][..] == old(vSamples[a][..])
        invariant forall a :: 0 <= a < INPUTS ==> iSamples[a][..] == old(iSamples[a][..])
      {
        ScaleChannel(vSamples[j], V_SCALE);
      }
      for j := 0 to INPUTS
        invariant forall a :: 0 <= a < j ==> Scaled(iSamples[a], old(iSamples[a][..]), I_SCALE)
        invariant forall a :: j <= a < INPUTS ==> iSamples[a][..] == old(iSamples[a][..])
        invariant forall a :: 0 <= a < INPUTS ==> Scaled(vSamples[a], old(vSamples[a][..]), V_SCALE)
      {
        ScaleChannel(iSamples[j], I_SCALE);
      }
    }

    method ScaleChannel(samples: array<real>, scale: real)
      requires samples.Length == fs
      modifies samples
      ensures Scaled(samples, old(samples[..]), scale)
    {
      for i := 0 to fs
        invariant forall a :: 0 <= a < i ==> samples[a] == old(samples[a]) * scale
        invariant forall a :: i <= a < fs ==> samples[a] == old(samples[a])
      {
        samples[i] := samples[i] * scale;
      }
    }
  }
}
