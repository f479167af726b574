/** The Goertzel harmonic analysis of Goertzel.c, and its windows in MetrologyCore.c. */
module Complexes {
  import opened Reals

  datatype Complex = Complex(re: real, im: real)

  const ONE := Complex(1.0, 0.0)
  const ZERO := Complex(0.0, 0.0)

  function Plus(a: Complex, b: Complex): Complex {
    Complex(a.re + b.re, a.im + b.im)
  }

  function Mul(a: Complex, b: Complex): Complex {
    Complex(Times(a.re, b.re) - Times(a.im, b.im), Times(a.re, b.im) + Times(a.im, b.re))
  }

  function Real(x: real): Complex {
    Complex(x, 0.0)
  }

  function Conjugate(z: Complex): Complex {
    Complex(z.re, -z.im)
  }

  /** The squared modulus. */
  function Norm2(z: Complex): real {
    Square(z.re) + Square(z.im)
  }

  function Pow(z: Complex, n: nat): Complex {
    if n == 0 then ONE else Mul(z, Pow(z, n - 1))
  }

  lemma MulAssociative(a: Complex, b: Complex, c: Complex)
    ensures Mul(Mul(a, b), c) == Mul(a, Mul(b, c))
  {
    Associative(a.re, b.re, c.re);
    Associative(a.re, b.im, c.im);
    Associative(a.im, b.re, c.im);
    Associative(a.im, b.im, c.re);
    Associative(a.re, b.re, c.im);
    Associative(a.re, b.im, c.re);
    Associative(a.im, b.re, c.re);
    Associative(a.im, b.im, c.im);
    TimesOfSums(a.re, a.im, b.re, b.im, c.re, c.im);
  }

  lemma Associative(x: real, y: real, z: real)
    ensures Times(Times(x, y), z) == Times(x, Times(y, z))
  {
  }

  lemma TimesOfSums(a: real, b: real, c: real, d: real, e: real, f: real)
    ensures Times(Times(a, c) - Times(b, d), e) == Times(Times(a, c), e) - Times(Times(b, d), e)
    ensures Times(Times(a, c) - Times(b, d), f) == Times(Times(a, c), f) - Times(Times(b, d), f)
    ensures Times(Times(a, d) + Times(b, c), e) == Times(Times(a, d), e) + Times(Times(b, c), e)
    ensures Times(Times(a, d) + Times(b, c), f) == Times(Times(a, d), f) + Times(Times(b, c), f)
    ensures Times(a, Times(c, e) - Times(d, f)) == Times(a, Times(c, e)) - Times(a, Times(d, f))
    ensures Times(b, Times(c, e) - Times(d, f)) == Times(b, Times(c, e)) - Times(b, Times(d, f))
    ensures Times(a, Times(c, f) + Times(d, e)) == Times(a, Times(c, f)) + Times(a, Times(d, e))
    ensures Times(b, Times(c, f) + Times(d, e)) == Times(b, Times(c, f)) + Times(b, Times(d, e))
  {
  }

  lemma MulCommutative(a: Complex, b: Complex)
    ensures Mul(a, b) == Mul(b, a)
  {
  }

  lemma MulDistributes(a: Complex, b: Complex, c: Complex)
    ensures Mul(a, Plus(b, c)) == Plus(Mul(a, b), Mul(a, c))
  {
    TimesDistributes(a.re, b.re, c.re);
    TimesDistributes(a.re, b.im, c.im);
    TimesDistributes(a.im, b.re, c.re);
    TimesDistributes(a.im, b.im, c.im);
  }

  lemma MulOne(z: Complex)
    ensures Mul(z, ONE) == z && Mul(ONE, z) == z
  {
  }

  lemma SquareOfSum(x: real, y: real)
    ensures Square(x + y) == Square(x) + 2.0 * Times(x, y) + Square(y)
    ensures Square(x - y) == Square(x) - 2.0 * Times(x, y) + Square(y)
  {
  }

  lemma CrossTerms(a: Complex, b: Complex)
    ensures Times(Times(a.re, b.re), Times(a.im, b.im)) == Times(Times(a.re, b.im), Times(a.im, b.re))
  {
  }

  /** The modulus is multiplicative. */
  lemma Norm2OfProduct(a: Complex, b: Complex)
    ensures Norm2(Mul(a, b)) == Times(Norm2(a), Norm2(b))
  {
    SquareOfSum(Times(a.re, b.re), Times(a.im, b.im));
    SquareOfSum(Times(a.re, b.im), Times(a.im, b.re));
    CrossTerms(a, b);
    SquareOfProduct(a.re, b.re);
    SquareOfProduct(a.im, b.im);
    SquareOfProduct(a.re, b.im);
    SquareOfProduct(a.im, b.re);
    TimesOfTwoSums(Square(a.re), Square(a.im), Square(b.re), Square(b.im));
  }

  lemma TimesOfTwoSums(a: real, b: real, c: real, d: real)
    ensures Times(a + b, c + d) == Times(a, c) + Times(a, d) + Times(b, c) + Times(b, d)
  {
  }

  lemma {:induction false} UnitPower(z: Complex, n: nat)
    requires Norm2(z) == 1.0
    ensures Norm2(Pow(z, n)) == 1.0
  {
    if n > 0 {
      UnitPower(z, n - 1);
      Norm2OfProduct(z, Pow(z, n - 1));
    } else {
      assert Square(1.0) == 1.0 && Square(0.0) == 0.0;
    }
  }

  lemma ConjugateInverts(z: Complex)
    requires Norm2(z) == 1.0
    ensures Mul(z, Conjugate(z)) == ONE
  {
    assert Times(z.re, -z.im) == -Times(z.im, z.re) && Times(z.im, -z.im) == -Square(z.im);
  }

  lemma ProductOfInverses(z: Complex, p: Complex, w: Complex, q: Complex)
    requires Mul(z, w) == ONE && Mul(p, q) == ONE
    ensures Mul(Mul(z, p), Mul(w, q)) == ONE
  {
    MulAssociative(z, p, Mul(w, q));
    MulAssociative(p, w, q);
    MulCommutative(p, w);
    MulAssociative(w, p, q);
    MulOne(w);
  }

  /** On the unit circle the powers of the conjugate undo those of the number. */
  lemma {:induction false} ConjugatePower(z: Complex, n: nat)
    requires Norm2(z) == 1.0
    ensures Mul(Pow(z, n), Pow(Conjugate(z), n)) == ONE
  {
    if n == 0 {
      MulOne(ONE);
    } else {
      ConjugatePower(z, n - 1);
      ConjugateInverts(z);
      ProductOfInverses(z, Pow(z, n - 1), Conjugate(z), Pow(Conjugate(z), n - 1));
    }
  }
}

module GoertzelFilter {
  import opened Reals
  import opened Complexes
  import opened Tones

  /** `Sum x[i] * z^(n-1-i)` over the first `n` samples, by Horner's rule. */
  function Horner(x: seq<real>, z: Complex, n: nat): Complex
    requires n <= |x|
  {
    if n == 0 then ZERO else Plus(Mul(z, Horner(x, z, n - 1)), Real(x[n - 1]))
  }

  /** The two variables of the recurrence after `n` samples: the newest and the one before. */
  function Resonator(x: seq<real>, coeff: real, n: nat): (real, real)
    requires n <= |x|
  {
    if n == 0 then (0.0, 0.0)
    else
      var (s1, s2) := Resonator(x, coeff, n - 1);
      (x[n - 1] + Times(coeff, s1) - s2, s1)
  }

  function PowerOf(s: (real, real), coeff: real): real {
    Square(s.1) + Square(s.0) - Times(Times(coeff, s.0), s.1)
  }

  /** The coefficient that stands for the unit number `z`. */
  function Coeff(z: Complex): real {
    2.0 * z.re
  }

  lemma ResonatorStep(s1: real, s2: real, input: real, c: real, s: real)
    requires Square(c) + Square(s) == 1.0
    ensures var h := Complex(s1 - Times(c, s2), Times(s, s2));
            var next := input + Times(2.0 * c, s1) - s2;
            Plus(Mul(Complex(c, s), h), Real(input)) == Complex(next - Times(c, s1), Times(s, s1))
  {
    assert Times(2.0 * c, s1) == 2.0 * Times(c, s1);
    assert Times(c, s1 - Times(c, s2)) == Times(c, s1) - Times(c, Times(c, s2));
    assert Times(s, s1 - Times(c, s2)) == Times(s, s1) - Times(s, Times(c, s2));
    Associative(c, c, s2);
    Associative(s, s, s2);
    Associative(s, c, s2);
    Associative(c, s, s2);
    assert Times(c, s) == Times(s, c);
    assert Times(Square(c), s2) + Times(Square(s), s2) == Times(Square(c) + Square(s), s2) == s2;
  }

  /** The recurrence carries the Horner sum: its real part is `s1 - c*s2`, its imaginary
      part `s*s2`. */
  lemma {:induction false} ResonatorIsHorner(x: seq<real>, z: Complex, n: nat)
    requires n <= |x| && Norm2(z) == 1.0
    ensures var (s1, s2) := Resonator(x, Coeff(z), n);
            Horner(x, z, n) == Complex(s1 - Times(z.re, s2), Times(z.im, s2))
  {
    if n == 0 {
      assert Times(z.re, 0.0) == 0.0 && Times(z.im, 0.0) == 0.0;
    } else {
      ResonatorIsHorner(x, z, n - 1);
      var (s1, s2) := Resonator(x, Coeff(z), n - 1);
      ResonatorStep(s1, s2, x[n - 1], z.re, z.im);
    }
  }

  lemma PowerIsNorm(s1: real, s2: real, z: Complex)
    requires Norm2(z) == 1.0
    ensures PowerOf((s1, s2), Coeff(z)) == Norm2(Complex(s1 - Times(z.re, s2), Times(z.im, s2)))
  {
    var c, s := z.re, z.im;
    SquareOfSum(s1, Times(c, s2));
    SquareOfProduct(c, s2);
    SquareOfProduct(s, s2);
    assert Times(Square(c), Square(s2)) + Times(Square(s), Square(s2))
        == Times(Square(c) + Square(s), Square(s2)) == Square(s2);
    assert Times(Times(2.0 * c, s1), s2) == 2.0 * Times(s1, Times(c, s2));
  }

  /** Horner's sum is the DFT bin turned by `z^(n-1)`. */
  lemma {:induction false} HornerIsTurnedBin(x: seq<real>, z: Complex, n: nat)
    requires 0 < n <= |x| && Norm2(z) == 1.0
    ensures Horner(x, z, n) == Mul(Pow(z, n - 1), Bin(x, z, n))
  {
    var last := Real(x[n - 1]);
    var p, q := Pow(z, n - 1), Pow(Conjugate(z), n - 1);
    ConjugatePower(z, n - 1);
    MulDistributes(p, Bin(x, z, n - 1), Mul(last, q));
    assert Mul(p, Mul(last, q)) == last by {
      MulAssociative(p, last, q);
      MulCommutative(p, last);
      MulAssociative(last, p, q);
      MulOne(last);
    }
    assert Mul(z, Horner(x, z, n - 1)) == Mul(p, Bin(x, z, n - 1)) by {
      if n == 1 {
        MulZero(z);
        MulZero(p);
      } else {
        HornerIsTurnedBin(x, z, n - 1);
        MulAssociative(z, Pow(z, n - 2), Bin(x, z, n - 1));
      }
    }
  }

  lemma MulZero(z: Complex)
    ensures Mul(z, ZERO) == ZERO
  {
  }

  lemma HornerNorm(x: seq<real>, z: Complex, n: nat)
    requires n <= |x| && Norm2(z) == 1.0
    ensures Norm2(Horner(x, z, n)) == Norm2(Bin(x, z, n))
  {
    if n > 0 {
      var p, b := Pow(z, n - 1), Bin(x, z, n);
      HornerIsTurnedBin(x, z, n);
      Norm2OfProduct(p, b);
      UnitPower(z, n - 1);
      assert Times(1.0, Norm2(b)) == Norm2(b);
    }
  }

  lemma PowerOfPrefix(x: seq<real>, z: Complex, n: nat)
    requires n <= |x| && Norm2(z) == 1.0
    ensures PowerOf(Resonator(x, Coeff(z), n), Coeff(z)) == Norm2(Bin(x, z, n))
  {
    var s := Resonator(x, Coeff(z), n);
    ResonatorIsHorner(x, z, n);
    PowerIsNorm(s.0, s.1, z);
    HornerNorm(x, z, n);
  }

  /** The Goertzel recurrence computes the power of a DFT bin: for every input and every
      unit number, its final expression is the squared modulus of the bin. */
  lemma GoertzelIsDft(x: seq<real>, z: Complex)
    requires Norm2(z) == 1.0
    ensures PowerOf(Resonator(x, Coeff(z), |x|), Coeff(z)) == Norm2(Bin(x, z, |x|))
    ensures Norm2(Bin(x, z, |x|)) >= 0.0
  {
    PowerOfPrefix(x, z, |x|);
    SquareSign(Bin(x, z, |x|).re);
    SquareSign(Bin(x, z, |x|).im);
  }

  // ---------------------------------------------------------------- the filter object

  const GOERTZEL_PI := 3.141592653589793238462643383279

  /** `cos` and `sin` stand for the C library's functions, exact on the reals. */
  ghost predicate IsTrig(cos: real -> real, sin: real -> real) {
    forall w: real :: Norm2(Complex(cos(w), sin(w))) == 1.0
  }

  function NormalizedFrequency(fsample: real, fdtm: real, j: int): real
    requires fsample != 0.0
  {
    fdtm * j as real / fsample
  }

  /** The bin index that coefficient `j` is rounded to. */
  function BinIndex(points: int, fsample: real, fdtm: real, j: int): int
    requires fsample != 0.0
  {
    (0.5 + Times(points as real, NormalizedFrequency(fsample, fdtm, j))).Floor
  }

  function Angle(points: int, k: int): real
    requires points != 0
  {
    2.0 * GOERTZEL_PI * k as real / points as real
  }

  /** When the window holds a whole number of fundamental periods' worth of samples,
      coefficient `j` belongs to bin `j` exactly. */
  lemma BinsAreExact(points: int, fsample: real, fdtm: real, j: int)
    requires fsample != 0.0 && points as real * fdtm == fsample
    ensures BinIndex(points, fsample, fdtm, j) == j
  {
    MoveFactor(points as real, fdtm, j as real, fsample);
    assert Times(points as real, NormalizedFrequency(fsample, fdtm, j)) == j as real;
  }

  lemma MoveFactor(p: real, d: real, r: real, f: real)
    requires f != 0.0 && p * d == f
    ensures Times(p, d * r / f) == r
  {
    var q := d * r / f;
    assert q * f == d * r;
    assert (p * q) * f == p * (d * r) == (p * d) * r == f * r;
    CancelFactor(p * q, r, f);
  }

  lemma CancelFactor(a: real, b: real, f: real)
    requires f != 0.0 && a * f == b * f
    ensures a == b
  {
    assert a == a * f / f && b == b * f / f;
  }

  /** Goertzel's magnitude with the scaling of the full pass, by its square. */
  ghost predicate IsMagnitude(m: real, window: seq<real>, z: Complex) {
    m >= 0.0 && Square(m) * |window| as real == Norm2(Bin(window, z, |window|))
  }

  const ROOT_TWO := 1414213562.0 / 1000000000.0

  /** The scaling of the odd pass, by its square. */
  ghost predicate IsHarmonic(m: real, window: seq<real>, z: Complex) {
    m >= 0.0 && Square(m) * Square(|window| as real) == Norm2(Bin(window, z, |window|)) * Square(ROOT_TWO)
  }

  // ---------------------------------------------------------------- tones in the outputs

  /** Bin `j` is `j` parts of a whole turn. */
  lemma AngleIsPart(n: nat, j: int)
    requires 0 < n
    ensures Angle(n, j) == Part(j, n)
  {
  }

  lemma NoMagnitude(m: real, n: real)
    requires n > 0.0 && Square(m) * n == 0.0
    ensures m == 0.0
  {
    SquareSign(m);
    if m != 0.0 {
      TimesPositive(Square(m), n);
    }
  }

  lemma ToneMagnitude(m: real, amp: real, n: real)
    requires n > 0.0 && Square(m) * n == Times(Square(amp / 2.0), Square(n))
    ensures 4.0 * Square(m) == Square(amp) * n
  {
    var s, a := Square(m), Square(amp / 2.0);
    assert s * n == a * n * n;
    assert s == a * n;
    assert 4.0 * a == Square(amp);
  }

  lemma ConstantMagnitude(m: real, c: real, n: real)
    requires n > 0.0 && Square(m) * n == Times(Square(c), Square(n))
    ensures Square(m) == Square(c) * n
  {
    var s, a := Square(m), Square(c);
    assert s * n == a * n * n;
  }

  lemma ToneHarmonic(m: real, amp: real, n: real)
    requires n > 0.0 && Square(m) * Square(n) == Times(Square(amp / 2.0), Square(n)) * Square(ROOT_TWO)
    ensures 4.0 * Square(m) == Square(amp) * Square(1414213562.0 / 1000000000.0)
  {
    var s, a, q, r := Square(m), Square(amp / 2.0), Square(n), Square(ROOT_TWO);
    SquareSign(n);
    assert s * q == a * q * r;
    assert (s - a * r) * q == 0.0;
    assert s == a * r;
    assert 4.0 * a == Square(amp);
  }

  /** Output `j` of the full pass for a tone that goes round `k` times. */
  ghost predicate ToneOutput(out: real, j: nat, k: nat, amp: real, n: nat) {
    if j == k then out >= 0.0 && 4.0 * Square(out) == Square(amp) * n as real else out == 0.0
  }

  ghost predicate ConstantOutput(out: real, j: nat, c: real, n: nat) {
    if j == 0 then out >= 0.0 && Square(out) == Square(c) * n as real else out == 0.0
  }

  /** And of the odd pass: the root mean square of the tone, to the digits of its constant. */
  ghost predicate OddOutput(out: real, j: nat, k: nat, amp: real) {
    if j == k then out >= 0.0 && 4.0 * Square(out) == Square(amp) * Square(1414213562.0 / 1000000000.0) else out == 0.0
  }

  ghost predicate PicksTone(out: real, window: seq<real>, j: nat, k: nat, amp: real, phase: real, cos: real -> real) {
    0 < k && 2 * k < |window| && j + k != |window| && IsTone(window, k, amp, phase, cos) ==>
      ToneOutput(out, j, k, amp, |window|)
  }

  ghost predicate PicksOddTone(out: real, window: seq<real>, j: nat, k: nat, amp: real, phase: real,
                               cos: real -> real) {
    0 < k && 2 * k < |window| && j + k != |window| && IsTone(window, k, amp, phase, cos) ==> OddOutput(out, j, k, amp)
  }

  ghost predicate PicksConstant(out: real, window: seq<real>, j: nat, c: real) {
    IsConstant(window, c) ==> ConstantOutput(out, j, c, |window|)
  }

  /** The output for bin `j` tells apart the tones and the constants that the window may hold. */
  ghost predicate Picks(out: real, window: seq<real>, j: nat, cos: real -> real) {
    && (forall k: nat, amp: real, phase: real :: PicksTone(out, window, j, k, amp, phase, cos))
    && (forall c: real :: PicksConstant(out, window, j, c))
  }

  ghost predicate PicksOdd(out: real, window: seq<real>, j: nat, cos: real -> real) {
    && (forall k: nat, amp: real, phase: real :: PicksOddTone(out, window, j, k, amp, phase, cos))
    && (forall c: real :: IsConstant(window, c) ==> out == 0.0)
  }

  lemma MagnitudePicksTone(m: real, window: seq<real>, j: nat, k: nat, amp: real, phase: real, cos: real -> real,
                           sin: real -> real)
    requires IsCircular(cos, sin) && j < |window| && IsMagnitude(m, window, E(Part(j, |window|), cos, sin))
    ensures PicksTone(m, window, j, k, amp, phase, cos)
  {
    if 0 < k && 2 * k < |window| && j + k != |window| && IsTone(window, k, amp, phase, cos) {
      ToneBinIs(window, k, amp, phase, j, cos, sin);
      if j == k {
        ToneMagnitude(m, amp, |window| as real);
      } else {
        NoMagnitude(m, |window| as real);
      }
    }
  }

  lemma MagnitudePicksConstant(m: real, window: seq<real>, j: nat, c: real, cos: real -> real, sin: real -> real)
    requires IsCircular(cos, sin) && j < |window| && IsMagnitude(m, window, E(Part(j, |window|), cos, sin))
    ensures PicksConstant(m, window, j, c)
  {
    if IsConstant(window, c) {
      ConstantBinIs(window, c, j, cos, sin);
      ConstantOutputIs(m, j, c, |window|);
    }
  }

  lemma ConstantOutputIs(m: real, j: nat, c: real, n: nat)
    requires 0 < n && m >= 0.0
    requires Square(m) * n as real == if j == 0 then Times(Square(c), Square(n as real)) else 0.0
    ensures ConstantOutput(m, j, c, n)
  {
    if j == 0 {
      ConstantMagnitude(m, c, n as real);
    } else {
      NoMagnitude(m, n as real);
    }
  }

  /** A magnitude of the right bin tells tones apart. */
  lemma MagnitudePicks(m: real, window: seq<real>, j: nat, cos: real -> real, sin: real -> real)
    requires IsCircular(cos, sin) && j < |window| && IsMagnitude(m, window, E(Part(j, |window|), cos, sin))
    ensures Picks(m, window, j, cos)
  {
    forall k: nat, amp: real, phase: real
      ensures PicksTone(m, window, j, k, amp, phase, cos)
    {
      MagnitudePicksTone(m, window, j, k, amp, phase, cos, sin);
    }
    forall c: real
      ensures PicksConstant(m, window, j, c)
    {
      MagnitudePicksConstant(m, window, j, c, cos, sin);
    }
  }

  lemma HarmonicPicksTone(m: real, window: seq<real>, j: nat, k: nat, amp: real, phase: real, cos: real -> real,
                          sin: real -> real)
    requires IsCircular(cos, sin) && j < |window| && IsHarmonic(m, window, E(Part(j, |window|), cos, sin))
    ensures PicksOddTone(m, window, j, k, amp, phase, cos)
  {
    if 0 < k && 2 * k < |window| && j + k != |window| && IsTone(window, k, amp, phase, cos) {
      ToneBinIs(window, k, amp, phase, j, cos, sin);
      if j == k {
        ToneHarmonic(m, amp, |window| as real);
      } else {
        TimesPositive(|window| as real, |window| as real);
        NoMagnitude(m, Square(|window| as real));
      }
    }
  }

  /** And so does a harmonic, of a bin other than 0. */
  lemma HarmonicPicks(m: real, window: seq<real>, j: nat, cos: real -> real, sin: real -> real)
    requires IsCircular(cos, sin) && 0 < j < |window| && IsHarmonic(m, window, E(Part(j, |window|), cos, sin))
    ensures PicksOdd(m, window, j, cos)
  {
    forall k: nat, amp: real, phase: real
      ensures PicksOddTone(m, window, j, k, amp, phase, cos)
    {
      HarmonicPicksTone(m, window, j, k, amp, phase, cos, sin);
    }
    forall c: real | IsConstant(window, c)
      ensures m == 0.0
    {
      ConstantBinIs(window, c, j, cos, sin);
      TimesPositive(|window| as real, |window| as real);
      NoMagnitude(m, Square(|window| as real));
    }
  }

  class Goertzel {
    var points: int
    var fdtm: real
    var fsample: real
    var coeff: array<real>

    constructor ()
    {
      coeff := new real[0];
    }

    /** Fails, and changes nothing, unless there is at least one point. */
    method Init(points: int, fsample: real, fdtm: real) returns (status: int)
      modifies this
      ensures points > 0 ==> status == 0 && this.points == points == coeff.Length
      ensures points > 0 ==> this.fsample == fsample && this.fdtm == fdtm
      ensures points > 0 ==> fresh(coeff)
      ensures points <= 0 ==> status == -1 && unchanged(this)
    {
      if points > 0 {
        this.points, this.fsample, this.fdtm := points, fsample, fdtm;
        coeff := new real[points];
        return 0;
      }
      return -1;
    }

    /** The unit number of coefficient `j`. */
    ghost function Unit(cos: real -> real, sin: real -> real, j: int): Complex
      requires points > 0 && fsample != 0.0
      reads this
    {
      var w := Angle(points, BinIndex(points, fsample, fdtm, j));
      Complex(cos(w), sin(w))
    }

    ghost predicate Ready(cos: real -> real, sin: real -> real)
      reads this, coeff
    {
      && points > 0 && coeff.Length == points && fsample != 0.0 && IsTrig(cos, sin)
      && forall j :: 0 <= j < points ==> coeff[j] == Coeff(Unit(cos, sin, j))
    }

    /** The window is one period of the fundamental. */
    ghost predicate Exact()
      reads this
    {
      points > 0 && fsample != 0.0 && points as real * fdtm == fsample
    }

    lemma UnitIsPart(cos: real -> real, sin: real -> real, j: int)
      requires Exact()
      ensures Unit(cos, sin, j) == E(Part(j, points), cos, sin)
    {
      BinsAreExact(points, fsample, fdtm, j);
      AngleIsPart(points, j);
    }

    method EvaluateCoefficients(cos: real -> real, ghost sin: real -> real)
      requires points > 0 && coeff.Length == points && fsample != 0.0 && IsTrig(cos, sin)
      modifies coeff
      ensures Ready(cos, sin)
      ensures Exact() ==> forall j :: 0 <= j < points ==>
                coeff[j] == 2.0 * cos(6.283185307179586476925286766558 * j as real / points as real)
    {
      for j := 0 to points
        invariant forall i :: 0 <= i < j ==> coeff[i] == Coeff(Unit(cos, sin, i))
      {
        var k := BinIndex(points, fsample, fdtm, j);
        var w := Angle(points, k);
        coeff[j] := 2.0 * cos(w);
      }
      if Exact() {
        forall j | 0 <= j < points
          ensures Unit(cos, sin, j) == E(Part(j, points), cos, sin)
        {
          UnitIsPart(cos, sin, j);
        }
      }
    }

    /** The inner loop both passes share. */
    method Resonate(input: seq<real>, c: real) returns (sPrev: real, sPrev2: real)
      requires 0 <= points <= |input|
      ensures (sPrev, sPrev2) == Resonator(input[..points], c, points)
    {
      sPrev, sPrev2 := 0.0, 0.0;
      for i := 0 to points
        invariant (sPrev, sPrev2) == Resonator(input[..points], c, i)
      {
        var s := input[i] + Times(c, sPrev) - sPrev2;
        sPrev2 := sPrev;
        sPrev := s;
      }
    }

    /** Every bin below half the window: the square of each output times the window's
        length is the power of its DFT bin. */
    method CalculateAll(input: seq<real>, output: array<real>, cos: real -> real, ghost sin: real -> real,
                        sqrt: real -> real)
      requires Ready(cos, sin) && IsSqrt(sqrt)
      requires points <= |input| && points / 2 <= output.Length && output != coeff
      modifies output
      ensures forall j :: 0 <= j < points / 2 ==> IsMagnitude(output[j], input[..points], Unit(cos, sin, j))
      ensures forall j :: points / 2 <= j < output.Length ==> output[j] == old(output[j])
      ensures Exact() && IsCircular(cos, sin) ==>
                forall j: nat :: j < points / 2 ==> Picks(output[j], input[..points], j, cos)
    {
      for j := 0 to points / 2
        invariant Ready(cos, sin)
        invariant forall i :: 0 <= i < j ==> IsMagnitude(output[i], input[..points], Unit(cos, sin, i))
        invariant forall i :: j <= i < output.Length ==> output[i] == old(output[i])
      {
        var c := coeff[j];
        var sPrev, sPrev2 := Resonate(input, c);
        var power := Square(sPrev2) + Square(sPrev) - Times(Times(c, sPrev), sPrev2);
        GoertzelIsDft(input[..points], Unit(cos, sin, j));
        MeanIsNonNegative(power, points);
        output[j] := sqrt(power / points as real);
      }
      if Exact() && IsCircular(cos, sin) {
        forall j: nat | j < points / 2
          ensures Picks(output[j], input[..points], j, cos)
        {
          UnitIsPart(cos, sin, j);
          MagnitudePicks(output[j], input[..points], j, cos, sin);
        }
      }
    }

    /** One bin, scaled as the odd pass does. */
    method OddBin(input: seq<real>, j: nat, ghost cos: real -> real, ghost sin: real -> real, sqrt: real -> real)
      returns (harmonic: real)
      requires Ready(cos, sin) && IsSqrt(sqrt) && j < points <= |input|
      ensures IsHarmonic(harmonic, input[..points], Unit(cos, sin, j))
    {
      var c := coeff[j];
      var sPrev, sPrev2 := Resonate(input, c);
      var power := Square(sPrev2) + Square(sPrev) - Times(Times(c, sPrev), sPrev2);
      GoertzelIsDft(input[..points], Unit(cos, sin, j));
      OddScaling(sqrt(power), input[..points], Unit(cos, sin, j));
      harmonic := OddScaled(sqrt(power), points as real);
    }

    /** The first `n` odd bins. */
    method CalculateOdd(input: seq<real>, output: array<real>, n: nat, cos: real -> real, ghost sin: real -> real,
                        sqrt: real -> real)
      requires Ready(cos, sin) && IsSqrt(sqrt)
      requires points <= |input| && 2 * n <= points && n <= output.Length && output != coeff
      modifies output
      ensures forall k :: 0 <= k < n ==> IsHarmonic(output[k], input[..points], Unit(cos, sin, 2 * k + 1))
      ensures forall k :: n <= k < output.Length ==> output[k] == old(output[k])
      ensures Exact() && IsCircular(cos, sin) ==>
                forall k: nat :: k < n ==> PicksOdd(output[k], input[..points], 2 * k + 1, cos)
    {
      var k, j := 0, 1;
      while k < n
        invariant 0 <= k <= n && j == 2 * k + 1
        invariant Ready(cos, sin)
        invariant forall i :: 0 <= i < k ==> IsHarmonic(output[i], input[..points], Unit(cos, sin, 2 * i + 1))
        invariant forall i :: k <= i < output.Length ==> output[i] == old(output[i])
      {
        output[k] := OddBin(input, j, cos, sin, sqrt);
        k := k + 1;
        j := j + 2;
      }
      if Exact() && IsCircular(cos, sin) {
        forall i: nat | i < n
          ensures PicksOdd(output[i], input[..points], 2 * i + 1, cos)
        {
          UnitIsPart(cos, sin, 2 * i + 1);
          HarmonicPicks(output[i], input[..points], 2 * i + 1, cos, sin);
        }
      }
    }
  }

  lemma MeanIsNonNegative(power: real, points: int)
    requires power >= 0.0 && points > 0
    ensures power / points as real >= 0.0 && (power / points as real) * points as real == power
  {
  }

  function OddScaled(root: real, points: real): real
    requires points > 0.0
  {
    (root / points) * ROOT_TWO
  }

  lemma OddScaling(root: real, window: seq<real>, z: Complex)
    requires window != [] && root >= 0.0 && Square(root) == Norm2(Bin(window, z, |window|))
    ensures IsHarmonic(OddScaled(root, |window| as real), window, z)
  {
    OddScaledSquare(root, |window| as real);
  }

  lemma OddScaledSquare(root: real, p: real)
    requires root >= 0.0 && p > 0.0
    ensures OddScaled(root, p) >= 0.0
    ensures Square(OddScaled(root, p)) * Square(p) == Square(root) * Square(ROOT_TWO)
  {
    var q := root / p;
    assert q * p == root;
    SquareOfProduct(q, ROOT_TWO);
    SquareOfProduct(q, p);
    Associative(Square(q), Square(ROOT_TWO), Square(p));
    Associative(Square(q), Square(p), Square(ROOT_TWO));
    assert Times(Square(ROOT_TWO), Square(p)) == Times(Square(p), Square(ROOT_TWO));
  }

  /** The odd pass agrees with the full pass on every bin they share. */
  lemma OddAgreesWithAll(odd: real, all: real, window: seq<real>, z: Complex)
    requires window != [] && IsHarmonic(odd, window, z) && IsMagnitude(all, window, z)
    ensures Square(odd) * |window| as real == Square(all) * Square(ROOT_TWO)
  {
    var p, a, b, r := |window| as real, Square(odd), Square(all), Square(ROOT_TWO);
    CancelLength(a, b, p, r);
  }

  lemma CancelLength(a: real, b: real, p: real, r: real)
    requires p > 0.0 && a * Square(p) == (b * p) * r
    ensures a * p == b * r
  {
    assert p * (a * p - b * r) == a * Square(p) - (b * p) * r == 0.0;
    ZeroFactor(p, a * p - b * r);
  }
}
