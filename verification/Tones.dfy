/** What a DFT bin makes of tones: the orthogonality of the waves that go round a whole number
    of times in a window. */
module Tones {
  import opened Reals
  import opened Complexes

  /** The DFT bin of the first `n` samples at the unit number `z`: `Sum x[i] * conj(z)^i`. */
  function Bin(x: seq<real>, z: Complex, n: nat): Complex
    requires n <= |x|
  {
    if n == 0 then ZERO else Plus(Bin(x, z, n - 1), Mul(Real(x[n - 1]), Pow(Conjugate(z), n - 1)))
  }

  // ---------------------------------------------------------------- going round the circle

  // A whole turn: twice pi, to the digits that the source gives.
  const TURN := 6.283185307179586476925286766558

  function E(w: real, cos: real -> real, sin: real -> real): Complex {
    Complex(cos(w), sin(w))
  }

  ghost predicate AddsAt(cos: real -> real, sin: real -> real, a: real, b: real) {
    E(a + b, cos, sin) == Mul(E(a, cos, sin), E(b, cos, sin))
  }

  function Turns(m: int): real {
    TURN * m as real
  }

  ghost predicate IsWholeTurns(w: real) {
    exists m: int :: w == Turns(m)
  }

  /** The addition theorems, the unit circle, and that it is closed by whole turns only. */
  ghost predicate IsCircular(cos: real -> real, sin: real -> real) {
    && (forall w: real :: Norm2(E(w, cos, sin)) == 1.0)
    && (forall a: real, b: real :: AddsAt(cos, sin, a, b))
    && (forall w: real :: cos(w) == 1.0 <==> IsWholeTurns(w))
  }

  lemma OneIfReal(z: Complex)
    requires Norm2(z) == 1.0 && z.re == 1.0
    ensures z == ONE
  {
    assert Square(1.0) == 1.0;
    if z.im != 0.0 {
      SquareSign(z.im);
    }
  }

  /** The number is one after whole turns, and after nothing else. */
  lemma OneAfterTurns(w: real, cos: real -> real, sin: real -> real)
    requires IsCircular(cos, sin)
    ensures E(w, cos, sin) == ONE <==> IsWholeTurns(w)
  {
    if IsWholeTurns(w) {
      OneIfReal(E(w, cos, sin));
    }
  }

  lemma AtZero(cos: real -> real, sin: real -> real)
    requires IsCircular(cos, sin)
    ensures E(0.0, cos, sin) == ONE
  {
    assert Turns(0) == 0.0;
    OneAfterTurns(0.0, cos, sin);
  }

  /** Going back is conjugation. */
  lemma Backwards(w: real, cos: real -> real, sin: real -> real)
    requires IsCircular(cos, sin)
    ensures E(-w, cos, sin) == Conjugate(E(w, cos, sin))
  {
    var z, b := E(w, cos, sin), E(-w, cos, sin);
    assert AddsAt(cos, sin, w, -w);
    AtZero(cos, sin);
    ConjugateInverts(z);
    MulCommutative(z, Conjugate(z));
    MulAssociative(Conjugate(z), z, b);
    MulOne(b);
    MulOne(Conjugate(z));
  }

  function Multiple(n: nat, w: real): real {
    n as real * w
  }

  lemma MultipleStep(n: nat, w: real)
    ensures w + Multiple(n, w) == Multiple(n + 1, w) && Multiple(0, w) == 0.0
  {
  }

  lemma {:induction false} Steps(w: real, n: nat, cos: real -> real, sin: real -> real)
    requires IsCircular(cos, sin)
    ensures Pow(E(w, cos, sin), n) == E(Multiple(n, w), cos, sin)
  {
    if n == 0 {
      MultipleStep(0, w);
      AtZero(cos, sin);
    } else {
      Steps(w, n - 1, cos, sin);
      assert AddsAt(cos, sin, w, Multiple(n - 1, w));
      MultipleStep(n - 1, w);
    }
  }

  /** How far `m` of `n` parts of a turn go. */
  function Part(m: int, n: nat): real
    requires 0 < n
  {
    TURN * m as real / n as real
  }

  lemma PartTimes(m: int, n: nat)
    requires 0 < n
    ensures Multiple(n, Part(m, n)) == Turns(m)
  {
  }

  /** All the parts together make whole turns. */
  lemma PartsClose(m: int, n: nat, cos: real -> real, sin: real -> real)
    requires 0 < n && IsCircular(cos, sin)
    ensures Pow(E(Part(m, n), cos, sin), n) == ONE
  {
    Steps(Part(m, n), n, cos, sin);
    PartTimes(m, n);
    OneAfterTurns(Turns(m), cos, sin);
  }

  ghost predicate IsMultiple(m: int, n: nat) {
    exists q: int :: IsTimes(m, q, n)
  }

  predicate IsTimes(m: int, q: int, n: nat) {
    m == q * n
  }

  /** A part of a turn is a whole number of turns only when its parts are. */
  lemma PartIsOne(m: int, n: nat, cos: real -> real, sin: real -> real)
    requires 0 < n && IsCircular(cos, sin) && E(Part(m, n), cos, sin) == ONE
    ensures IsMultiple(m, n)
  {
    OneAfterTurns(Part(m, n), cos, sin);
    PartIsTurns(m, n);
  }

  lemma PartIsTurns(m: int, n: nat)
    requires 0 < n && IsWholeTurns(Part(m, n))
    ensures IsMultiple(m, n)
  {
    var q: int :| Part(m, n) == Turns(q);
    PartTimes(m, n);
    CancelTurn(m, q, n);
  }

  lemma CancelTurn(m: int, q: int, n: nat)
    requires Multiple(n, Turns(q)) == Turns(m)
    ensures IsTimes(m, q, n)
  {
    TurnsOfProduct(q, n);
    assert TURN * ((q * n) as real - m as real) == 0.0;
  }

  lemma TurnsOfProduct(q: int, n: nat)
    ensures Multiple(n, Turns(q)) == TURN * (q * n) as real
  {
    ProductAsReal(q, n);
    var x, y := q as real, n as real;
    assert y * (TURN * x) == TURN * (x * y);
  }

  lemma ProductAsReal(q: int, n: nat)
    ensures (q * n) as real == q as real * n as real
  {
  }

  lemma PartOfSum(a: int, b: int, n: nat)
    requires 0 < n
    ensures Part(a, n) + Part(b, n) == Part(a + b, n) && Part(-a, n) == -Part(a, n)
  {
    var x, y, d := TURN * a as real, TURN * b as real, n as real;
    assert x / d + y / d == (x + y) / d;
    assert TURN * (a + b) as real == x + y && TURN * (-a) as real == -x;
    assert -x / d == -(x / d);
  }

  lemma PartsAdd(a: int, b: int, n: nat, cos: real -> real, sin: real -> real)
    requires 0 < n && IsCircular(cos, sin)
    ensures Mul(E(Part(a, n), cos, sin), E(Part(b, n), cos, sin)) == E(Part(a + b, n), cos, sin)
    ensures Conjugate(E(Part(a, n), cos, sin)) == E(Part(-a, n), cos, sin)
  {
    PartOfSum(a, b, n);
    assert AddsAt(cos, sin, Part(a, n), Part(b, n));
    Backwards(Part(a, n), cos, sin);
  }

  // ---------------------------------------------------------------- geometric sums

  function Geometric(r: Complex, n: nat): Complex {
    if n == 0 then ZERO else Plus(Geometric(r, n - 1), Pow(r, n - 1))
  }

  lemma {:induction false} GeometricStep(r: Complex, n: nat)
    ensures Plus(Mul(r, Geometric(r, n)), ONE) == Plus(Geometric(r, n), Pow(r, n))
  {
    if n == 0 {
      assert Mul(r, ZERO) == ZERO by {
        MulByZero(r);
      }
    } else {
      GeometricStep(r, n - 1);
      MulDistributes(r, Geometric(r, n - 1), Pow(r, n - 1));
    }
  }

  lemma MulByZero(z: Complex)
    ensures Mul(z, ZERO) == ZERO && Mul(ZERO, z) == ZERO
  {
  }

  lemma NoDivisors(d: Complex, g: Complex)
    requires Norm2(Mul(d, g)) == 0.0 && d != ZERO
    ensures g == ZERO
  {
    Norm2OfProduct(d, g);
    NormIsPositive(d);
    ZeroFactor(Norm2(d), Norm2(g));
    if g != ZERO {
      NormIsPositive(g);
    }
  }

  lemma NormIsPositive(z: Complex)
    requires z != ZERO
    ensures Norm2(z) > 0.0
  {
    SquareSign(z.re);
    SquareSign(z.im);
  }

  ghost predicate Keeps(u: Complex, p: Complex) {
    Mul(u, p) == p
  }

  function LessOne(r: Complex): Complex {
    Complex(r.re - 1.0, r.im)
  }

  lemma LessOneTimes(r: Complex, g: Complex)
    ensures Mul(LessOne(r), g) == Complex(Mul(r, g).re - g.re, Mul(r, g).im - g.im)
  {
    assert Times(r.re - 1.0, g.re) == Times(r.re, g.re) - g.re;
    assert Times(r.re - 1.0, g.im) == Times(r.re, g.im) - g.im;
  }

  /** What a number other than one leaves alone is zero. */
  lemma FixedIsZero(r: Complex, g: Complex)
    requires Keeps(r, g) && r != ONE
    ensures g == ZERO
  {
    KeptNorm(r, g);
    NoDivisors(LessOne(r), g);
  }

  lemma KeptNorm(r: Complex, g: Complex)
    requires Keeps(r, g)
    ensures Norm2(Mul(LessOne(r), g)) == 0.0
  {
    LessOneTimes(r, g);
    NormOfZero(Mul(LessOne(r), g));
  }

  lemma NormOfZero(z: Complex)
    requires z.re == 0.0 && z.im == 0.0
    ensures Norm2(z) == 0.0
  {
  }

  /** The powers of a root of one other than one itself add up to nothing. */
  lemma RootsCancel(r: Complex, n: nat)
    requires Pow(r, n) == ONE && r != ONE
    ensures Geometric(r, n) == ZERO
  {
    GeometricStep(r, n);
    FixedIsZero(r, Geometric(r, n));
  }

  /** A number added up `n` times. */
  function Repeated(z: Complex, n: nat): Complex {
    if n == 0 then ZERO else Plus(Repeated(z, n - 1), z)
  }

  ghost predicate PowerIs(u: Complex, k: nat, p: Complex) {
    Pow(u, k) == p
  }

  lemma {:induction false} SameIsRepeated(u: Complex, p: Complex, n: nat)
    requires forall k: nat :: k < n ==> PowerIs(u, k, p)
    ensures Geometric(u, n) == Repeated(p, n)
  {
    if n > 0 {
      SameIsRepeated(u, p, n - 1);
      assert PowerIs(u, n - 1, p);
    }
  }

  lemma {:induction false} RepeatedIs(z: Complex, n: nat)
    ensures Repeated(z, n) == Complex(Multiple(n, z.re), Multiple(n, z.im))
  {
    if n == 0 {
      MultipleStep(0, z.re);
      MultipleStep(0, z.im);
    } else {
      RepeatedIs(z, n - 1);
      MultipleStep(n - 1, z.re);
      MultipleStep(n - 1, z.im);
    }
  }

  /** Powers that are all the same add up to their number. */
  lemma SameAddUp(u: Complex, p: Complex, n: nat)
    requires forall k: nat :: k < n ==> PowerIs(u, k, p)
    ensures Geometric(u, n) == Complex(Multiple(n, p.re), Multiple(n, p.im))
  {
    SameIsRepeated(u, p, n);
    RepeatedIs(p, n);
  }

  lemma NoSteps(n: nat)
    ensures Multiple(n, 0.0) == 0.0
  {
  }

  /** Standing still, the powers add up to their number. */
  lemma StillAddsUp(n: nat, cos: real -> real, sin: real -> real)
    requires IsCircular(cos, sin)
    ensures var u := E(0.0, cos, sin); Geometric(u, n) == Complex(Multiple(n, u.re), Multiple(n, u.im))
  {
    var u := E(0.0, cos, sin);
    forall k: nat | k < n
      ensures PowerIs(u, k, u)
    {
      Steps(0.0, k, cos, sin);
      NoSteps(k);
    }
    SameAddUp(u, u, n);
  }

  lemma {:induction false} PowerOfProduct(a: Complex, b: Complex, n: nat)
    ensures Pow(Mul(a, b), n) == Mul(Pow(a, n), Pow(b, n))
  {
    if n == 0 {
      MulOne(ONE);
    } else {
      PowerOfProduct(a, b, n - 1);
      Interchange(a, b, Pow(a, n - 1), Pow(b, n - 1));
    }
  }

  lemma Interchange(a: Complex, b: Complex, c: Complex, d: Complex)
    ensures Mul(Mul(a, b), Mul(c, d)) == Mul(Mul(a, c), Mul(b, d))
  {
    MulAssociative(a, b, Mul(c, d));
    MulAssociative(b, c, d);
    MulCommutative(b, c);
    MulAssociative(c, b, d);
    MulAssociative(a, c, Mul(b, d));
  }

  lemma ConjugateOfProduct(a: Complex, b: Complex)
    ensures Conjugate(Mul(a, b)) == Mul(Conjugate(a), Conjugate(b))
  {
    assert Times(-a.im, -b.im) == Times(a.im, b.im);
    assert Times(a.re, -b.im) == -Times(a.re, b.im) && Times(-a.im, b.re) == -Times(a.im, b.re);
  }

  lemma {:induction false} ConjugateOfPower(z: Complex, n: nat)
    ensures Conjugate(Pow(z, n)) == Pow(Conjugate(z), n)
  {
    if n > 0 {
      ConjugateOfPower(z, n - 1);
      ConjugateOfProduct(z, Pow(z, n - 1));
    }
  }

  // ---------------------------------------------------------------- tones in a window

  /** A cosine that goes round `k` times in the window. */
  ghost predicate IsTone(x: seq<real>, k: nat, amp: real, phase: real, cos: real -> real) {
    forall i: nat :: i < |x| ==> ToneAt(x, i, k, amp, phase, cos)
  }

  ghost predicate ToneAt(x: seq<real>, i: nat, k: nat, amp: real, phase: real, cos: real -> real)
    requires i < |x|
  {
    x[i] == amp * cos(TURN * k as real * i as real / |x| as real + phase)
  }

  lemma AngleOfStep(k: nat, i: nat, n: nat)
    requires 0 < n
    ensures TURN * k as real * i as real / n as real == Multiple(i, Part(k, n))
  {
    var w := TURN * k as real;
    assert w * i as real / n as real == i as real * (w / n as real);
  }

  lemma WaveAt(k: nat, i: nat, n: nat, phase: real, cos: real -> real, sin: real -> real)
    requires 0 < n && IsCircular(cos, sin)
    ensures E(TURN * k as real * i as real / n as real + phase, cos, sin)
         == Mul(Pow(E(Part(k, n), cos, sin), i), E(phase, cos, sin))
  {
    AngleOfStep(k, i, n);
    Steps(Part(k, n), i, cos, sin);
    assert AddsAt(cos, sin, Multiple(i, Part(k, n)), phase);
  }

  /** A real part is half of a number and its conjugate together. */
  lemma RealHalves(amp: real, w: Complex)
    ensures Real(Times(amp, w.re)) == Mul(Real(amp / 2.0), Plus(w, Conjugate(w)))
  {
    assert Times(amp / 2.0, w.re + w.re) == Times(amp, w.re);
    assert Times(0.0, w.im + -w.im) == 0.0 && Times(0.0, w.re + w.re) == 0.0;
  }

  lemma SumTimes(a: Complex, b: Complex, p: Complex)
    ensures Mul(Plus(a, b), p) == Plus(Mul(a, p), Mul(b, p))
  {
    MulCommutative(Plus(a, b), p);
    MulDistributes(p, a, b);
    MulCommutative(p, a);
    MulCommutative(p, b);
  }

  lemma TurnedPower(z: Complex, f: Complex, v: Complex, i: nat)
    ensures Mul(Mul(Pow(z, i), f), Pow(v, i)) == Mul(f, Pow(Mul(z, v), i))
  {
    MulCommutative(Pow(z, i), f);
    MulAssociative(f, Pow(z, i), Pow(v, i));
    PowerOfProduct(z, v, i);
  }

  /** The two waves that a tone is made of, turned by `v`, after `n` samples. */
  function Pair(f: Complex, g: Complex, h: Complex): Complex {
    Plus(Mul(f, g), Mul(Conjugate(f), h))
  }

  lemma PairsAdd(f: Complex, g: Complex, h: Complex, p: Complex, q: Complex)
    ensures Plus(Pair(f, g, h), Pair(f, p, q)) == Pair(f, Plus(g, p), Plus(h, q))
  {
    MulDistributes(f, g, p);
    MulDistributes(Conjugate(f), h, q);
  }

  lemma TermOfTone(amp: real, z: Complex, f: Complex, v: Complex, i: nat)
    ensures Mul(Real(Times(amp, Mul(Pow(z, i), f).re)), Pow(v, i))
         == Mul(Real(amp / 2.0), Pair(f, Pow(Mul(z, v), i), Pow(Mul(Conjugate(z), v), i)))
  {
    var w, p := Mul(Pow(z, i), f), Pow(v, i);
    RealHalves(amp, w);
    MulAssociative(Real(amp / 2.0), Plus(w, Conjugate(w)), p);
    SumTimes(w, Conjugate(w), p);
    TurnedPower(z, f, v, i);
    ConjugateOfProduct(Pow(z, i), f);
    ConjugateOfPower(z, i);
    assert Conjugate(w) == Mul(Pow(Conjugate(z), i), Conjugate(f));
    TurnedPower(Conjugate(z), Conjugate(f), v, i);
    assert Mul(w, p) == Mul(f, Pow(Mul(z, v), i));
    assert Mul(Conjugate(w), p) == Mul(Conjugate(f), Pow(Mul(Conjugate(z), v), i));
  }

  /** A bin of a tone is two geometric sums. */
  lemma {:induction false} BinOfTone(x: seq<real>, k: nat, amp: real, phase: real, u: Complex, n: nat,
                                     cos: real -> real, sin: real -> real)
    requires IsCircular(cos, sin) && n <= |x| && 0 < |x| && IsTone(x, k, amp, phase, cos)
    ensures var z, f, v := E(Part(k, |x|), cos, sin), E(phase, cos, sin), Conjugate(u);
            Bin(x, u, n) == Mul(Real(amp / 2.0), Pair(f, Geometric(Mul(z, v), n), Geometric(Mul(Conjugate(z), v), n)))
  {
    var z, f, v := E(Part(k, |x|), cos, sin), E(phase, cos, sin), Conjugate(u);
    var r, q, h := Mul(z, v), Mul(Conjugate(z), v), Real(amp / 2.0);
    if n == 0 {
      MulByZero(f);
      MulByZero(Conjugate(f));
      MulByZero(h);
    } else {
      BinOfTone(x, k, amp, phase, u, n - 1, cos, sin);
      SampleOfTone(x, k, amp, phase, n - 1, cos, sin);
      TermOfTone(amp, z, f, v, n - 1);
      PairStep(h, f, Geometric(r, n - 1), Geometric(q, n - 1), Pow(r, n - 1), Pow(q, n - 1));
    }
  }

  lemma SampleOfTone(x: seq<real>, k: nat, amp: real, phase: real, i: nat, cos: real -> real, sin: real -> real)
    requires IsCircular(cos, sin) && i < |x| && IsTone(x, k, amp, phase, cos)
    ensures x[i] == Times(amp, Mul(Pow(E(Part(k, |x|), cos, sin), i), E(phase, cos, sin)).re)
  {
    assert ToneAt(x, i, k, amp, phase, cos);
    WaveAt(k, i, |x|, phase, cos, sin);
  }

  lemma PairStep(c: Complex, f: Complex, g: Complex, h: Complex, p: Complex, q: Complex)
    ensures Plus(Mul(c, Pair(f, g, h)), Mul(c, Pair(f, p, q))) == Mul(c, Pair(f, Plus(g, p), Plus(h, q)))
  {
    MulDistributes(c, Pair(f, g, h), Pair(f, p, q));
    PairsAdd(f, g, h, p, q);
  }

  lemma NotMultiple(m: int, n: nat)
    requires 0 < n && m != 0 && m != n && m != 0 - n && -2 * n < m < 2 * n
    ensures !IsMultiple(m, n)
  {
    forall q: int
      ensures !IsTimes(m, q, n)
    {
      if q >= 2 {
        assert (q - 2) * n >= 0;
      } else if q <= -2 {
        assert (-2 - q) * n >= 0;
      }
    }
  }

  /** The sum over a wave that goes round `m` times, other than nothing or whole windows. */
  lemma WaveCancels(m: int, n: nat, cos: real -> real, sin: real -> real)
    requires 0 < n && IsCircular(cos, sin) && m != 0 && m != n && m != 0 - n && -2 * n < m < 2 * n
    ensures Geometric(E(Part(m, n), cos, sin), n) == ZERO
  {
    PartsClose(m, n, cos, sin);
    NotMultiple(m, n);
    if E(Part(m, n), cos, sin) == ONE {
      PartIsOne(m, n, cos, sin);
    }
    RootsCancel(E(Part(m, n), cos, sin), n);
  }

  lemma NoPart(n: nat)
    requires 0 < n
    ensures Part(0, n) == 0.0
  {
  }

  /** Standing still, the sum is the length of the window. */
  lemma StillSum(n: nat, cos: real -> real, sin: real -> real)
    requires 0 < n && IsCircular(cos, sin)
    ensures Norm2(Geometric(E(Part(0, n), cos, sin), n)) == Square(n as real)
  {
    var u := E(0.0, cos, sin);
    NoPart(n);
    StillAddsUp(n, cos, sin);
    AtZero(cos, sin);
    CountNorm(n, u);
  }

  lemma CountNorm(n: nat, u: Complex)
    requires u.re == 1.0 && u.im == 0.0
    ensures Norm2(Complex(Multiple(n, u.re), Multiple(n, u.im))) == Square(n as real)
  {
    assert Multiple(n, u.re) == n as real && Multiple(n, u.im) == 0.0;
    assert Square(0.0) == 0.0;
  }

  lemma PartBack(m: int, n: nat, cos: real -> real, sin: real -> real)
    requires 0 < n && IsCircular(cos, sin)
    ensures Conjugate(E(Part(m, n), cos, sin)) == E(Part(0 - m, n), cos, sin)
  {
    PartsAdd(m, 0, n, cos, sin);
  }

  lemma PartJoin(a: int, b: int, n: nat, cos: real -> real, sin: real -> real)
    requires 0 < n && IsCircular(cos, sin)
    ensures Mul(E(Part(a, n), cos, sin), E(Part(b, n), cos, sin)) == E(Part(a + b, n), cos, sin)
  {
    PartsAdd(a, b, n, cos, sin);
  }

  /** The ratios of the two sums, as waves. */
  lemma WavesOf(k: nat, j: nat, n: nat, cos: real -> real, sin: real -> real)
    requires 0 < n && IsCircular(cos, sin)
    ensures var z, v := E(Part(k, n), cos, sin), Conjugate(E(Part(j, n), cos, sin));
            && Mul(z, v) == E(Part(k - j, n), cos, sin)
            && Mul(Conjugate(z), v) == E(Part(0 - k - j, n), cos, sin)
  {
    PartBack(j, n, cos, sin);
    PartBack(k, n, cos, sin);
    PartJoin(k, 0 - j, n, cos, sin);
    PartJoin(0 - k, 0 - j, n, cos, sin);
  }

  lemma TimesNothing(c: Complex, zero: Complex)
    requires zero == ZERO
    ensures Mul(c, zero) == zero && Plus(zero, zero) == zero && Norm2(zero) == 0.0
  {
  }

  lemma PlusNothing(g: Complex, zero: Complex)
    requires zero == ZERO
    ensures Plus(g, zero) == g
  {
  }

  lemma NothingLeft(c: Complex, f: Complex, zero: Complex)
    requires zero == ZERO
    ensures Norm2(Mul(c, Pair(f, zero, zero))) == 0.0
  {
    TimesNothing(f, zero);
    TimesNothing(Conjugate(f), zero);
    TimesNothing(c, zero);
  }

  lemma FirstLeft(f: Complex, g: Complex, zero: Complex)
    requires zero == ZERO
    ensures Pair(f, g, zero) == Mul(f, g)
  {
    TimesNothing(Conjugate(f), zero);
    PlusNothing(Mul(f, g), zero);
  }

  lemma NormOfThree(c: Complex, f: Complex, g: Complex)
    requires Norm2(f) == 1.0
    ensures Norm2(Mul(c, Mul(f, g))) == Times(Norm2(c), Norm2(g))
  {
    Norm2OfProduct(c, Mul(f, g));
    Norm2OfProduct(f, g);
    assert Times(1.0, Norm2(g)) == Norm2(g);
  }

  lemma NormOfReal(x: real)
    ensures Norm2(Real(x)) == Square(x)
  {
    assert Square(0.0) == 0.0;
  }

  /** The power of bin `j` of a tone that goes round `k` times: none, unless `j` is `k`, or what
      cannot be told from it. */
  lemma ToneBinIs(x: seq<real>, k: nat, amp: real, phase: real, j: nat, cos: real -> real, sin: real -> real)
    requires IsCircular(cos, sin) && 0 < k && 2 * k < |x| && IsTone(x, k, amp, phase, cos)
    requires j < |x| && j + k != |x|
    ensures Norm2(Bin(x, E(Part(j, |x|), cos, sin), |x|))
         == if j == k then Times(Square(amp / 2.0), Square(|x| as real)) else 0.0
  {
    var n, f, h := |x|, E(phase, cos, sin), Real(amp / 2.0);
    BinOfTone(x, k, amp, phase, E(Part(j, n), cos, sin), n, cos, sin);
    WavesOf(k, j, n, cos, sin);
    WaveCancels(0 - k - j, n, cos, sin);
    var second := Geometric(E(Part(0 - k - j, n), cos, sin), n);
    if j == k {
      var g := Geometric(E(Part(0, n), cos, sin), n);
      StillSum(n, cos, sin);
      FirstLeft(f, g, second);
      NormOfThree(h, f, g);
      NormOfReal(amp / 2.0);
    } else {
      WaveCancels(k - j, n, cos, sin);
      NothingLeft(h, f, second);
    }
  }

  ghost predicate IsConstant(x: seq<real>, c: real) {
    forall i: nat :: i < |x| ==> x[i] == c
  }

  lemma {:induction false} BinOfConstant(x: seq<real>, c: real, u: Complex, n: nat)
    requires n <= |x| && IsConstant(x, c)
    ensures Bin(x, u, n) == Mul(Real(c), Geometric(Conjugate(u), n))
  {
    if n == 0 {
      MulByZero(Real(c));
    } else {
      BinOfConstant(x, c, u, n - 1);
      MulDistributes(Real(c), Geometric(Conjugate(u), n - 1), Pow(Conjugate(u), n - 1));
    }
  }

  /** A constant is in bin 0 only. */
  lemma ConstantBinIs(x: seq<real>, c: real, j: nat, cos: real -> real, sin: real -> real)
    requires IsCircular(cos, sin) && j < |x| && IsConstant(x, c)
    ensures Norm2(Bin(x, E(Part(j, |x|), cos, sin), |x|))
         == if j == 0 then Times(Square(c), Square(|x| as real)) else 0.0
  {
    var n, u := |x|, E(Part(j, |x|), cos, sin);
    BinOfConstant(x, c, u, n);
    PartBack(j, n, cos, sin);
    if j == 0 {
      StillSum(n, cos, sin);
      Norm2OfProduct(Real(c), Geometric(Conjugate(u), n));
      NormOfReal(c);
    } else {
      WaveCancels(0 - j, n, cos, sin);
      TimesNothing(Real(c), Geometric(Conjugate(u), n));
    }
  }
}
