/** The algebra of the current decomposition: what the mean squares of the parts have to
    do with the mean square of the current, floors included. */
module Decomposition {
  import opened Reals
  import opened CPTState

  /** The means over the last window of one phase: voltage squared, current squared,
      voltage times current, unbiased integral squared, unbiased integral times current. */
  datatype Norms = Norms(vv: real, ii: real, vi: real, uu: real, ui: real)

  ghost predicate Consistent(m: Norms) {
    && m.vv >= 0.0 && m.ii >= 0.0 && m.uu >= 0.0
    && (m.vv == 0.0 ==> m.vi == 0.0)
    && (m.uu == 0.0 ==> m.ui == 0.0)
    && (m.ii == 0.0 ==> m.vi == 0.0 && m.ui == 0.0)
  }

  /** What a thresholded filter reports for a mean. */
  function Thr(m: real): (r: real)
    ensures r > 0.0 && (m >= 0.0 ==> r >= m && r <= m + THR_MIN && (r == m <==> m > 0.0))
  {
    if m <= 0.0 then THR_MIN else m
  }

  function Alpha(m: Norms): real {
    AtLeastFloor(m.vi) / Thr(m.vv)
  }

  function Beta(m: Norms): real {
    m.ui / Thr(m.uu)
  }

  /** The mean square of the void current. */
  function Void(m: Norms): real {
    m.ii - 2.0 * Times(Alpha(m), m.vi) - 2.0 * Times(Beta(m), m.ui)
    + Times(Square(Alpha(m)), m.vv) + Times(Square(Beta(m)), m.uu)
  }

  /** Voltage-parallel mean power actually delivered by the active current. */
  function Delivered(m: Norms): real {
    Times(Alpha(m), m.vv)
  }

  lemma Projections(m: Norms)
    requires Consistent(m)
    ensures Delivered(m) == if m.vv > 0.0 then AtLeastFloor(m.vi) else 0.0
    ensures Times(Beta(m), m.uu) == m.ui
    ensures Alpha(m) > 0.0
  {
    DivideBack(AtLeastFloor(m.vi), Thr(m.vv));
    DivideBack(m.ui, Thr(m.uu));
    if m.uu == 0.0 {
      assert Beta(m) == 0.0;
    }
  }

  lemma DivideBack(x: real, y: real)
    requires y > 0.0
    ensures Times(x / y, y) == x
    ensures x > 0.0 ==> x / y > 0.0
  {
  }

  /** By how much the floored active current overshoots the true one, in mean square. */
  function Excess(m: Norms): real {
    2.0 * Times(Alpha(m), Delivered(m) - m.vi)
  }

  lemma SquareTimes(a: real, x: real)
    ensures Times(Square(a), x) == Times(a, Times(a, x))
  {
  }

  /** Pythagoras in one phase: the mean squares of the three parts exceed that of the
      current exactly by the overshoot of a floored mean power. */
  lemma PhasePythagoras(m: Norms)
    requires Consistent(m)
    ensures m.ii + Excess(m) == Times(Square(Alpha(m)), m.vv) + Times(Square(Beta(m)), m.uu) + Void(m)
    ensures Excess(m) >= 0.0
    ensures m.vv > 0.0 ==> (Excess(m) == 0.0 <==> m.vi >= FLOOR)
    ensures m.vv == 0.0 ==> Excess(m) == 0.0
  {
    var a, b := Alpha(m), Beta(m);
    Projections(m);
    SquareTimes(a, m.vv);
    SquareTimes(b, m.uu);
    assert Times(a, Delivered(m) - m.vi) == Times(a, Delivered(m)) - Times(a, m.vi);
    if Delivered(m) - m.vi > 0.0 {
      TimesPositive(a, Delivered(m) - m.vi);
    } else {
      assert Times(a, 0.0) == 0.0;
    }
  }

  /** Splitting coefficients `a0, a1, a2` around a common one `a`. */
  lemma Regroup(a: real, a0: real, a1: real, a2: real, x: real, y: real, z: real)
    ensures Times(Square(a), x + y + z)
          + Times(Square(a0 - a), x) + Times(Square(a1 - a), y) + Times(Square(a2 - a), z)
         == Times(Square(a0), x) + Times(Square(a1), y) + Times(Square(a2), z)
          + 2.0 * Times(a, Times(a, x + y + z) - Times(a0, x) - Times(a1, y) - Times(a2, z))
  {
    RegroupOne(a, a0, x);
    RegroupOne(a, a1, y);
    RegroupOne(a, a2, z);
    assert Times(Square(a), x + y + z) == Times(Square(a), x) + Times(Square(a), y) + Times(Square(a), z);
    assert Times(a, Times(a, x + y + z) - Times(a0, x) - Times(a1, y) - Times(a2, z))
        == Times(a, Times(a, x) - Times(a0, x)) + Times(a, Times(a, y) - Times(a1, y))
         + Times(a, Times(a, z) - Times(a2, z));
  }

  lemma RegroupOne(a: real, b: real, x: real)
    ensures Times(Square(a), x) + Times(Square(b - a), x) ==
        Times(Square(b), x) + 2.0 * Times(a, Times(a, x) - Times(b, x))
  {
  }

  /** The three phases together. */
  datatype Three = Three(x: Norms, y: Norms, z: Norms) {
    function VV(): real { x.vv + y.vv + z.vv }
    function II(): real { x.ii + y.ii + z.ii }
    function UU(): real { x.uu + y.uu + z.uu }
    function P(): real { AtLeastFloor(x.vi) + AtLeastFloor(y.vi) + AtLeastFloor(z.vi) }
    function W(): real { x.ui + y.ui + z.ui }
    function A(): real { P() / Thr(VV()) }
    function B(): real { W() / Thr(UU()) }
    function Iba(): real { Times(Square(A()), VV()) }
    function Ibr(): real { Times(Square(B()), UU()) }
    function Iua(): real {
      Times(Square(Alpha(x) - A()), x.vv) + Times(Square(Alpha(y) - A()), y.vv) + Times(Square(Alpha(z) - A()), z.vv)
    }
    function Iur(): real {
      Times(Square(Beta(x) - B()), x.uu) + Times(Square(Beta(y) - B()), y.uu) + Times(Square(Beta(z) - B()), z.uu)
    }
    function Iv(): real { Void(x) + Void(y) + Void(z) }

    ghost predicate Ok() {
      Consistent(x) && Consistent(y) && Consistent(z)
    }

    /** No mean power sits below its floor. */
    predicate PowersUnfloored() {
      x.vi >= FLOOR && y.vi >= FLOOR && z.vi >= FLOOR
    }

    function Slack(): real {
      2.0 * Times(A(), Times(A(), VV()) - Delivered(x) - Delivered(y) - Delivered(z))
    }
  }

  lemma Balanced(t: Three)
    requires t.Ok()
    ensures Times(t.B(), t.UU()) == t.W()
    ensures t.VV() > 0.0 ==> Times(t.A(), t.VV()) == t.P()
    ensures t.A() > 0.0
  {
    DivideBack(t.P(), Thr(t.VV()));
    DivideBack(t.W(), Thr(t.UU()));
    if t.UU() == 0.0 {
      assert t.x.uu == 0.0 && t.y.uu == 0.0 && t.z.uu == 0.0;
      assert t.B() == 0.0;
    }
  }

  lemma SlackSign(t: Three)
    requires t.Ok()
    ensures t.Slack() >= 0.0
    ensures t.VV() == 0.0 ==> t.Slack() == 0.0
    ensures t.VV() > 0.0 ==> (t.Slack() == 0.0 <==> t.x.vv > 0.0 && t.y.vv > 0.0 && t.z.vv > 0.0)
  {
    Balanced(t);
    Projections(t.x);
    Projections(t.y);
    Projections(t.z);
    var rest := Times(t.A(), t.VV()) - Delivered(t.x) - Delivered(t.y) - Delivered(t.z);
    if t.VV() == 0.0 {
      assert Times(t.A(), 0.0) == 0.0;
    }
    if rest > 0.0 {
      TimesPositive(t.A(), rest);
    } else {
      assert rest == 0.0;
      assert Times(t.A(), 0.0) == 0.0;
    }
  }

  /** Pythagoras over all phases. */
  lemma TotalPythagoras(t: Three)
    requires t.Ok()
    ensures t.II() + Excess(t.x) + Excess(t.y) + Excess(t.z) + t.Slack()
         == t.Iba() + t.Iua() + t.Ibr() + t.Iur() + t.Iv()
  {
    PhasePythagoras(t.x);
    PhasePythagoras(t.y);
    PhasePythagoras(t.z);
    Balanced(t);
    Projections(t.x);
    Projections(t.y);
    Projections(t.z);
    Regroup(t.A(), Alpha(t.x), Alpha(t.y), Alpha(t.z), t.x.vv, t.y.vv, t.z.vv);
    Regroup(t.B(), Beta(t.x), Beta(t.y), Beta(t.z), t.x.uu, t.y.uu, t.z.uu);
    assert Times(t.B(), 0.0) == 0.0;
  }

  lemma PartsNonNegative(t: Three)
    requires t.Ok()
    ensures t.Iba() >= 0.0 && t.Iua() >= 0.0 && t.Ibr() >= 0.0 && t.Iur() >= 0.0
  {
    WeightedSquare(t.A(), t.VV());
    WeightedSquare(t.B(), t.UU());
    WeightedSquare(Alpha(t.x) - t.A(), t.x.vv);
    WeightedSquare(Alpha(t.y) - t.A(), t.y.vv);
    WeightedSquare(Alpha(t.z) - t.A(), t.z.vv);
    WeightedSquare(Beta(t.x) - t.B(), t.x.uu);
    WeightedSquare(Beta(t.y) - t.B(), t.y.uu);
    WeightedSquare(Beta(t.z) - t.B(), t.z.uu);
  }

  lemma WeightedSquare(a: real, x: real)
    requires x >= 0.0
    ensures Times(Square(a), x) >= 0.0
  {
    SquareSign(a);
    if Square(a) > 0.0 && x > 0.0 {
      TimesPositive(Square(a), x);
    } else {
      assert Times(0.0, x) == 0.0 && Times(Square(a), 0.0) == 0.0;
    }
  }

  /** Whether any overshoot is left when some voltage is present. */
  lemma NoOvershoot(t: Three)
    requires t.Ok() && t.VV() > 0.0
    ensures Excess(t.x) + Excess(t.y) + Excess(t.z) + t.Slack() >= 0.0
    ensures Excess(t.x) + Excess(t.y) + Excess(t.z) + t.Slack() == 0.0 <==> t.PowersUnfloored()
  {
    PhasePythagoras(t.x);
    PhasePythagoras(t.y);
    PhasePythagoras(t.z);
    SlackSign(t);
  }

  /** With no current at all, both reactive parts vanish. */
  lemma NoCurrent(t: Three)
    requires t.Ok() && t.II() == 0.0
    ensures t.Ibr() == 0.0 && t.Iur() == 0.0 && !t.PowersUnfloored()
  {
    assert t.x.ii == 0.0 && t.y.ii == 0.0 && t.z.ii == 0.0;
    assert Beta(t.x) == 0.0 && Beta(t.y) == 0.0 && Beta(t.z) == 0.0 && t.B() == 0.0;
    assert Square(0.0) == 0.0;
    assert Times(0.0, t.x.uu) == 0.0 && Times(0.0, t.y.uu) == 0.0;
    assert Times(0.0, t.z.uu) == 0.0 && Times(0.0, t.UU()) == 0.0;
  }

  /** By how much the floors of the four part filters, less that of the current filter, add. */
  function FloorGap(t: Three): real {
    Thr(t.Ibr()) - t.Ibr() + Thr(t.Iua()) - t.Iua() + Thr(t.Iur()) - t.Iur() + Thr(t.Iv()) - t.Iv()
    - (Thr(t.II()) - t.II())
  }

  predicate PartsPresent(t: Three) {
    t.Ibr() > 0.0 && t.Iua() > 0.0 && t.Iur() > 0.0 && t.Iv() > 0.0
  }

  lemma FloorGapSign(t: Three)
    requires t.Ok() && t.Iv() >= 0.0
    ensures FloorGap(t) >= 0.0
    ensures t.II() > 0.0 ==> (FloorGap(t) == 0.0 <==> PartsPresent(t))
    ensures t.II() == 0.0 ==> FloorGap(t) > 0.0
  {
    PartsNonNegative(t);
    if t.II() == 0.0 {
      NoCurrent(t);
    }
  }

  /** The apparent power squared, from the thresholded means. */
  function ApparentSquared(t: Three): real {
    Times(Thr(t.VV()), Thr(t.II()))
  }

  /** The sum of the squares of the four collective powers, from the thresholded means. */
  function PartsSquared(t: Three): real {
    Square(t.P()) + Times(Thr(t.VV()), Thr(t.Ibr()) + Thr(t.Iua()) + Thr(t.Iur()) + Thr(t.Iv()))
  }

  lemma SquareOfBalanced(t: Three)
    requires t.Ok() && t.VV() > 0.0
    ensures Times(Thr(t.VV()), t.Iba()) == Square(t.P())
  {
    Balanced(t);
    var a, v := t.A(), t.VV();
    assert Times(v, Times(Square(a), v)) == Square(Times(a, v));
  }

  /** Voltage present: the difference of the two sides is the squared voltage times the
      overshoots and the floors. */
  lemma IdentityWithVoltage(t: Three)
    requires t.Ok() && t.VV() > 0.0
    ensures PartsSquared(t) - ApparentSquared(t)
         == Times(t.VV(), Excess(t.x) + Excess(t.y) + Excess(t.z) + t.Slack() + FloorGap(t))
  {
    TotalPythagoras(t);
    SquareOfBalanced(t);
    var v, parts := t.VV(), Thr(t.Ibr()) + Thr(t.Iua()) + Thr(t.Iur()) + Thr(t.Iv());
    TimesOfDifference(v, t.Iba(), parts, Thr(t.II()));
  }

  lemma TimesOfDifference(v: real, a: real, b: real, c: real)
    ensures Times(v, a + b - c) == Times(v, a) + Times(v, b) - Times(v, c)
  {
  }

  /** No voltage at all: the active parts vanish and the floored powers stay. */
  lemma IdentityWithoutVoltage(t: Three)
    requires t.Ok() && t.VV() == 0.0 && t.Iv() >= 0.0
    ensures PartsSquared(t) > ApparentSquared(t)
    ensures !t.PowersUnfloored()
  {
    assert t.x.vv == 0.0 && t.y.vv == 0.0 && t.z.vv == 0.0;
    TotalPythagoras(t);
    PartsNonNegative(t);
    PhasePythagoras(t.x);
    PhasePythagoras(t.y);
    PhasePythagoras(t.z);
    SlackSign(t);
    assert t.Iba() == 0.0 && t.Iua() == 0.0 by {
      assert Times(Square(t.A()), 0.0) == 0.0;
      assert Times(Square(Alpha(t.x) - t.A()), 0.0) == 0.0;
      assert Times(Square(Alpha(t.y) - t.A()), 0.0) == 0.0;
      assert Times(Square(Alpha(t.z) - t.A()), 0.0) == 0.0;
    }
    SquareSign(t.P());
  }

  /** The central identity of the theory, floors included: the squared parts never sum to
      less than the squared apparent power, and they sum to exactly that when no mean power
      is floored and every part is present, and only then. */
  lemma PowersOfParts(t: Three)
    requires t.Ok() && t.Iv() >= 0.0
    ensures ApparentSquared(t) <= PartsSquared(t)
    ensures ApparentSquared(t) == PartsSquared(t) <==> t.PowersUnfloored() && PartsPresent(t)
  {
    if t.VV() == 0.0 {
      IdentityWithoutVoltage(t);
    } else {
      var overshoot := Excess(t.x) + Excess(t.y) + Excess(t.z) + t.Slack();
      IdentityWithVoltage(t);
      NoOvershoot(t);
      FloorGapSign(t);
      if t.II() == 0.0 {
        NoCurrent(t);
      }
      if overshoot + FloorGap(t) > 0.0 {
        TimesPositive(t.VV(), overshoot + FloorGap(t));
      } else {
        assert Times(t.VV(), 0.0) == 0.0;
      }
    }
  }
}
