/** The factors against the powers: how far the product of what the reactivity, unbalance and
    void factors leave over is from the square of the power factor. */
module Factors {
  import opened Reals
  import opened CPTState
  import opened CPTFormulas
  import opened CPTRun
  import opened SteadyState
  import opened PowerIdentity

  /** What the reactivity, unbalance and void factors leave over together. */
  function LeftOver(w: Powers): real {
    Times(Times(1.0 - Square(w.qf), 1.0 - Square(w.nf)), 1.0 - Square(w.vf))
  }

  lemma SquareOfRatio(x: real, y: real)
    requires y > 0.0
    ensures Times(Square(Over(x, y)), Square(y)) == Square(x)
  {
    var q := Over(x, y);
    assert Times(q, y) == x;
    SquareOfProduct(q, y);
  }

  /** What a factor leaves over, times what it is a part of. */
  lemma RestOfRatio(x: real, y: real)
    requires y > 0.0
    ensures Times(1.0 - Square(Over(x, y)), Square(y)) == Square(y) - Square(x)
  {
    SquareOfRatio(x, y);
    assert Times(1.0 - Square(Over(x, y)), Square(y)) == Square(y) - Times(Square(Over(x, y)), Square(y));
  }

  lemma TimesAssociates(x: real, y: real, z: real)
    ensures Times(Times(x, y), z) == Times(x, Times(y, z)) == Times(Times(x, z), y)
  {
  }

  /** The gap between the square of the power factor and the product, scaled, is the gap
      between the squares of the powers, scaled. */
  lemma Gap(u: real, v: real, w: real, f: real, p: real, pq: real, s: real, a: real, d: real)
    requires Times(u, pq) == p && Times(v, s) == pq && Times(w, a) == a - d && Times(f, a) == p
    ensures Times(f - Times(Times(u, v), w), Times(s, a)) == Times(p, s + d - a)
  {
    var uv := Times(u, v);
    TimesAssociates(u, v, s);
    assert Times(uv, s) == p;
    TimesAssociates(Times(uv, w), s, a);
    TimesAssociates(uv, w, s);
    TimesAssociates(p, w, a);
    assert Times(Times(uv, w), Times(s, a)) == Times(p, a - d);
    TimesAssociates(f, s, a);
    assert Times(f, Times(s, a)) == Times(Times(f, a), s);
    GapOfTimes(f, Times(uv, w), Times(s, a));
    GapOfTimes2(p, s, a - d);
  }

  lemma GapOfTimes(x: real, y: real, z: real)
    ensures Times(x - y, z) == Times(x, z) - Times(y, z)
  {
  }

  lemma GapOfTimes2(x: real, y: real, z: real)
    ensures Times(x, y) - Times(x, z) == Times(x, y - z)
  {
  }

  lemma SameSign(x: real, y: real, g: real, h: real)
    requires x > 0.0 && y > 0.0 && Times(g, x) == Times(y, h)
    ensures (g >= 0.0 <==> h >= 0.0) && (g == 0.0 <==> h == 0.0)
  {
    if g > 0.0 {
      TimesPositive(g, x);
    } else if g < 0.0 {
      TimesPositive(-g, x);
      assert Times(-g, x) == -Times(g, x);
    }
    if h > 0.0 {
      TimesPositive(y, h);
    } else if h < 0.0 {
      TimesPositive(y, -h);
      assert Times(y, -h) == -Times(y, h);
    }
  }

  /** For all rated powers: the factors multiply up to the square of the power factor exactly
      when the powers add up to the apparent power, and to less exactly when they exceed it. */
  lemma FactorsAgainstPowers(w: Powers, p: real, v: real, i: real, ibr: real, iua: real, iur: real, iv: real,
                             cfg: Config)
    requires cfg.Valid() && p > 0.0 && Rated(w, p, v, i, ibr, iua, iur, iv, false, cfg)
    ensures var total := Square(p) + Square(w.q) + Square(w.n) + Square(w.v);
            && (LeftOver(w) <= Square(w.pf) <==> Square(w.a) <= total)
            && (LeftOver(w) == Square(w.pf) <==> Square(w.a) == total)
  {
    var pq := Square(p) + Square(w.q);
    var s := pq + Square(w.n);
    SquareSign(p);
    SquareSign(w.q);
    SquareSign(w.n);
    SquareSign(w.a);
    RootIsPositive(pq, cfg);
    RootIsPositive(s, cfg);
    RestOfRatio(w.q, cfg.sqrt(pq));
    RestOfRatio(w.n, cfg.sqrt(s));
    RestOfRatio(w.v, w.a);
    SquareOfRatio(p, w.a);
    Gap(1.0 - Square(w.qf), 1.0 - Square(w.nf), 1.0 - Square(w.vf), Square(w.pf), Square(p), pq, s, Square(w.a),
        Square(w.v));
    TimesPositive(s, Square(w.a));
    SameSign(Times(s, Square(w.a)), Square(p), Square(w.pf) - LeftOver(w), s + Square(w.v) - Square(w.a));
  }

  /** So it is for the collective part, in every state of every run. */
  lemma CollectiveFactors(states: seq<CPTValue>, x: seq<Sample>, cfg: Config)
    requires cfg.Valid() && IsRun(states, x, cfg) && x != []
    ensures var s := states[|x|].sh;
            && (LeftOver(s.w) <= Square(s.w.pf) <==> Square(s.w.a) <= PartsTotal(s))
            && (LeftOver(s.w) == Square(s.w.pf) <==> Square(s.w.a) == PartsTotal(s))
  {
    var m := states[|x|].sh.m;
    FormulasAt(states, x, |x| - 1, cfg);
    FactorsAgainstPowers(states[|x|].sh.w, m.pAvg, m.vRms, m.iRms, m.ibrRms, m.iuaRms, m.iurRms, m.ivRms, cfg);
  }

  /** The factor identity of the theory. In every run that has settled the collective factors
      satisfy (1 - QF^2)(1 - NF^2)(1 - VF^2) <= PF^2, with equality exactly when every mean
      power reaches its floor by itself and every collective part is present. */
  lemma FactorIdentity(states: seq<CPTValue>, x: seq<Sample>, cfg: Config)
    requires cfg.Valid() && IsRun(states, x, cfg) && Settled(x, cfg.samples)
    ensures var r, n := states[|x|], cfg.samples;
            && LeftOver(r.sh.w) <= Square(r.sh.w.pf)
            && (LeftOver(r.sh.w) == Square(r.sh.w.pf) <==>
                PowersReachFloor(r, n) && AllPartsPresent(r.sh.core, n))
  {
    PowerIdentity.PowerIdentity(states, x, cfg);
    CollectiveFactors(states, x, cfg);
  }
}
