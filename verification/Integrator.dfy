/** The trapezoidal voltage integrator on periodic zero-mean voltages: its output is
    periodic, and exactly orthogonal to its input over every period. */
module Integrator {
  import opened Reals
  import opened Sums

  ghost predicate TrapezoidAt(j: seq<real>, v: seq<real>, h: real, t: nat)
    requires 0 < t < |v| == |j|
  {
    j[t] == j[t - 1] + Times(h, v[t] + v[t - 1])
  }

  /** `j` is the running trapezoidal integral of `v` with half step `h`. */
  ghost predicate Trapezoid(j: seq<real>, v: seq<real>, h: real) {
    && |j| == |v|
    && forall t: nat :: 0 < t < |v| ==> TrapezoidAt(j, v, h, t)
  }

  function Products(a: seq<real>, b: seq<real>): (r: seq<real>)
    requires |a| == |b|
  {
    seq(|a|, k requires 0 <= k < |a| => Times(a[k], b[k]))
  }

  lemma {:induction false} IntegralTelescopes(j: seq<real>, v: seq<real>, h: real, p: nat, q: nat)
    requires Trapezoid(j, v, h) && p <= q < |v|
    ensures j[q] - j[p] == Times(h, Sum(v, p + 1, q + 1) + Sum(v, p, q))
    decreases q
  {
    if p < q {
      IntegralTelescopes(j, v, h, p, q - 1);
      assert TrapezoidAt(j, v, h, q);
      assert Sum(v, p + 1, q + 1) == Sum(v, p + 1, q) + v[q] && Sum(v, p, q) == Sum(v, p, q - 1) + v[q - 1];
      TimesDistributes(h, Sum(v, p + 1, q) + Sum(v, p, q - 1), v[q] + v[q - 1]);
    } else {
      assert Times(h, 0.0) == 0.0;
    }
  }

  lemma IntegralIsPeriodic(j: seq<real>, v: seq<real>, h: real, n: nat, from: nat)
    requires Trapezoid(j, v, h) && Periodic(v, n, from)
    requires 0 < n && from + n <= |v| && Sum(v, from, from + n) == 0.0
    ensures Periodic(j, n, from)
  {
    forall t: nat | from <= t && t + n < |j|
      ensures Repeats(j, n, t)
    {
      IntegralTelescopes(j, v, h, t, t + n);
      PeriodicWindow(v, n, from, from, t);
      PeriodicWindow(v, n, from, from, t + 1);
    }
  }

  function EnergyAt(j: real, v: real, h: real): real {
    Square(j) + Square(Times(h, v))
  }

  function Energy(j: seq<real>, v: seq<real>, h: real): seq<real>
    requires |j| == |v|
  {
    seq(|j|, k requires 0 <= k < |j| => EnergyAt(j[k], v[k], h))
  }

  lemma EnergyStep(j0: real, j1: real, v0: real, v1: real, h: real)
    requires j1 == j0 + Times(h, v1 + v0)
    ensures EnergyAt(j1, v1, h) == EnergyAt(j0, v0, h) + Times(2.0 * h, Times(j1, v1) + Times(j0, v0))
  {
    var d := h * (v1 + v0);
    assert (j1 - j0) * (j1 + j0) == d * (j1 + j0);
  }

  /** The energy of input and integral is itself the trapezoidal integral, with twice the
      step, of their product. */
  lemma EnergyIsAnIntegral(j: seq<real>, v: seq<real>, h: real)
    requires Trapezoid(j, v, h)
    ensures Trapezoid(Energy(j, v, h), Products(j, v), 2.0 * h)
  {
    var e, jv, g := Energy(j, v, h), Products(j, v), 2.0 * h;
    forall t: nat | 0 < t < |v|
      ensures TrapezoidAt(e, jv, g, t)
    {
      assert TrapezoidAt(j, v, h, t);
      EnergyStep(j[t - 1], j[t], v[t - 1], v[t], h);
    }
  }

  lemma ProductsRepeat(a: seq<real>, b: seq<real>, n: nat, from: nat)
    requires |a| == |b| && Periodic(a, n, from) && Periodic(b, n, from)
    ensures Periodic(Products(a, b), n, from)
  {
    forall k: nat | from <= k && k + n < |a|
      ensures Repeats(Products(a, b), n, k)
    {
      assert Repeats(a, n, k) && Repeats(b, n, k);
    }
  }

  /** Over the first two overlapping periods, input times output sums to zero. */
  lemma EnergyIsConserved(j: seq<real>, v: seq<real>, h: real, n: nat, from: nat)
    requires Trapezoid(j, v, h) && Periodic(v, n, from) && Periodic(j, n, from) && h > 0.0
    requires from + n < |v|
    ensures Sum(Products(j, v), from + 1, from + n + 1) + Sum(Products(j, v), from, from + n) == 0.0
  {
    var jv := Products(j, v);
    EnergyIsAnIntegral(j, v, h);
    IntegralTelescopes(Energy(j, v, h), jv, 2.0 * h, from, from + n);
    assert Repeats(v, n, from) && Repeats(j, n, from);
    ZeroFactor(2.0 * h, Sum(jv, from + 1, from + n + 1) + Sum(jv, from, from + n));
  }

  /** Discrete orthogonality: over any whole period the integral and the voltage it
      integrates have inner product exactly zero. */
  lemma IntegralIsOrthogonal(j: seq<real>, v: seq<real>, h: real, n: nat, from: nat, a: nat)
    requires Trapezoid(j, v, h) && Periodic(v, n, from) && h > 0.0
    requires 0 < n && from + n <= |v| && (n == 1 || from + n < |v|) && Sum(v, from, from + n) == 0.0
    requires from <= a && a + n <= |v|
    ensures Sum(Products(j, v), a, a + n) == 0.0
  {
    var jv := Products(j, v);
    if n == 1 {
      PeriodicWindow(v, n, from, from, a);
      assert v[a] == Sum(v, a, a + 1) == 0.0;
      assert Sum(jv, a, a + 1) == jv[a];
    } else {
      IntegralIsPeriodic(j, v, h, n, from);
      ProductsRepeat(j, v, n, from);
      EnergyIsConserved(j, v, h, n, from);
      PeriodicWindow(jv, n, from, from, from + 1);
      PeriodicWindow(jv, n, from, from, a);
    }
  }
}
