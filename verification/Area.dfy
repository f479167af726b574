/** The voltage integral of a run, in volt-seconds: the exact area under the voltage, taken as
    going in straight lines from sample to sample. */
module Area {
  import opened Reals
  import opened CPTState
  import opened CPTFormulas
  import opened CPTRun

  /** The integral of phase `k` after `t` samples. */
  function IntegralAfter(states: seq<CPTValue>, t: nat, k: nat): real
    requires t < |states| && k < 3
  {
    Phase(states[t], k).core.integral
  }

  /** The time of sample `t`, in seconds. */
  function Time(t: nat, cfg: Config): real {
    t as real * cfg.tsh
  }

  /** Over one step the integral grows by the mean of the two voltages times the sampling
      period; before the first sample the voltage counts as zero. */
  lemma AreaOfStep(states: seq<CPTValue>, x: seq<Sample>, t: nat, k: nat, cfg: Config)
    requires cfg.Valid() && IsRun(states, x, cfg) && t < |x| && k < 3
    ensures var before := if t == 0 then 0.0 else x[t - 1].V[k];
            IntegralAfter(states, t + 1, k) - IntegralAfter(states, t, k) == cfg.tsh * ((before + x[t].V[k]) / 2.0)
    ensures IntegralAfter(states, 0, k) == 0.0
  {
    IntegralStep(states, x, t, k, cfg);
    LastInputIs(states, x, t, k, cfg);
    var before := if t == 0 then 0.0 else x[t - 1].V[k];
    HalfTimes(cfg.tsh, x[t].V[k], before);
  }

  lemma IntegralStep(states: seq<CPTValue>, x: seq<Sample>, t: nat, k: nat, cfg: Config)
    requires cfg.Valid() && IsRun(states, x, cfg) && t < |x| && k < 3
    ensures var c := Phase(states[t], k).core;
            IntegralAfter(states, t + 1, k) == c.integral + Times(cfg.tsh / 2.0, x[t].V[k] + c.lastInput)
  {
    RunInputs(states, x, t, k, cfg);
  }

  lemma HalfTimes(h: real, v: real, w: real)
    ensures Times(h / 2.0, v + w) == h * ((w + v) / 2.0)
  {
  }

  lemma LastInputIs(states: seq<CPTValue>, x: seq<Sample>, t: nat, k: nat, cfg: Config)
    requires cfg.Valid() && IsRun(states, x, cfg) && t < |x| && k < 3
    ensures Phase(states[t], k).core.lastInput == if t == 0 then 0.0 else x[t - 1].V[k]
  {
    if t > 0 {
      RunInputs(states, x, t - 1, k, cfg);
    }
  }

  /** A constant voltage grows the integral by itself times the sampling period. */
  lemma AreaOfConstant(states: seq<CPTValue>, x: seq<Sample>, t: nat, k: nat, cfg: Config)
    requires cfg.Valid() && IsRun(states, x, cfg) && 0 < t < |x| && k < 3 && x[t].V[k] == x[t - 1].V[k]
    ensures IntegralAfter(states, t + 1, k) - IntegralAfter(states, t, k) == x[t].V[k] * cfg.tsh
  {
    AreaOfStep(states, x, t, k, cfg);
  }

  /** From sample `lo` to sample `hi` the voltage is `a + b * time`. */
  ghost predicate IsLine(x: seq<Sample>, k: nat, lo: nat, hi: nat, a: real, b: real, cfg: Config)
    requires k < 3 && hi < |x|
  {
    forall t: nat :: lo <= t <= hi ==> x[t].V[k] == a + b * Time(t, cfg)
  }

  /** The area under `a + b * time` up to a time. */
  function LineArea(a: real, b: real, time: real): real {
    a * time + b * (time * time) / 2.0
  }

  lemma LineStep(a: real, b: real, s: real, h: real)
    ensures LineArea(a, b, s + h) - LineArea(a, b, s) == h * ((a + b * s + (a + b * (s + h))) / 2.0)
  {
    assert (s + h) * (s + h) == s * s + 2.0 * (s * h) + h * h;
    assert b * ((s + h) * (s + h)) == b * (s * s) + 2.0 * (b * (s * h)) + b * (h * h);
  }

  lemma LineNext(a: real, b: real, t: nat, cfg: Config)
    ensures LineArea(a, b, Time(t + 1, cfg)) - LineArea(a, b, Time(t, cfg))
         == cfg.tsh * ((a + b * Time(t, cfg) + (a + b * Time(t + 1, cfg))) / 2.0)
  {
    NextTime(t, cfg);
    LineStep(a, b, Time(t, cfg), cfg.tsh);
  }

  lemma NextTime(t: nat, cfg: Config)
    ensures Time(t + 1, cfg) == Time(t, cfg) + cfg.tsh
  {
  }

  /** Where the voltage goes in a straight line, over any number of samples, the integral grows
      by exactly the area under it. */
  lemma {:induction false} AreaOfLine(states: seq<CPTValue>, x: seq<Sample>, k: nat, lo: nat, hi: nat, a: real,
                                      b: real, cfg: Config)
    requires cfg.Valid() && IsRun(states, x, cfg) && k < 3 && lo <= hi < |x|
    requires IsLine(x, k, lo, hi, a, b, cfg)
    ensures IntegralAfter(states, hi + 1, k) - IntegralAfter(states, lo + 1, k)
         == LineArea(a, b, Time(hi, cfg)) - LineArea(a, b, Time(lo, cfg))
    decreases hi
  {
    if lo < hi {
      AreaOfLine(states, x, k, lo, hi - 1, a, b, cfg);
      AreaOfStep(states, x, hi, k, cfg);
      LineNext(a, b, hi - 1, cfg);
    }
  }
}
