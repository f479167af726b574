/** The Conservative Power Theory engine of CPT.c as a state machine on values:
    one function per stage of an update, guards included, for three phases. */
module CPTState {
  import opened Reals
  import opened MovingAverage

  const THR_MIN := 1.0 / 10000.0
  const FLOOR := 1.0 / 100000.0

  /** One simultaneous sample of the three voltages and the three currents. */
  datatype PAC = PAC(V: seq<real>, I: seq<real>)

  type Sample = pac: PAC | |pac.V| == 3 && |pac.I| == 3
    witness PAC([0.0, 0.0, 0.0], [0.0, 0.0, 0.0])

  datatype Config = Config(samples: nat, tsh: real, sqrt: real -> real) {
    ghost predicate Valid() {
      0 < samples && tsh > 0.0 && IsSqrt(sqrt)
    }

    function HalfStep(): real {
      tsh / 2.0
    }
  }

  /** The mean of a filter configured without a threshold. */
  function PlainMean(h: seq<real>, cfg: Config): real
    requires cfg.Valid()
  {
    FilterMean(h, cfg.samples, 0, 0.0, 0.0)
  }

  /** The mean of a filter configured with threshold 0 and minimum `THR_MIN`. */
  function FlooredMean(h: seq<real>, cfg: Config): (m: real)
    requires cfg.Valid()
    ensures m > 0.0
  {
    FilterMean(h, cfg.samples, 1, 0.0, THR_MIN)
  }

  lemma RootIsPositive(x: real, cfg: Config)
    requires cfg.Valid() && x > 0.0
    ensures cfg.sqrt(x) > 0.0 && Square(cfg.sqrt(x)) == x
  {
    assert Square(cfg.sqrt(x)) == x;
  }

  function RmsEvaluate(input: real, cfg: Config): (r: real)
    requires cfg.Valid()
    ensures r > 0.0
    ensures Square(r) == if input <= 0.0 then FLOOR else input
  {
    var x := if input <= 0.0 then FLOOR else input;
    RootIsPositive(x, cfg);
    cfg.sqrt(x)
  }

  /** The root of a floored mean: always positive, and its square is that mean. */
  function Rms(h: seq<real>, cfg: Config): (r: real)
    requires cfg.Valid()
    ensures r > 0.0 && Square(r) == FlooredMean(h, cfg)
  {
    RmsEvaluate(FlooredMean(h, cfg), cfg)
  }

  /** The part of a phase that carries over from one update to the next: the inputs of
      its nine filters and the voltage integrator. */
  datatype PhaseCore = PhaseCore(
    v: seq<real>, i: seq<real>, p: seq<real>, w: seq<real>, ui: seq<real>, itg: seq<real>,
    iba: seq<real>, ibr: seq<real>, iv: seq<real>,
    integral: real, lastInput: real)

  datatype Measures = Measures(
    vPow2: real, vRms: real, iPow2: real, iRms: real,
    unbiased: real, unbiasedPow2: real, unbiasedRms: real,
    pInst: real, wInst: real, pAvg: real, wAvg: real)

  datatype Currents = Currents(
    ia: real, ir: real, iv: real, iba: real, ibr: real, iua: real, iur: real, iu: real,
    ivRms: real, ibaRms: real, ibrRms: real, iuaRms: real, iurRms: real)

  datatype Powers = Powers(
    a: real, q: real, na: real, nr: real, n: real, v: real,
    pf: real, nf: real, qf: real, vf: real)

  datatype PhaseState = PhaseState(core: PhaseCore, m: Measures, c: Currents, w: Powers)

  /** The inputs of the eight collective filters. */
  datatype SharedCore = SharedCore(
    iba: seq<real>, iua: seq<real>, ibr: seq<real>, iur: seq<real>, iv: seq<real>,
    v: seq<real>, i: seq<real>, ui: seq<real>)

  datatype SharedMeasures = SharedMeasures(
    vRms: real, iRms: real, uiRms: real, pAvg: real, wAvg: real,
    ivRms: real, ibaRms: real, ibrRms: real, iuaRms: real, iurRms: real)

  datatype Shared = Shared(core: SharedCore, m: SharedMeasures, w: Powers)

  /** The engine: phases A, B and C, then the collective part. */
  datatype CPTValue = CPTValue(x: PhaseState, y: PhaseState, z: PhaseState, sh: Shared)

  // ---------------------------------------------------------------- stages of one phase

  function RootMeanSquares(s: PhaseState, v: real, i: real, cfg: Config): PhaseState
    requires cfg.Valid()
  {
    var vs, cs := s.core.v + [Square(v)], s.core.i + [Square(i)];
    s.(core := s.core.(v := vs, i := cs),
       m := s.m.(vPow2 := Square(v), vRms := Rms(vs, cfg), iPow2 := Square(i), iRms := Rms(cs, cfg)))
  }

  function RemoveBias(s: PhaseState, v: real, cfg: Config): PhaseState
    requires cfg.Valid()
  {
    var integral := s.core.integral + Times(cfg.HalfStep(), v + s.core.lastInput);
    var itgs := s.core.itg + [integral];
    var unbiased := integral - PlainMean(itgs, cfg);
    s.(core := s.core.(integral := integral, lastInput := v, itg := itgs),
       m := s.m.(unbiased := unbiased, unbiasedPow2 := Square(unbiased)))
  }

  function IntegrateVoltage(s: PhaseState, v: real, cfg: Config): PhaseState
    requires cfg.Valid()
  {
    var t := RemoveBias(s, v, cfg);
    var uis := t.core.ui + [t.m.unbiasedPow2];
    t.(core := t.core.(ui := uis), m := t.m.(unbiasedRms := Rms(uis, cfg)))
  }

  function VoltageAndCurrent(s: PhaseState, v: real, i: real, cfg: Config): PhaseState
    requires cfg.Valid()
  {
    IntegrateVoltage(RootMeanSquares(s, v, i, cfg), v, cfg)
  }

  function AtLeastFloor(p: real): real {
    if p < FLOOR then FLOOR else p
  }

  function PowerAndEnergy(s: PhaseState, v: real, i: real, cfg: Config): PhaseState
    requires cfg.Valid() && s.m.unbiasedRms != 0.0
  {
    var ps := s.core.p + [Times(v, i)];
    var wInst := Times(s.m.unbiased, i);
    var ws := s.core.w + [wInst];
    s.(core := s.core.(p := ps, w := ws),
       m := s.m.(pInst := Times(v, i), pAvg := AtLeastFloor(PlainMean(ps, cfg)), wInst := wInst,
                  wAvg := PlainMean(ws, cfg)),
       w := s.w.(q := Times(PlainMean(ws, cfg), Over(s.m.vRms, s.m.unbiasedRms))))
  }

  function SplitCurrent(s: PhaseState, v: real, i: real, cfg: Config): PhaseState
    requires cfg.Valid()
  {
    var ia := if s.m.vRms != 0.0 then Times(PerSquare(s.m.pAvg, s.m.vRms), v) else s.c.ia;
    var ir := if s.m.unbiasedRms != 0.0
              then Times(PerSquare(s.m.wAvg, s.m.unbiasedRms), s.m.unbiased) else s.c.ir;
    var iv := i - ia - ir;
    var ivs := s.core.iv + [Square(iv)];
    s.(core := s.core.(iv := ivs),
       c := s.c.(ia := ia, ir := ir, iv := iv, ivRms := Rms(ivs, cfg)))
  }

  function BalancedActive(s: PhaseState, shared: SharedMeasures, v: real): PhaseState {
    if shared.vRms != 0.0 then s.(c := s.c.(iba := Times(PerSquare(shared.pAvg, shared.vRms), v))) else s
  }

  function BalancedReactive(s: PhaseState, shared: SharedMeasures): PhaseState {
    if shared.uiRms != 0.0
    then s.(c := s.c.(ibr := Times(PerSquare(shared.wAvg, shared.uiRms), s.m.unbiased))) else s
  }

  function BalancedRms(s: PhaseState, cfg: Config): PhaseState
    requires cfg.Valid()
  {
    var ibas := s.core.iba + [Square(s.c.iba)];
    var ibrs := s.core.ibr + [Square(s.c.ibr)];
    s.(core := s.core.(iba := ibas, ibr := ibrs),
       c := s.c.(ibaRms := Rms(ibas, cfg), ibrRms := Rms(ibrs, cfg)))
  }

  /** The per-phase `iuaRms` and `iurRms` stay instantaneous squares: the source neither
      averages them nor takes their root. */
  function Unbalanced(s: PhaseState): PhaseState {
    var iua := s.c.ia - s.c.iba;
    var iur := s.c.ir - s.c.ibr;
    s.(c := s.c.(iua := iua, iur := iur, iu := iua + iur))
  }

  function UnbalancedSquares(s: PhaseState): PhaseState {
    s.(c := s.c.(iuaRms := Square(s.c.iua), iurRms := Square(s.c.iur)))
  }

  function PowersOf(w: Powers, vRms: real, iRms: real, ibrRms: real, iuaRms: real, iurRms: real, ivRms: real,
                    cfg: Config): Powers {
    var na := Times(vRms, iuaRms);
    var nr := Times(vRms, iurRms);
    w.(a := Times(vRms, iRms), q := Times(vRms, ibrRms), na := na, nr := nr,
       n := cfg.sqrt(Square(na) + Square(nr)), v := Times(vRms, ivRms))
  }

  function PhasePowers(s: PhaseState, cfg: Config): PhaseState {
    s.(w := PowersOf(s.w, s.m.vRms, s.m.iRms, s.c.ibrRms, s.c.iuaRms, s.c.iurRms, s.c.ivRms, cfg))
  }

  function Factors(w: Powers, pAvg: real, cfg: Config): Powers
    requires cfg.Valid()
  {
    var p2, q2, n2 := Square(pAvg), Square(w.q), Square(w.n);
    w.(pf := if w.a != 0.0 then Over(pAvg, w.a) else w.pf,
       vf := if w.a != 0.0 then Over(w.v, w.a) else w.vf,
       nf := if p2 + q2 + n2 > 0.0 then RootIsPositive(p2 + q2 + n2, cfg); Over(w.n, cfg.sqrt(p2 + q2 + n2)) else w.nf,
       qf := if p2 + q2 > 0.0 then RootIsPositive(p2 + q2, cfg); Over(w.q, cfg.sqrt(p2 + q2)) else w.qf)
  }

  /** A phase clips its void factor at one; the collective factor is not clipped. */
  function PhaseFactors(s: PhaseState, cfg: Config): PhaseState
    requires cfg.Valid()
  {
    var f := Factors(s.w, s.m.pAvg, cfg);
    s.(w := if s.w.a != 0.0 && f.vf > 1.0 then f.(vf := 1.0) else f)
  }

  // ---------------------------------------------------------------- the engine

  function PhaseMeasured(s: PhaseState, v: real, i: real, cfg: Config): PhaseState
    requires cfg.Valid()
  {
    PowerAndEnergy(VoltageAndCurrent(s, v, i, cfg), v, i, cfg)
  }

  /** All that the current decomposition does to one phase. */
  function PhaseDecomposed(s: PhaseState, shared: SharedMeasures, v: real, i: real, cfg: Config): PhaseState
    requires cfg.Valid()
  {
    UnbalancedSquares(Unbalanced(Balanced(SplitCurrent(s, v, i, cfg), shared, v, cfg)))
  }

  function PhaseRated(s: PhaseState, cfg: Config): PhaseState
    requires cfg.Valid()
  {
    PhaseFactors(PhasePowers(s, cfg), cfg)
  }

  /** The running total of a loop over the three phases, after `done` of them. */
  function Total(a: real, b: real, c: real, done: nat): real {
    (if done > 0 then a else 0.0) + (if done > 1 then b else 0.0) + (if done > 2 then c else 0.0)
  }

  function Totalled(s: Shared, a: Measures, b: Measures, c: Measures): Shared {
    s.(m := s.m.(pAvg := Total(a.pAvg, b.pAvg, c.pAvg, 3), wAvg := Total(a.wAvg, b.wAvg, c.wAvg, 3),
                 vRms := Total(a.vPow2, b.vPow2, c.vPow2, 3), iRms := Total(a.iPow2, b.iPow2, c.iPow2, 3),
                 uiRms := Total(a.unbiasedPow2, b.unbiasedPow2, c.unbiasedPow2, 3)))
  }

  function Averaged(s: Shared, cfg: Config): Shared
    requires cfg.Valid()
  {
    var vs, cs, uis := s.core.v + [s.m.vRms], s.core.i + [s.m.iRms], s.core.ui + [s.m.uiRms];
    s.(core := s.core.(v := vs, i := cs, ui := uis),
       m := s.m.(vRms := Rms(vs, cfg), iRms := Rms(cs, cfg), uiRms := Rms(uis, cfg)))
  }

  function Collected(s: Shared, a: Measures, b: Measures, c: Measures, cfg: Config): Shared
    requires cfg.Valid()
  {
    Averaged(Totalled(s, a, b, c), cfg)
  }

  function AddVoid(s: Shared, iv: real, cfg: Config): Shared
    requires cfg.Valid()
  {
    var ivs := s.core.iv + [iv];
    s.(core := s.core.(iv := ivs), m := s.m.(ivRms := Rms(ivs, cfg)))
  }

  function AddBalanced(s: Shared, iba: real, ibr: real, cfg: Config): Shared
    requires cfg.Valid()
  {
    var ibas, ibrs := s.core.iba + [iba], s.core.ibr + [ibr];
    s.(core := s.core.(iba := ibas, ibr := ibrs), m := s.m.(ibaRms := Rms(ibas, cfg), ibrRms := Rms(ibrs, cfg)))
  }

  function AddUnbalanced(s: Shared, iua: real, iur: real, cfg: Config): Shared
    requires cfg.Valid()
  {
    var iuas, iurs := s.core.iua + [iua], s.core.iur + [iur];
    s.(core := s.core.(iua := iuas, iur := iurs), m := s.m.(iuaRms := Rms(iuas, cfg), iurRms := Rms(iurs, cfg)))
  }

  function SharedDecomposed(s: Shared, a: Currents, b: Currents, c: Currents, cfg: Config): Shared
    requires cfg.Valid()
  {
    var t := AddVoid(s, Total(Square(a.iv), Square(b.iv), Square(c.iv), 3), cfg);
    var u := AddBalanced(t, Total(Square(a.iba), Square(b.iba), Square(c.iba), 3),
                         Total(Square(a.ibr), Square(b.ibr), Square(c.ibr), 3), cfg);
    AddUnbalanced(u, Total(a.iuaRms, b.iuaRms, c.iuaRms, 3), Total(a.iurRms, b.iurRms, c.iurRms, 3), cfg)
  }

  function SharedPowers(s: Shared, cfg: Config): Shared {
    s.(w := PowersOf(s.w, s.m.vRms, s.m.iRms, s.m.ibrRms, s.m.iuaRms, s.m.iurRms, s.m.ivRms, cfg))
  }

  function SharedFactors(s: Shared, cfg: Config): Shared
    requires cfg.Valid()
  {
    s.(w := Factors(s.w, s.m.pAvg, cfg))
  }

  // Each stage of an update, on the whole engine.

  function MeasureStage(s: CPTValue, pac: Sample, cfg: Config): CPTValue
    requires cfg.Valid()
  {
    s.(x := VoltageAndCurrent(s.x, pac.V[0], pac.I[0], cfg),
       y := VoltageAndCurrent(s.y, pac.V[1], pac.I[1], cfg),
       z := VoltageAndCurrent(s.z, pac.V[2], pac.I[2], cfg))
  }

  ghost predicate Dividable(s: CPTValue) {
    s.x.m.unbiasedRms != 0.0 && s.y.m.unbiasedRms != 0.0 && s.z.m.unbiasedRms != 0.0
  }

  function PowerStage(s: CPTValue, pac: Sample, cfg: Config): CPTValue
    requires cfg.Valid() && Dividable(s)
  {
    s.(x := PowerAndEnergy(s.x, pac.V[0], pac.I[0], cfg),
       y := PowerAndEnergy(s.y, pac.V[1], pac.I[1], cfg),
       z := PowerAndEnergy(s.z, pac.V[2], pac.I[2], cfg))
  }

  function CollectStage(s: CPTValue, cfg: Config): CPTValue
    requires cfg.Valid()
  {
    s.(sh := Collected(s.sh, s.x.m, s.y.m, s.z.m, cfg))
  }

  function VoidStage(s: CPTValue, pac: Sample, cfg: Config): CPTValue
    requires cfg.Valid()
  {
    var x := SplitCurrent(s.x, pac.V[0], pac.I[0], cfg);
    var y := SplitCurrent(s.y, pac.V[1], pac.I[1], cfg);
    var z := SplitCurrent(s.z, pac.V[2], pac.I[2], cfg);
    CPTValue(x, y, z, AddVoid(s.sh, Total(Square(x.c.iv), Square(y.c.iv), Square(z.c.iv), 3), cfg))
  }

  function Balanced(s: PhaseState, shared: SharedMeasures, v: real, cfg: Config): PhaseState
    requires cfg.Valid()
  {
    BalancedRms(BalancedReactive(BalancedActive(s, shared, v), shared), cfg)
  }

  function BalanceStage(s: CPTValue, pac: Sample, cfg: Config): CPTValue
    requires cfg.Valid()
  {
    var x := Balanced(s.x, s.sh.m, pac.V[0], cfg);
    var y := Balanced(s.y, s.sh.m, pac.V[1], cfg);
    var z := Balanced(s.z, s.sh.m, pac.V[2], cfg);
    CPTValue(x, y, z, AddBalanced(s.sh, Total(Square(x.c.iba), Square(y.c.iba), Square(z.c.iba), 3),
                                  Total(Square(x.c.ibr), Square(y.c.ibr), Square(z.c.ibr), 3), cfg))
  }

  function UnbalanceStage(s: CPTValue, cfg: Config): CPTValue
    requires cfg.Valid()
  {
    var x := UnbalancedSquares(Unbalanced(s.x));
    var y := UnbalancedSquares(Unbalanced(s.y));
    var z := UnbalancedSquares(Unbalanced(s.z));
    CPTValue(x, y, z, AddUnbalanced(s.sh, Total(x.c.iuaRms, y.c.iuaRms, z.c.iuaRms, 3),
                                    Total(x.c.iurRms, y.c.iurRms, z.c.iurRms, 3), cfg))
  }

  function PowersStage(s: CPTValue, cfg: Config): CPTValue {
    CPTValue(PhasePowers(s.x, cfg), PhasePowers(s.y, cfg), PhasePowers(s.z, cfg), SharedPowers(s.sh, cfg))
  }

  function FactorsStage(s: CPTValue, cfg: Config): CPTValue
    requires cfg.Valid()
  {
    CPTValue(PhaseFactors(s.x, cfg), PhaseFactors(s.y, cfg), PhaseFactors(s.z, cfg), SharedFactors(s.sh, cfg))
  }

  /** One complete update, stage after stage. */
  function Update(s: CPTValue, pac: Sample, cfg: Config): CPTValue
    requires cfg.Valid()
  {
    var t := CollectStage(PowerStage(MeasureStage(s, pac, cfg), pac, cfg), cfg);
    var d := UnbalanceStage(BalanceStage(VoidStage(t, pac, cfg), pac, cfg), cfg);
    FactorsStage(PowersStage(d, cfg), cfg)
  }

  /** Everything that configuration initializes: empty filters and zero integrators. The
      other fields are whatever memory held. */
  ghost predicate Initial(s: CPTValue) {
    && s.sh.core == SharedCore([], [], [], [], [], [], [], [])
    && s.x.core == s.y.core == s.z.core == PhaseCore([], [], [], [], [], [], [], [], [], 0.0, 0.0)
  }
}
