/** The columns of the log and the slots of the raw records, by what they are called and what
    the samples make of them. */
module Columns {
  import opened Sums
  import opened CPTState
  import opened CPTRun
  import opened Bounds
  import opened Quantities
  import opened Meter
  import opened Report
  import Datalogger
  import Message
  import Text

  /** The header that is shipped with the data logger. */
  const HEADER: seq<string> := [
    "time",
    "V_rms_A", "I_rms_A", "A_A", "P_A", "Q_A", "Iba_rms_A", "Ibr_rms_A", "Iv_rms_A", "PF_A", "QF_A", "VF_A",
    "V_rms_B", "I_rms_B", "A_B", "P_B", "Q_B", "Iba_rms_B", "Ibr_rms_B", "Iv_rms_B", "PF_B", "QF_B", "VF_B",
    "V_rms_C", "I_rms_C", "A_C", "P_C", "Q_C", "Iba_rms_C", "Ibr_rms_C", "Iv_rms_C", "PF_C", "QF_C", "VF_C"]

  lemma LabelOfA(a: nat)
    requires a < 11
    ensures Message.Label(0, a) == HEADER[1 + a]
  {
  }

  lemma LabelOfB(a: nat)
    requires a < 11
    ensures Message.Label(1, a) == HEADER[12 + a]
  {
  }

  lemma LabelOfC(a: nat)
    requires a < 11
    ensures Message.Label(2, a) == HEADER[23 + a]
  {
  }

  lemma LabelAtIs(k: nat)
    requires k < 33
    ensures Datalogger.Labels([0, 1, 2])[k] == HEADER[1 + k]
  {
    if k < 11 {
      LabelOfA(k);
    } else if k < 22 {
      LabelOfB(k - 11);
    } else {
      LabelOfC(k - 22);
    }
  }

  /** The columns of the messages are those of the header. */
  lemma HeaderIs()
    ensures Datalogger.MeterColumns() == HEADER
  {
    var columns := Datalogger.MeterColumns();
    forall j: nat | j < |columns|
      ensures columns[j] == HEADER[j]
    {
      if j > 0 {
        LabelAtIs(j - 1);
      }
    }
  }

  function PhaseOf(letter: char): (p: nat)
    ensures p < 3
  {
    if letter == 'A' then 0 else if letter == 'B' then 1 else 2
  }

  /** What a name says. */
  function Meant(name: string, r: Quantities.Report): real {
    if name == "V_rms" then r.v
    else if name == "I_rms" then r.i
    else if name == "A" then r.a
    else if name == "P" then r.p
    else if name == "Q" then r.q
    else if name == "Iba_rms" then r.iba
    else if name == "Ibr_rms" then r.ibr
    else if name == "Iv_rms" then r.iv
    else if name == "PF" then r.pf
    else if name == "QF" then r.qf
    else r.vf
  }

  /** What a column of the header stands for, after the samples `y`: the quantity of its name,
      of the phase of its last letter. */
  function ColumnValue(column: string, y: seq<Sample>, cfg: Config): real
    requires cfg.Valid() && |column| > 2
  {
    Meant(column[..|column| - 2], ReportOf(y, PhaseOf(column[|column| - 1]), cfg))
  }

  lemma LabelParts(p: nat, a: nat)
    requires p < 3 && a < 11
    ensures var column := Message.Label(p, a);
            |column| > 2 && column[..|column| - 2] == Message.NameOf(a) && PhaseOf(column[|column| - 1]) == p
  {
  }

  lemma AttributeOf(s: PhaseState, r: Quantities.Report, a: nat)
    requires a < 11 && Quantities.Holds(s, r)
    ensures Attribute(s.m, s.c, s.w, a) == Meant(Message.NameOf(a), r)
  {
  }

  /** The attributes that the meter reads, by the names that it prints, in every state of every
      run. */
  lemma AttributeIs(states: seq<CPTValue>, x: seq<Sample>, t: nat, p: nat, a: nat, cfg: Config)
    requires cfg.Valid() && IsRun(states, x, cfg) && 0 < t <= |x| && p < 3 && a < 11
    ensures var s := Phase(states[t], p);
            Attribute(s.m, s.c, s.w, a) == Meant(Message.NameOf(a), ReportOf(x[..t], p, cfg))
  {
    PhaseReports(states, x, t, p, cfg);
    AttributeOf(Phase(states[t], p), ReportOf(x[..t], p, cfg), a);
  }

  lemma ReadingIsColumnValue(states: seq<CPTValue>, x: seq<Sample>, t: nat, p: nat, a: nat, cfg: Config)
    requires cfg.Valid() && IsRun(states, x, cfg) && 0 < t <= |x| && p < 3 && a < 11
    ensures |Message.Label(p, a)| > 2
    ensures var s := Phase(states[t], p); Attribute(s.m, s.c, s.w, a) == ColumnValue(Message.Label(p, a), x[..t], cfg)
  {
    LabelParts(p, a);
    AttributeIs(states, x, t, p, a, cfg);
  }

  /** The value of a column at the end of cycle `c` of second `i`. */
  function ColumnAt(column: string, x: seq<Sample>, i: nat, c: nat, cfg: Config): real
    requires cfg.Valid() && |column| > 2 && 15360 * (i + 1) <= |x| && c < 60
  {
    ColumnValue(column, x[..15360 * i + 256 * (c + 1)], cfg)
  }

  /** The values of a column at the sixty cycle ends of second `i`. */
  function ColumnValues(column: string, x: seq<Sample>, i: nat, cfg: Config): (values: seq<real>)
    requires cfg.Valid() && |column| > 2 && 15360 * (i + 1) <= |x|
    ensures |values| == 60
    ensures forall c: nat :: c < 60 ==> values[c] == ColumnAt(column, x, i, c, cfg)
  {
    seq(60, c requires 0 <= c < 60 => ColumnAt(column, x, i, c, cfg))
  }

  function ColumnMean(column: string, x: seq<Sample>, i: nat, cfg: Config): real
    requires cfg.Valid() && |column| > 2 && 15360 * (i + 1) <= |x|
  {
    Sum(ColumnValues(column, x, i, cfg), 0, 60) / 60.0
  }

  lemma MeanOfReadings(second: seq<CPTValue>, p: nat, a: nat, readings: seq<real>)
    requires |second| == SAMPLE_RATE + 1 && p < 3 && a < 11 && |readings| == 60
    requires forall c :: 0 <= c < 60 ==>
               var s := Phase(second[256 * (c + 1)], p); readings[c] == Attribute(s.m, s.c, s.w, a)
    ensures MeanOfSecond(second, p, a) == Sum(readings, 0, 60) / 60.0
  {
    var same := seq(FREQ, c requires 0 <= c < FREQ =>
      var s := CPTRun.Phase(second[SAMPLES_PER_CYCLE * (c + 1)], p); Attribute(s.m, s.c, s.w, a));
    assert readings == same;
  }

  lemma MeanIsColumnMean(states: seq<CPTValue>, x: seq<Sample>, i: nat, p: nat, a: nat, cfg: Config)
    requires cfg.Valid() && IsRun(states, x, cfg) && 15360 * (i + 1) <= |x| && p < 3 && a < 11
    requires |Message.Label(p, a)| > 2
    ensures MeanOfSecond(SecondOf(states, i), p, a) == ColumnMean(Message.Label(p, a), x, i, cfg)
  {
    var second, values := SecondOf(states, i), ColumnValues(Message.Label(p, a), x, i, cfg);
    forall c: nat | c < 60
      ensures var s := Phase(second[256 * (c + 1)], p); values[c] == Attribute(s.m, s.c, s.w, a)
    {
      assert values[c] == ColumnAt(Message.Label(p, a), x, i, c, cfg);
      ReadingIsColumnValue(states, x, 15360 * i + 256 * (c + 1), p, a, cfg);
    }
    MeanOfReadings(second, p, a, values);
  }

  /** Cell `j` of a line is the text of the mean of what its header names, over the cycle ends
      of second `i`. */
  ghost predicate CellIsShown(cells: seq<string>, j: nat, x: seq<Sample>, i: nat, format: real -> string, cfg: Config)
    requires cfg.Valid() && 15360 * (i + 1) <= |x| && j < |HEADER| == |cells|
  {
    |HEADER[j]| > 2 && cells[j] == format(ColumnMean(HEADER[j], x, i, cfg))
  }

  /** Every cell of a line, and its time. */
  ghost predicate IsShown(row: string, x: seq<Sample>, i: nat, format: real -> string, now: string, cfg: Config)
    requires cfg.Valid() && 15360 * (i + 1) <= |x|
  {
    var cells := Text.Split(row, ',');
    && |cells| == |HEADER| && cells[0] == now
    && forall j: nat :: 0 < j < |HEADER| ==> CellIsShown(cells, j, x, i, format, cfg)
  }

  lemma LoggedIsShown(row: string, states: seq<CPTValue>, x: seq<Sample>, i: nat, format: real -> string, now: string,
                      cfg: Config)
    requires cfg.Valid() && IsRun(states, x, cfg) && 15360 * (i + 1) <= |x|
    requires IsLogged(row, SecondOf(states, i), format, now)
    ensures IsShown(row, x, i, format, now, cfg)
  {
    var cells := Text.Split(row, ',');
    forall j: nat | 0 < j < |HEADER|
      ensures CellIsShown(cells, j, x, i, format, cfg)
    {
      var p, a := (j - 1) / 11, (j - 1) % 11;
      HeaderAt(j, p, a);
      LabelParts(p, a);
      LoggedCell(row, states, x, i, format, now, p, a, HEADER[j], cfg);
      assert Datalogger.Slot(p, a) + 1 == j;
    }
  }

  lemma LoggedCell(row: string, states: seq<CPTValue>, x: seq<Sample>, i: nat, format: real -> string, now: string,
                   p: nat, a: nat, column: string, cfg: Config)
    requires cfg.Valid() && IsRun(states, x, cfg) && 15360 * (i + 1) <= |x| && p < 3 && a < 11
    requires IsLogged(row, SecondOf(states, i), format, now) && column == Message.Label(p, a) && |column| > 2
    ensures Text.Split(row, ',')[1 + Datalogger.Slot(p, a)] == format(ColumnMean(column, x, i, cfg))
  {
    MeanIsColumnMean(states, x, i, p, a, cfg);
  }

  lemma HeaderAt(j: nat, p: nat, a: nat)
    requires 0 < j < 34 && p == (j - 1) / 11 && a == (j - 1) % 11
    ensures p < 3 && HEADER[j] == Message.Label(p, a)
  {
    if j < 12 {
      LabelOfA(a);
    } else if j < 23 {
      LabelOfB(a);
    } else {
      LabelOfC(a);
    }
  }

  /** Every line shows its own second of the samples. */
  ghost predicate AreShown(rows: seq<string>, x: seq<Sample>, format: real -> string, nows: seq<string>, cfg: Config)
    requires cfg.Valid()
  {
    && |rows| <= |nows| && 15360 * |rows| <= |x|
    && forall i: nat :: i < |rows| ==> IsShown(rows[i], x, i, format, nows[i], cfg)
  }

  lemma LogIsShown(rows: seq<string>, states: seq<CPTValue>, x: seq<Sample>, format: real -> string, nows: seq<string>,
                   cfg: Config)
    requires cfg.Valid() && IsRun(states, x, cfg) && AreLogged(rows, states, format, nows)
    ensures AreShown(rows, x, format, nows, cfg)
  {
    forall i: nat | i < |rows|
      ensures IsShown(rows[i], x, i, format, nows[i], cfg)
    {
      assert LoggedAt(rows, states, format, nows, i);
      LoggedIsShown(rows[i], states, x, i, format, nows[i], cfg);
    }
  }

  /** A stretch of eleven slots holds a report in this order, and the slot behind it is left. */
  ghost predicate IsRecord(params: seq<real>, before: seq<real>, at: nat, r: Quantities.Report) {
    && at + 12 <= |params| == |before| && params[at + 11] == before[at + 11]
    && params[at..at + 11] == [r.v, r.i, r.a, r.p, r.q, r.iba, r.ibr, r.iv, r.pf, r.qf, r.vf]
  }

  lemma ListedIsRecord(params: seq<real>, before: seq<real>, at: nat, s: PhaseState, r: Quantities.Report)
    requires AreListed(params, at, s) && Quantities.Holds(s, r)
    requires at + 12 <= |params| == |before| && params[at + 11] == before[at + 11]
    ensures IsRecord(params, before, at, r)
  {
  }

  lemma WrittenIsRecord(params: seq<real>, before: seq<real>, second: seq<CPTValue>, order: seq<nat>, r: nat, q: nat,
                        report: Quantities.Report)
    requires RecordsWritten(params, before, second, order, RECORDS) && r < 40 && q < 3
    requires Quantities.Holds(Phase(second[384 * (r + 1)], order[q]), report)
    ensures IsRecord(params, before, 36 * r + 12 * q, report)
  {
    RecordsListed(params, before, second, order, r, q);
    ListedIsRecord(params, before, 36 * r + 12 * q, Phase(second[384 * (r + 1)], order[q]), report);
  }

  lemma RecordAfter(params: seq<real>, before: seq<real>, second: seq<CPTValue>, order: seq<nat>, r: nat, q: nat,
                    states: seq<CPTValue>, x: seq<Sample>, t: nat, cfg: Config)
    requires cfg.Valid() && IsRun(states, x, cfg) && 0 < t <= |x| && r < 40 && q < 3
    requires RecordsWritten(params, before, second, order, RECORDS) && second[384 * (r + 1)] == states[t]
    ensures IsRecord(params, before, 36 * r + 12 * q, ReportOf(x[..t], order[q], cfg))
  {
    var report := ReportOf(x[..t], order[q], cfg);
    PhaseReports(states, x, t, order[q], cfg);
    WrittenIsRecord(params, before, second, order, r, q, report);
  }

  /** The slots of the phase at place `q` of the order in record `r` of second `i`, by what the
      samples up to then make of them. */
  lemma RecordShows(params: seq<real>, before: seq<real>, states: seq<CPTValue>, x: seq<Sample>, i: nat,
                    order: seq<nat>, r: nat, q: nat, cfg: Config)
    requires cfg.Valid() && IsRun(states, x, cfg) && 15360 * (i + 1) <= |x| && r < 40 && q < 3
    requires RecordsWritten(params, before, SecondOf(states, i), order, RECORDS)
    ensures IsRecord(params, before, 36 * r + 12 * q, ReportOf(x[..15360 * i + 384 * (r + 1)], order[q], cfg))
  {
    SecondAt(states, i, 384 * (r + 1));
    RecordAfter(params, before, SecondOf(states, i), order, r, q, states, x, 15360 * i + 384 * (r + 1), cfg);
  }

  lemma SecondAt(states: seq<CPTValue>, i: nat, t: nat)
    requires 15360 * (i + 1) < |states| && t <= 15360
    ensures SecondOf(states, i)[t] == states[15360 * i + t]
  {
  }
}
