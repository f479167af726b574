/** The receiver of the message, datalogger.py: the parser and the file it keeps. */
module Datalogger {
  import opened Wrappers
  import opened Text
  import Message

  /** What the parser returns: nothing, or the labelled values and the board they are from. */
  datatype Reply = Rejected | Accepted(values: map<string, string>, board: int)

  datatype State = Failed | Reading(values: map<string, string>, board: int)

  /** One argument of the message. `toInt` is the conversion of a numeral. */
  function Step(st: State, arg: string, toInt: string -> Option<int>): State {
    var parts := Split(arg, ':');
    if st.Failed? || |parts| != 2 then Failed
    else
      var lbl, value := parts[0], parts[1];
      if lbl == "esp" then
        match toInt(value)
        case None => Failed
        case Some(n) => Reading(st.values, 3 + n)
      else if lbl == "bbb" then
        match toInt(value)
        case None => Failed
        case Some(n) => Reading(st.values, n)
      else Reading(st.values[lbl := value], st.board)
  }

  function Start(now: string): State {
    Reading(map["time" := now], 0)
  }

  /** The first `n` arguments. */
  function Steps(args: seq<string>, n: nat, now: string, toInt: string -> Option<int>): State
    requires n <= |args|
  {
    if n == 0 then Start(now) else Step(Steps(args, n - 1, now, toInt), args[n - 1], toInt)
  }

  function Parse(input: string, now: string, toInt: string -> Option<int>): Reply {
    if input == "" || input[0] != '$' then Rejected
    else
      var args := Split(input[1..], ',');
      match Steps(args, |args|, now, toInt)
      case Failed => Rejected
      case Reading(values, board) => Accepted(values, board)
  }

  /** Reads a message received at time `now`; any exception rejects it as a whole. */
  method ProcessInput(input: string, now: string, toInt: string -> Option<int>) returns (r: Reply)
    ensures r == Parse(input, now, toInt)
  {
    if input == "" || input[0] != '$' {
      return Rejected;
    }
    var board := 0;
    var args := Split(input[1..], ',');
    var values := map["time" := now];
    var i := 0;
    while i < |args|
      invariant 0 <= i <= |args| && Steps(args, i, now, toInt) == Reading(values, board)
    {
      var ok;
      ok, values, board := ReadArgument(args[i], values, board, toInt);
      i := i + 1;
      if !ok {
        FailureIsFinal(args, i, |args|, now, toInt);
        return Rejected;
      }
    }
    return Accepted(values, board);
  }

  /** The body of its loop: a board number, or one more value. */
  method ReadArgument(arg: string, before: map<string, string>, from: int, toInt: string -> Option<int>)
    returns (ok: bool, values: map<string, string>, board: int)
    ensures Step(Reading(before, from), arg, toInt) == if ok then Reading(values, board) else Failed
  {
    ok, values, board := true, before, from;
    var parts := Split(arg, ':');
    if |parts| != 2 {
      ok := false;
    } else if parts[0] == "esp" || parts[0] == "bbb" {
      var n := toInt(parts[1]);
      match n
      case None => ok := false;
      case Some(number) => board := if parts[0] == "esp" then 3 + number else number;
    } else {
      values := values[parts[0] := parts[1]];
    }
  }

  lemma {:induction false} FailureIsFinal(args: seq<string>, n: nat, m: nat, now: string, toInt: string -> Option<int>)
    requires n <= m <= |args| && Steps(args, n, now, toInt).Failed?
    ensures Steps(args, m, now, toInt).Failed?
    decreases m
  {
    if n < m {
      FailureIsFinal(args, n, m - 1, now, toInt);
    }
  }

  /** An argument has one colon, and a board label comes with a numeral. */
  predicate WellFormed(arg: string, toInt: string -> Option<int>) {
    var parts := Split(arg, ':');
    |parts| == 2 && (parts[0] == "esp" || parts[0] == "bbb" ==> toInt(parts[1]).Some?)
  }

  lemma {:induction false} StepsAccept(args: seq<string>, n: nat, now: string, toInt: string -> Option<int>)
    requires n <= |args|
    ensures Steps(args, n, now, toInt).Reading? <==> forall i :: 0 <= i < n ==> WellFormed(args[i], toInt)
  {
    if n > 0 {
      StepsAccept(args, n - 1, now, toInt);
    }
  }

  /** A message is accepted exactly when it starts with a dollar sign and every argument
      between commas is well formed. */
  lemma AcceptsExactly(input: string, now: string, toInt: string -> Option<int>)
    ensures Parse(input, now, toInt).Accepted? <==>
            input != "" && input[0] == '$' && forall arg :: arg in Split(input[1..], ',') ==> WellFormed(arg, toInt)
  {
    if input != "" && input[0] == '$' {
      var args := Split(input[1..], ',');
      StepsAccept(args, |args|, now, toInt);
    }
  }

  function Answer(st: State): Reply {
    if st.Failed? then Rejected else Accepted(st.values, st.board)
  }

  lemma OneArgument(name: string, value: string, now: string, toInt: string -> Option<int>)
    requires Free(name, ',') && Free(name, ':') && Free(value, ',') && Free(value, ':')
    ensures Parse("$" + name + ":" + value, now, toInt) == Answer(Step(Start(now), name + [':'] + value, toInt))
    ensures Split(name + [':'] + value, ':') == [name, value]
  {
    var arg, text := name + [':'] + value, "$" + name + ":" + value;
    assert text[1..] == arg;
    SplitFirst(arg, "", ',');
    SplitFirst(name, value, ':');
    SplitFirst(value, "", ':');
    assert Steps([arg], 0, now, toInt) == Start(now);
    assert Steps([arg], 1, now, toInt) == Step(Start(now), arg, toInt);
  }

  /** The board that a message of one argument is from: the number after "bbb" as it is, and the
      one after "esp" counted from three on. */
  lemma BoardOf(value: string, now: string, toInt: string -> Option<int>, number: int)
    requires Free(value, ',') && Free(value, ':') && toInt(value) == Some(number)
    ensures Parse("$" + "esp" + ":" + value, now, toInt) == Accepted(map["time" := now], 3 + number)
    ensures Parse("$" + "bbb" + ":" + value, now, toInt) == Accepted(map["time" := now], number)
  {
    OneArgument("esp", value, now, toInt);
    OneArgument("bbb", value, now, toInt);
  }

  // ---------------------------------------------------------------- the message of the meter

  /** A value without separators, as a printed number is. */
  predicate Plain(value: string) {
    Free(value, ',') && Free(value, ':')
  }

  ghost predicate AllPlain(values: seq<string>) {
    forall k :: 0 <= k < |values| ==> Plain(values[k])
  }

  lemma NameIsPlain(a: nat)
    requires a < Message.ATTRIBUTES
    ensures Plain(Message.NameOf(a))
  {
  }

  lemma LabelIsPlain(p: nat, a: nat)
    requires p < Message.PHASES && a < Message.ATTRIBUTES
    ensures Plain(Message.Label(p, a))
  {
    NameIsPlain(a);
    AppendFree(Message.NameOf(a), ['_', Message.PhaseName(p)], ',');
    AppendFree(Message.NameOf(a), ['_', Message.PhaseName(p)], ':');
  }

  lemma AppendFree(s: string, t: string, c: char)
    ensures Free(s + t, c) <==> Free(s, c) && Free(t, c)
  {
  }

  /** The first two letters of a name, its third, and its length tell it from the others. */
  lemma NamesDistinct(a: nat, b: nat)
    requires a < Message.ATTRIBUTES && b < Message.ATTRIBUTES && Message.NameOf(a) == Message.NameOf(b)
    ensures a == b
  {
    var s, t := Message.NameOf(a), Message.NameOf(b);
    assert |s| == |t| && s[0] == t[0] && (|s| == 7 ==> s[2] == t[2]);
  }

  /** The thirty-three labels are distinct. */
  lemma LabelsDistinct(p: nat, a: nat, q: nat, b: nat)
    requires p < Message.PHASES && a < Message.ATTRIBUTES && q < Message.PHASES && b < Message.ATTRIBUTES
    requires Message.Label(p, a) == Message.Label(q, b)
    ensures p == q && a == b
  {
    var s, t := Message.Label(p, a), Message.Label(q, b);
    assert s[|s| - 1] == Message.PhaseName(p) && t[|t| - 1] == Message.PhaseName(q);
    assert s[..|s| - 2] == Message.NameOf(a) && t[..|t| - 2] == Message.NameOf(b);
    NamesDistinct(a, b);
  }

  /** No label is a board label or the time. */
  lemma LabelsAreValues(p: nat, a: nat)
    requires p < Message.PHASES && a < Message.ATTRIBUTES
    ensures Message.Label(p, a) != "esp" && Message.Label(p, a) != "bbb" && Message.Label(p, a) != "time"
  {
    var s := Message.Label(p, a);
    assert s[|s| - 2] == '_';
    assert "esp"[1] == 's' && "bbb"[1] == 'b' && "time"[2] == 'm';
  }

  lemma ItemSplits(order: seq<nat>, values: seq<string>, k: nat)
    requires Message.IsOrder(order) && |values| == Message.ITEMS && AllPlain(values) && k < Message.ITEMS
    ensures Split(Message.Item(order, values, k), ':') == [Message.LabelAt(order, k), values[k]]
    ensures Free(Message.Item(order, values, k), ',')
  {
    var lbl := Message.LabelAt(order, k);
    LabelIsPlain(order[k / Message.ATTRIBUTES], k % Message.ATTRIBUTES);
    assert Plain(values[k]);
    SplitFirst(lbl, values[k], ':');
    SplitFirst(values[k], "", ':');
    AppendFree(lbl + [':'], values[k], ',');
    AppendFree(lbl, [':'], ',');
  }

  /** The labels in the order they are printed. */
  function Labels(order: seq<nat>): (keys: seq<string>)
    requires Message.IsOrder(order)
    ensures |keys| == Message.ITEMS
  {
    seq(Message.ITEMS, k requires 0 <= k < Message.ITEMS => Message.LabelAt(order, k))
  }

  /** The values under their keys, after the first `n`. */
  function Labelled(keys: seq<string>, values: seq<string>, n: nat, now: string): map<string, string>
    requires n <= |keys| && n <= |values|
  {
    if n == 0 then map["time" := now] else Labelled(keys, values, n - 1, now)[keys[n - 1] := values[n - 1]]
  }

  lemma {:induction false} LabelledAt(keys: seq<string>, values: seq<string>, n: nat, k: nat, now: string)
    requires k < n <= |keys| && n <= |values| && forall i, j :: 0 <= i < j < |keys| ==> keys[i] != keys[j]
    ensures keys[k] in Labelled(keys, values, n, now) && Labelled(keys, values, n, now)[keys[k]] == values[k]
    decreases n
  {
    if k < n - 1 {
      LabelledAt(keys, values, n - 1, k, now);
    }
  }

  lemma {:induction false} LabelledOnly(keys: seq<string>, values: seq<string>, n: nat, lbl: string, now: string)
    requires n <= |keys| && n <= |values| && "time" !in keys
    ensures "time" in Labelled(keys, values, n, now) && Labelled(keys, values, n, now)["time"] == now
    ensures lbl in Labelled(keys, values, n, now) && lbl != "time" ==> lbl in keys
  {
    if n > 0 {
      LabelledOnly(keys, values, n - 1, lbl, now);
      assert keys[n - 1] in keys;
    }
  }

  /** An argument that carries a value. */
  ghost predicate Carries(arg: string, key: string, value: string) {
    Split(arg, ':') == [key, value] && Free(arg, ',') && key != "esp" && key != "bbb"
  }

  ghost predicate AllCarry(args: seq<string>, keys: seq<string>, values: seq<string>) {
    && |args| == |keys| + 1 == |values| + 1
    && args[0] == "bbb:1"
    && forall k :: 0 < k < |args| ==> Carries(args[k], keys[k - 1], values[k - 1])
  }

  lemma FirstStep(args: seq<string>, now: string, toInt: string -> Option<int>)
    requires args != [] && args[0] == "bbb:1" && toInt("1") == Some(1)
    ensures Steps(args, 1, now, toInt) == Reading(map["time" := now], 1)
  {
    SplitFirst("bbb", "1", ':');
    SplitFirst("1", "", ':');
    assert "bbb:1" == "bbb" + [':'] + "1";
    assert Steps(args, 0, now, toInt) == Start(now);
  }

  lemma {:induction false} StepsOfCarriers(args: seq<string>, keys: seq<string>, values: seq<string>, n: nat,
                                           now: string,
                                           toInt: string -> Option<int>)
    requires AllCarry(args, keys, values) && n <= |keys| && toInt("1") == Some(1)
    ensures Steps(args, n + 1, now, toInt) == Reading(Labelled(keys, values, n, now), 1)
  {
    if n == 0 {
      FirstStep(args, now, toInt);
    } else {
      StepsOfCarriers(args, keys, values, n - 1, now, toInt);
      assert Carries(args[n], keys[n - 1], values[n - 1]);
    }
  }

  lemma PartsCarry(order: seq<nat>, values: seq<string>)
    requires Message.IsOrder(order) && |values| == Message.ITEMS && AllPlain(values)
    ensures AllCarry(Message.Parts(Message.Items(order, values)), Labels(order), values)
    ensures AllFree(Message.Parts(Message.Items(order, values)), ',')
  {
    var parts := Message.Parts(Message.Items(order, values));
    forall k | 0 < k < |parts|
      ensures Carries(parts[k], Labels(order)[k - 1], values[k - 1])
    {
      ItemSplits(order, values, k - 1);
      LabelsAreValues(order[(k - 1) / Message.ATTRIBUTES], (k - 1) % Message.ATTRIBUTES);
    }
  }

  lemma LabelsApart(order: seq<nat>, j: nat, k: nat)
    requires Message.IsPermutation(order) && j < Message.ITEMS && k < Message.ITEMS && j != k
    ensures Message.LabelAt(order, j) != Message.LabelAt(order, k)
  {
    if Message.LabelAt(order, j) == Message.LabelAt(order, k) {
      LabelsDistinct(order[j / Message.ATTRIBUTES], j % Message.ATTRIBUTES, order[k / Message.ATTRIBUTES],
                     k % Message.ATTRIBUTES);
    }
  }

  lemma LabelsAreKeys(order: seq<nat>)
    requires Message.IsPermutation(order)
    ensures forall i, j :: 0 <= i < j < Message.ITEMS ==> Labels(order)[i] != Labels(order)[j]
    ensures "time" !in Labels(order)
  {
    forall i, j | 0 <= i < j < Message.ITEMS
      ensures Labels(order)[i] != Labels(order)[j]
    {
      LabelsApart(order, i, j);
    }
    forall k | 0 <= k < Message.ITEMS
      ensures Labels(order)[k] != "time"
    {
      LabelsAreValues(order[k / Message.ATTRIBUTES], k % Message.ATTRIBUTES);
    }
  }

  /** The dictionary has the time, and every value under its label; nothing else. */
  ghost predicate Faithful(d: map<string, string>, keys: seq<string>, values: seq<string>, now: string) {
    && |keys| == |values|
    && "time" in d && d["time"] == now
    && (forall lbl :: lbl in d <==> lbl == "time" || lbl in keys)
    && (forall k :: 0 <= k < |keys| ==> keys[k] in d && d[keys[k]] == values[k])
  }

  /** The parser reads what the meter prints: board 1 and every value under its own label. */
  lemma RoundTrip(order: seq<nat>, values: seq<string>, now: string, toInt: string -> Option<int>)
    requires Message.IsPermutation(order) && |values| == Message.ITEMS && AllPlain(values)
    requires toInt("1") == Some(1)
    ensures var r := Parse(Message.Content(order, values), now, toInt);
            r.Accepted? && r.board == 1 && Faithful(r.values, Labels(order), values, now)
  {
    var parts := Message.Parts(Message.Items(order, values));
    PartsCarry(order, values);
    StepsOfCarriers(parts, Labels(order), values, Message.ITEMS, now, toInt);
    SplitOfJoin(parts, ',');
    assert Message.Content(order, values)[1..] == Join(parts, ',');
    LabelsAreKeys(order);
    LabelledIsFaithful(Labels(order), values, now);
  }

  lemma LabelledIsFaithful(keys: seq<string>, values: seq<string>, now: string)
    requires |keys| == |values| && "time" !in keys && forall i, j :: 0 <= i < j < |keys| ==> keys[i] != keys[j]
    ensures Faithful(Labelled(keys, values, |keys|, now), keys, values, now)
  {
    var d := Labelled(keys, values, |keys|, now);
    LabelledOnly(keys, values, |keys|, "time", now);
    forall lbl | lbl in d && lbl != "time"
      ensures lbl in keys
    {
      LabelledOnly(keys, values, |keys|, lbl, now);
    }
    forall k | 0 <= k < |keys|
      ensures keys[k] in d && d[keys[k]] == values[k]
    {
      LabelledAt(keys, values, |keys|, k, now);
    }
  }

  // ---------------------------------------------------------------- the file

  /** The columns that the header names, or the values of a message in their order. */
  function Cells(columns: seq<string>, values: map<string, string>): seq<string>
    requires forall c :: c in columns ==> c in values
  {
    seq(|columns|, i requires 0 <= i < |columns| => values[columns[i]])
  }

  predicate HasColumns(columns: seq<string>, values: map<string, string>) {
    forall c :: c in columns ==> c in values
  }

  /** A missing column raises an exception. */
  method WriteRow(columns: seq<string>, values: map<string, string>) returns (row: Option<string>)
    ensures row == if HasColumns(columns, values) then Some(Join(Cells(columns, values), ',')) else None
  {
    var args := "";
    ghost var cells := [];
    var i := 0;
    while i < |columns|
      invariant 0 <= i <= |columns| && HasColumns(columns[..i], values)
      invariant cells == Cells(columns[..i], values) && args == Flat(cells, ',')
    {
      if columns[i] !in values {
        return None;
      }
      args := args + values[columns[i]] + ",";
      assert columns[..i + 1] == columns[..i] + [columns[i]];
      cells := cells + [values[columns[i]]];
      assert cells[..i] == Cells(columns[..i], values);
      i := i + 1;
    }
    assert columns[..i] == columns;
    if args == "" {
      EmptyFlat(cells);
      return Some("");
    }
    FlatIsJoin(cells, ',');
    return Some(args[..|args| - 1]);
  }

  lemma EmptyFlat(cells: seq<string>)
    requires Flat(cells, ',') == ""
    ensures cells == []
  {
    if cells != [] {
      FlatIsJoin(cells, ',');
    }
  }

  /** The column files and the naming of the output files by board. */
  datatype Params = Params(meterLine: string, plugLine: string, plug: seq<string>, fileName: int -> string) {
    function Meter(): seq<string> {
      Split(meterLine, ',')
    }

    function Line(board: int): string {
      if board > 3 then plugLine else meterLine
    }

    function Columns(board: int): seq<string> {
      if board > 3 then plug else Meter()
    }

    /** The meter's columns are the time and those of its messages. */
    ghost predicate ForMeter() {
      Meter() == MeterColumns()
    }
  }

  /** What a connection has done: whether it has started its file, and all output files. */
  datatype Log = Log(started: bool, files: map<string, string>)

  const EOL := "\r\n"

  function Begun(log: Log, name: string, line: string): Log {
    if !log.started then Log(true, log.files[name := line + EOL])
    else if name in log.files then log
    else log.(files := log.files[name := ""])
  }

  /** The log after a reply. A missing column ends the connection, after the file is started. */
  function Handled(log: Log, reply: Reply, params: Params): (Log, bool) {
    if reply.Rejected? then (log, true)
    else
      var name, columns := params.fileName(reply.board), params.Columns(reply.board);
      var next := Begun(log, name, params.Line(reply.board));
      if name in next.files && HasColumns(columns, reply.values) then
        (next.(files := next.files[name := next.files[name] + Join(Cells(columns, reply.values), ',') + EOL]), true)
      else (next, false)
  }

  class ClientThread {
    const params: Params
    var started: bool
    var files: map<string, string>

    constructor (params: Params, files: map<string, string>)
      ensures this.params == params && State() == Log(false, files)
    {
      this.params, this.files, started := params, files, false;
    }

    ghost function State(): Log
      reads this
    {
      Log(started, files)
    }

    /** Appends a reply to the file of its board; the first reply starts the file afresh. */
    method Handle(reply: Reply) returns (ok: bool)
      modifies this
      ensures (State(), ok) == Handled(old(State()), reply, params)
    {
      if reply.Rejected? {
        return true;
      }
      var name := params.fileName(reply.board);
      if !started {
        files := files[name := params.Line(reply.board) + EOL];
        started := true;
      } else if name !in files {
        files := files[name := ""];
      }
      var row := WriteRow(params.Columns(reply.board), reply.values);
      if row.None? {
        return false;
      }
      files := files[name := files[name] + row.value + EOL];
      return true;
    }
  }

  // ---------------------------------------------------------------- the log of a meter

  /** The columns of the meter's file: the time, and the labels in the order of the phases. */
  function MeterColumns(): seq<string> {
    ["time"] + Labels([0, 1, 2])
  }

  /** One message of the meter, and when it was received. */
  datatype Sent = Sent(values: seq<string>, now: string)

  ghost predicate AllSent(sent: seq<Sent>) {
    forall i :: 0 <= i < |sent| ==> Sendable(sent[i])
  }

  /** The values of a meter's message, and a time, without separators. */
  ghost predicate Sendable(sent: Sent) {
    |sent.values| == Message.ITEMS && AllPlain(sent.values) && Free(sent.now, ',')
  }

  /** The number of an attribute of the phase at place `i`. */
  function Slot(i: nat, a: nat): (k: nat)
    requires i < Message.PHASES && a < Message.ATTRIBUTES
    ensures k < Message.ITEMS && k / Message.ATTRIBUTES == i && k % Message.ATTRIBUTES == a
  {
    Message.ATTRIBUTES * i + a
  }

  /** The row of a message: every value in the column of its phase and attribute. */
  ghost predicate IsRow(cells: seq<string>, order: seq<nat>, sent: Sent)
    requires Message.IsOrder(order) && |sent.values| == Message.ITEMS
  {
    && |cells| == Message.ITEMS + 1 && cells[0] == sent.now
    && forall i: nat, a: nat :: i < Message.PHASES && a < Message.ATTRIBUTES ==>
         cells[1 + Slot(order[i], a)] == sent.values[Slot(i, a)]
  }

  lemma SameLabel(order: seq<nat>, i: nat, a: nat)
    requires Message.IsOrder(order) && i < Message.PHASES && a < Message.ATTRIBUTES
    ensures Labels([0, 1, 2])[Slot(order[i], a)] == Labels(order)[Slot(i, a)]
  {
    assert [0, 1, 2][order[i]] == order[i];
  }

  lemma LabelOfPhase(order: seq<nat>, k: nat)
    requires Message.IsPermutation(order) && k < Message.ITEMS
    ensures Labels([0, 1, 2])[k] in Labels(order)
  {
    var p, a := k / Message.ATTRIBUTES, k % Message.ATTRIBUTES;
    var i := if order[0] == p then 0 else if order[1] == p then 1 else 2;
    assert order[i] == p;
    SameLabel(order, i, a);
  }

  /** The reply to a message of the meter has every column, and its row is in order. */
  lemma RowOfMessage(order: seq<nat>, sent: Sent, d: map<string, string>)
    requires Message.IsPermutation(order) && |sent.values| == Message.ITEMS
    requires Faithful(d, Labels(order), sent.values, sent.now)
    ensures HasColumns(MeterColumns(), d) && IsRow(Cells(MeterColumns(), d), order, sent)
  {
    forall k | 0 <= k < Message.ITEMS
      ensures Labels([0, 1, 2])[k] in d
    {
      LabelOfPhase(order, k);
    }
    var cells := Cells(MeterColumns(), d);
    forall i: nat, a: nat | i < Message.PHASES && a < Message.ATTRIBUTES
      ensures cells[1 + Slot(order[i], a)] == sent.values[Slot(i, a)]
    {
      SameLabel(order, i, a);
    }
  }

  function ReplyTo(order: seq<nat>, sent: Sent, toInt: string -> Option<int>): Reply
    requires Message.IsOrder(order) && |sent.values| == Message.ITEMS
  {
    Parse(Message.Content(order, sent.values), sent.now, toInt)
  }

  /** Message `i` of a meter takes the log from one state to the next. */
  ghost predicate HandledAt(logs: seq<Log>, i: nat, order: seq<nat>, sent: seq<Sent>, params: Params,
                            toInt: string -> Option<int>)
    requires Message.IsOrder(order) && i < |sent| && |logs| == |sent| + 1 && |sent[i].values| == Message.ITEMS
  {
    logs[i + 1] == Handled(logs[i], ReplyTo(order, sent[i], toInt), params).0
  }

  /** The states of the log over the messages that a meter sends on a new connection. */
  ghost predicate IsSession(logs: seq<Log>, order: seq<nat>, sent: seq<Sent>, params: Params,
                            toInt: string -> Option<int>)
    requires Message.IsOrder(order) && AllSent(sent)
  {
    && |logs| == |sent| + 1 && !logs[0].started
    && forall i :: 0 <= i < |sent| ==> HandledAt(logs, i, order, sent, params, toInt)
  }

  function Lines(rows: seq<string>): string {
    if rows == [] then "" else Lines(rows[..|rows| - 1]) + rows[|rows| - 1] + EOL
  }

  /** A row as it is written: its cells in order, between commas that no cell has. */
  ghost predicate IsRowText(row: string, order: seq<nat>, sent: Sent)
    requires Message.IsOrder(order) && |sent.values| == Message.ITEMS
  {
    IsRow(Split(row, ','), order, sent)
  }

  /** The cells of a row, cut at commas, are the cells that were joined. */
  lemma RowSplits(order: seq<nat>, sent: Sent, d: map<string, string>)
    requires Message.IsPermutation(order) && |sent.values| == Message.ITEMS && AllPlain(sent.values)
      && Free(sent.now, ',')
    requires Faithful(d, Labels(order), sent.values, sent.now)
    ensures HasColumns(MeterColumns(), d) && IsRowText(Join(Cells(MeterColumns(), d), ','), order, sent)
  {
    RowOfMessage(order, sent, d);
    var cells := Cells(MeterColumns(), d);
    forall c | 0 <= c < |cells|
      ensures Free(cells[c], ',')
    {
      if c > 0 {
        LabelOfPhase(order, c - 1);
        var k :| 0 <= k < Message.ITEMS && Labels(order)[k] == MeterColumns()[c];
        assert cells[c] == sent.values[k] && Plain(sent.values[k]);
      }
    }
    SplitOfJoin(cells, ',');
  }

  /** `after` is `log` with a line added to the meter's file. */
  ghost predicate WithLine(log: Log, after: Log, params: Params, row: string) {
    var name, begun := params.fileName(1), Begun(log, params.fileName(1), params.meterLine);
    name in begun.files && after == begun.(files := begun.files[name := begun.files[name] + row + EOL])
  }

  lemma ReplyHandled(log: Log, reply: Reply, params: Params)
    requires reply.Accepted? && reply.board == 1 && params.ForMeter()
      && HasColumns(MeterColumns(), reply.values)
    ensures WithLine(log, Handled(log, reply, params).0, params, Join(Cells(MeterColumns(), reply.values), ','))
    ensures Handled(log, reply, params).1
  {
  }

  /** One message of a meter adds one line to the meter's file. */
  lemma MessageHandled(log: Log, order: seq<nat>, sent: Sent, params: Params, toInt: string -> Option<int>)
    returns (row: string)
    requires Message.IsPermutation(order) && |sent.values| == Message.ITEMS && AllPlain(sent.values)
      && Free(sent.now, ',')
    requires params.ForMeter() && toInt("1") == Some(1)
    ensures IsRowText(row, order, sent)
    ensures WithLine(log, Handled(log, ReplyTo(order, sent, toInt), params).0, params, row)
    ensures Handled(log, ReplyTo(order, sent, toInt), params).1
  {
    var reply := ReplyTo(order, sent, toInt);
    RoundTrip(order, sent.values, sent.now, toInt);
    RowSplits(order, sent, reply.values);
    row := Join(Cells(MeterColumns(), reply.values), ',');
    ReplyHandled(log, reply, params);
  }

  lemma FirstLine(log: Log, after: Log, params: Params, row: string)
    requires !log.started && WithLine(log, after, params, row)
    ensures FileIs(log, after, params, [row])
  {
    LinesStep([params.meterLine], row);
    assert [params.meterLine] + [row] == [params.meterLine, row];
    assert [params.meterLine][..0] == [];
    assert Lines([params.meterLine]) == params.meterLine + EOL;
  }

  lemma NextLine(log: Log, before: Log, after: Log, params: Params, rows: seq<string>, row: string)
    requires FileIs(log, before, params, rows)
    requires WithLine(before, after, params, row)
    ensures FileIs(log, after, params, rows + [row])
  {
    LinesStep([params.meterLine] + rows, row);
    assert [params.meterLine] + rows + [row] == [params.meterLine] + (rows + [row]);
  }

  lemma SessionStep(logs: seq<Log>, order: seq<nat>, sent: seq<Sent>, n: nat, params: Params,
                    toInt: string -> Option<int>)
    returns (row: string)
    requires Message.IsPermutation(order) && AllSent(sent) && n < |sent| && IsSession(logs, order, sent, params, toInt)
    requires params.ForMeter() && toInt("1") == Some(1)
    ensures IsRowText(row, order, sent[n]) && WithLine(logs[n], logs[n + 1], params, row)
  {
    assert HandledAt(logs, n, order, sent, params, toInt);
    row := MessageHandled(logs[n], order, sent[n], params, toInt);
  }

  /** One line for each of the first messages. */
  ghost predicate AreRows(rows: seq<string>, order: seq<nat>, sent: seq<Sent>)
    requires Message.IsOrder(order) && AllSent(sent)
  {
    |rows| <= |sent| && forall i: nat :: i < |rows| ==> IsRowAt(rows, order, sent, i)
  }

  ghost predicate IsRowAt(rows: seq<string>, order: seq<nat>, sent: seq<Sent>, i: nat)
    requires Message.IsOrder(order) && AllSent(sent) && i < |rows| <= |sent|
  {
    IsRowText(rows[i], order, sent[i])
  }

  lemma RowsExtend(rows: seq<string>, row: string, order: seq<nat>, sent: seq<Sent>, last: Sent)
    requires Message.IsOrder(order) && AllSent(sent) && AreRows(rows, order, sent)
    requires |rows| < |sent| && last == sent[|rows|] && IsRowText(row, order, last)
    ensures AreRows(rows + [row], order, sent)
  {
    forall i: nat | i < |rows|
      ensures IsRowAt(rows + [row], order, sent, i)
    {
      assert IsRowAt(rows, order, sent, i);
    }
    assert IsRowAt(rows + [row], order, sent, |rows|);
  }

  ghost predicate FileIs(first: Log, log: Log, params: Params, rows: seq<string>) {
    log == Log(true, first.files[params.fileName(1) := Lines([params.meterLine] + rows)])
  }

  /** Every message of a meter adds exactly one line to the meter's file, below the header
      line that the first one starts the file with, whatever the file held before; no other
      file changes, and the line has each value in the column of its phase and attribute. */
  lemma {:induction false} MeterLog(logs: seq<Log>, order: seq<nat>, sent: seq<Sent>, n: nat, params: Params,
                                    toInt: string -> Option<int>)
    returns (rows: seq<string>)
    requires Message.IsPermutation(order) && AllSent(sent) && 0 < n <= |sent|
      && IsSession(logs, order, sent, params, toInt)
    requires params.ForMeter() && toInt("1") == Some(1)
    ensures |rows| == n && AreRows(rows, order, sent) && FileIs(logs[0], logs[n], params, rows)
  {
    var earlier := [];
    if n > 1 {
      earlier := MeterLog(logs, order, sent, n - 1, params, toInt);
    }
    rows := LogExtends(logs, order, sent, params, toInt, earlier);
  }

  lemma LogExtends(logs: seq<Log>, order: seq<nat>, sent: seq<Sent>, params: Params, toInt: string -> Option<int>,
                   earlier: seq<string>)
    returns (rows: seq<string>)
    requires Message.IsPermutation(order) && AllSent(sent) && AreRows(earlier, order, sent) && |earlier| < |sent|
    requires IsSession(logs, order, sent, params, toInt) && params.ForMeter()
    requires toInt("1") == Some(1)
    requires earlier == [] || FileIs(logs[0], logs[|earlier|], params, earlier)
    ensures |rows| == |earlier| + 1 && AreRows(rows, order, sent) && FileIs(logs[0], logs[|rows|], params, rows)
  {
    var n := |earlier|;
    var row := SessionStep(logs, order, sent, n, params, toInt);
    rows := LineExtends(logs[0], logs[n], logs[n + 1], order, sent, params, earlier, row, sent[n]);
  }

  lemma LineExtends(first: Log, before: Log, after: Log, order: seq<nat>, sent: seq<Sent>, params: Params,
                    earlier: seq<string>, row: string, last: Sent)
    returns (rows: seq<string>)
    requires Message.IsOrder(order) && AllSent(sent) && AreRows(earlier, order, sent) && |earlier| < |sent|
    requires last == sent[|earlier|] && IsRowText(row, order, last) && WithLine(before, after, params, row)
    requires if earlier == [] then before == first && !first.started else FileIs(first, before, params, earlier)
    ensures |rows| == |earlier| + 1 && AreRows(rows, order, sent) && FileIs(first, after, params, rows)
  {
    rows := earlier + [row];
    RowsExtend(earlier, row, order, sent, last);
    FileExtends(first, before, after, params, earlier, row);
  }

  lemma FileExtends(first: Log, before: Log, after: Log, params: Params, rows: seq<string>, row: string)
    requires if rows == [] then before == first && !first.started else FileIs(first, before, params, rows)
    requires WithLine(before, after, params, row)
    ensures FileIs(first, after, params, rows + [row])
  {
    if rows == [] {
      FirstLine(first, after, params, row);
      assert rows + [row] == [row];
    } else {
      NextLine(first, before, after, params, rows, row);
    }
  }

  lemma LinesStep(rows: seq<string>, row: string)
    ensures Lines(rows + [row]) == Lines(rows) + row + EOL
  {
    assert (rows + [row])[..|rows|] == rows;
  }

  lemma MeterColumnsSplit()
    ensures Split(Join(MeterColumns(), ','), ',') == MeterColumns()
  {
    forall k | 0 <= k < Message.ITEMS
      ensures Free(Labels([0, 1, 2])[k], ',')
    {
      LabelIsPlain([0, 1, 2][k / Message.ATTRIBUTES], k % Message.ATTRIBUTES);
    }
    SplitOfJoin(MeterColumns(), ',');
  }

  /** One header line alone has the columns of the meter's messages: the shipped one. */
  lemma ForMeterExactly(params: Params)
    ensures params.ForMeter() <==> params.meterLine == Join(MeterColumns(), ',')
  {
    MeterColumnsSplit();
    JoinOfSplit(params.meterLine, ',');
  }
}
