/** The once-a-second message of main.cpp: thirty-three labelled values, and the fixed buffer
    that it is printed into. */
module Message {
  import opened Text

  const ATTRIBUTES: nat := 11
  const PHASES: nat := 3
  const ITEMS: nat := 33
  const BUFFER_SIZE: nat := 1000

  /** The label of an attribute, without the phase. */
  function NameOf(a: nat): string
    requires a < ATTRIBUTES
  {
    match a
    case 0 => "V_rms"
    case 1 => "I_rms"
    case 2 => "A"
    case 3 => "P"
    case 4 => "Q"
    case 5 => "Iba_rms"
    case 6 => "Ibr_rms"
    case 7 => "Iv_rms"
    case 8 => "PF"
    case 9 => "QF"
    case _ => "VF"
  }

  function PhaseName(p: nat): char
    requires p < PHASES
  {
    match p
    case 0 => 'A'
    case 1 => 'B'
    case _ => 'C'
  }

  function Label(p: nat, a: nat): string
    requires p < PHASES && a < ATTRIBUTES
  {
    NameOf(a) + ['_', PhaseName(p)]
  }

  predicate IsOrder(order: seq<nat>) {
    |order| == PHASES && forall i :: 0 <= i < PHASES ==> order[i] < PHASES
  }

  predicate IsPermutation(order: seq<nat>) {
    IsOrder(order) && forall i, j :: 0 <= i < j < PHASES ==> order[i] != order[j]
  }

  /** The label of the value that filter `k` supplies. */
  function LabelAt(order: seq<nat>, k: nat): string
    requires IsOrder(order) && k < ITEMS
  {
    Label(order[k / ATTRIBUTES], k % ATTRIBUTES)
  }

  function Item(order: seq<nat>, values: seq<string>, k: nat): string
    requires IsOrder(order) && |values| == ITEMS && k < ITEMS
  {
    LabelAt(order, k) + [':'] + values[k]
  }

  function Items(order: seq<nat>, values: seq<string>): (items: seq<string>)
    requires IsOrder(order) && |values| == ITEMS
    ensures |items| == ITEMS
  {
    seq(ITEMS, k requires 0 <= k < ITEMS => Item(order, values, k))
  }

  /** The address of the meter, then the items. */
  function Parts(items: seq<string>): seq<string> {
    ["bbb:1"] + items
  }

  function Content(order: seq<nat>, values: seq<string>): string
    requires IsOrder(order) && |values| == ITEMS
  {
    "$" + Join(Parts(Items(order, values)), ',')
  }

  // ---------------------------------------------------------------- the buffer

  /** The text so far: all up to and including the separator behind item number `n`. */
  function Printed(items: seq<string>, n: nat): string
    requires n <= |items|
  {
    "$" + Flat(Parts(items[..n]), ',')
  }

  lemma PrintedFirst(items: seq<string>)
    ensures Printed(items, 0) == "$bbb:1,"
  {
    FlatStep([], "bbb:1", ',');
    assert Parts(items[..0]) == [] + ["bbb:1"];
  }

  lemma PrintedStep(items: seq<string>, k: nat)
    requires k < |items|
    ensures Printed(items, k + 1) == Printed(items, k) + items[k] + [',']
  {
    assert Parts(items[..k + 1]) == Parts(items[..k]) + [items[k]];
    FlatStep(Parts(items[..k]), items[k], ',');
  }

  lemma {:induction false} PrintedGrows(items: seq<string>, n: nat, m: nat)
    requires n <= m <= |items|
    ensures |Printed(items, n)| <= |Printed(items, m)|
    decreases m
  {
    if n < m {
      PrintedGrows(items, n, m - 1);
      PrintedStep(items, m - 1);
    }
  }

  /** What is printed in the end is the message and a separator. */
  lemma PrintedAll(order: seq<nat>, values: seq<string>)
    requires IsOrder(order) && |values| == ITEMS
    ensures Printed(Items(order, values), ITEMS) == Content(order, values) + [',']
  {
    var items := Items(order, values);
    assert items[..ITEMS] == items;
    FlatIsJoin(Parts(items), ',');
  }

  /** The length of the names of the first `a` attributes. */
  function NamesLength(a: nat): nat
    requires a <= ATTRIBUTES
  {
    if a == 0 then 0 else NamesLength(a - 1) + |NameOf(a - 1)|
  }

  lemma AllNamesLength()
    ensures NamesLength(ATTRIBUTES) == 39
  {
    assert NamesLength(4) == 12;
    assert NamesLength(8) == 33;
  }

  function ValuesLength(values: seq<string>, n: nat): nat
    requires n <= |values|
  {
    if n == 0 then 0 else ValuesLength(values, n - 1) + |values[n - 1]|
  }

  lemma ItemLength(order: seq<nat>, values: seq<string>, k: nat)
    requires IsOrder(order) && |values| == ITEMS && k < ITEMS
    ensures |Items(order, values)[k]| == |NameOf(k % ATTRIBUTES)| + 3 + |values[k]|
  {
  }

  /** How far the message reaches; the characters of the phases do not matter. */
  lemma {:induction false} LengthIs(order: seq<nat>, values: seq<string>, n: nat)
    requires IsOrder(order) && |values| == ITEMS && n <= ITEMS
    ensures |Printed(Items(order, values), n)|
         == 7 + 39 * (n / ATTRIBUTES) + NamesLength(n % ATTRIBUTES) + 4 * n + ValuesLength(values, n)
  {
    if n == 0 {
      PrintedFirst(Items(order, values));
    } else {
      LengthIs(order, values, n - 1);
      PrintedStep(Items(order, values), n - 1);
      ItemLength(order, values, n - 1);
      NextName(n - 1);
    }
  }

  lemma NextName(m: nat)
    ensures 39 * ((m + 1) / ATTRIBUTES) + NamesLength((m + 1) % ATTRIBUTES)
         == 39 * (m / ATTRIBUTES) + NamesLength(m % ATTRIBUTES) + |NameOf(m % ATTRIBUTES)|
  {
    var q, a := m / ATTRIBUTES, m % ATTRIBUTES;
    assert NamesLength(a + 1) == NamesLength(a) + |NameOf(a)|;
    if a + 1 == ATTRIBUTES {
      AllNamesLength();
      assert m + 1 == (q + 1) * ATTRIBUTES;
      assert (m + 1) / ATTRIBUTES == q + 1 && (m + 1) % ATTRIBUTES == 0;
    } else {
      assert (m + 1) / ATTRIBUTES == q && (m + 1) % ATTRIBUTES == a + 1;
    }
  }

  /** The message fits its buffer exactly when the values take up no more than 744 characters. */
  lemma MessageFits(order: seq<nat>, values: seq<string>)
    requires IsOrder(order) && |values| == ITEMS
    ensures |Content(order, values)| + 1 <= BUFFER_SIZE <==> ValuesLength(values, ITEMS) <= 744
    ensures |Content(order, values)| + 1 == |Printed(Items(order, values), ITEMS)|
  {
    LengthIs(order, values, ITEMS);
    AllNamesLength();
    PrintedAll(order, values);
  }

  /** `sprintf` of a text that is already formatted: its characters and a zero. */
  method Print(message: array<char>, offset: nat, text: string) returns (written: nat)
    requires offset + |text| < message.Length
    modifies message
    ensures written == |text|
    ensures message[..offset + written] == old(message[..offset]) + text && message[offset + written] == '\0'
  {
    for i := 0 to |text|
      invariant message[..offset] == old(message[..offset])
      invariant message[offset..offset + i] == text[..i]
    {
      message[offset + i] := text[i];
    }
    message[offset + |text|] := '\0';
    assert message[..offset + |text|] == message[..offset] + message[offset..offset + |text|];
    return |text|;
  }

  lemma ItemAt(order: seq<nat>, values: seq<string>, i: nat, j: nat)
    requires IsOrder(order) && |values| == ITEMS && i < PHASES && j < ATTRIBUTES
    ensures Items(order, values)[j + i * ATTRIBUTES] == Label(order[i], j) + [':'] + values[j + i * ATTRIBUTES]
  {
    var k := j + i * ATTRIBUTES;
    assert k / ATTRIBUTES == i && k % ATTRIBUTES == j;
  }

  /** Prints item `k` behind the text so far, and a separator behind it. */
  method PrintItem(message: array<char>, offset: nat, item: string, ghost items: seq<string>, ghost k: nat)
    returns (next: nat)
    requires k < |items| && item == items[k] && |Printed(items, |items|)| <= message.Length
    requires offset <= message.Length && message[..offset] == Printed(items, k)
    modifies message
    ensures next <= message.Length && message[..next] == Printed(items, k + 1)
  {
    PrintedStep(items, k);
    PrintedGrows(items, k + 1, |items|);
    var n := Print(message, offset, item);
    message[offset + n] := ',';
    next := offset + n + 1;
    assert message[..next] == message[..offset + n] + [','];
  }

  /** Prints the message. Every write is inside the buffer, and the text is the message with
      a zero in the place of the last separator. */
  method BuildMessage(message: array<char>, order: seq<nat>, values: seq<string>) returns (end: nat)
    requires message.Length == BUFFER_SIZE && IsOrder(order) && |values| == ITEMS
    requires ValuesLength(values, ITEMS) <= 744
    modifies message
    ensures end < message.Length && message[..end] == Content(order, values) && message[end] == '\0'
  {
    ghost var items := Items(order, values);
    MessageFits(order, values);
    PrintedFirst(items);
    var offset := Print(message, 0, "$bbb:1,");
    for i := 0 to PHASES
      invariant 0 <= offset <= message.Length && message[..offset] == Printed(items, i * ATTRIBUTES)
    {
      for j := 0 to ATTRIBUTES
        invariant 0 <= offset <= message.Length && message[..offset] == Printed(items, j + i * ATTRIBUTES)
      {
        ItemAt(order, values, i, j);
        offset := PrintItem(message, offset, Label(order[i], j) + [':'] + values[j + i * ATTRIBUTES], items,
                            j + i * ATTRIBUTES);
      }
    }
    PrintedAll(order, values);
    end := offset - 1;
    assert message[..end] == message[..offset][..end];
    message[end] := '\0';
  }
}
