/** The PRU interrupt controller set-up of prussdrv.c: packed registers against the mapping
    tables they are packed from. */
module Interrupts {

  /** A C `short` that means "no entry". */
  const NONE: bv16 := 0xFFFF
  const END_OF_LIST: bv8 := 255

  /** A row of either table: an event and its channel, or a channel and its host. */
  datatype Entry = Entry(key: bv16, value: bv16)
  datatype InitData = InitData(enabled: seq<bv8>, events: seq<Entry>, hosts: seq<Entry>, hostMask: bv32)

  // Word indices of the registers.
  const GER: bv32 := 0x010 >> 2
  const HIEISR: bv32 := 0x034 >> 2
  const SECR1: bv32 := 0x280 >> 2
  const SECR2: bv32 := 0x284 >> 2
  const ESR1: bv32 := 0x300 >> 2
  const ESR2: bv32 := 0x304 >> 2
  const CMR1: bv32 := 0x400
  const HMR1: bv32 := 0x800
  const SIPR1: bv32 := 0xD00 >> 2
  const SIPR2: bv32 := 0xD04 >> 2
  const SITR1: bv32 := 0xD80 >> 2
  const SITR2: bv32 := 0xD84 >> 2
  const LAST: bv32 := 0x1500 >> 2

  /** A register by its word index in the controller's address space. */
  datatype Register = Word(index: bv32)

  type Registers = map<Register, bv32>

  ghost predicate Complete(regs: Registers) {
    forall w: bv32 :: w <= LAST ==> Word(w) in regs
  }

  /** The register word that holds the field of `id`, four fields to a word. */
  function IndexOf(base: bv32, id: bv16): bv32 {
    (base + ((id as bv32) & !3)) >> 2
  }

  function WordOf(base: bv32, id: bv16): Register {
    Word(IndexOf(base, id))
  }

  function Lane(id: bv16): bv32 {
    ((id as bv32) & 3) << 3
  }

  /** The field of `id`, a byte of which only the low four bits are ever set. */
  function Field(regs: Registers, base: bv32, id: bv16): bv32
    requires WordOf(base, id) in regs
  {
    (regs[WordOf(base, id)] >> Lane(id)) & 0xFF
  }

  lemma FieldOfOr(reg: bv32, value: bv32, base: bv32, written: bv16, read: bv16)
    requires base == CMR1 || base == HMR1
    requires written < 64 && read < 64 && WordOf(base, written) == WordOf(base, read)
    ensures ((reg | ((value & 0xF) << Lane(written))) >> Lane(read)) & 0xFF
         == ((reg >> Lane(read)) & 0xFF) | (if written == read then value & 0xF else 0)
  {
  }

  lemma WordsInRange(base: bv32, id: bv16)
    requires (base == CMR1 && id < 64) || (base == HMR1 && id < 12)
    ensures IndexOf(base, id) <= LAST && InBlock(IndexOf(base, id), base)
  {
  }

  /** The words of the channel map, or those of the host map. */
  predicate InBlock(w: bv32, base: bv32) {
    if base == CMR1 then 0x100 <= w < 0x110 else 0x200 <= w < 0x203
  }

  // ---------------------------------------------------------------- the tables

  predicate Ends(e: Entry) {
    e.key == NONE || e.value == NONE
  }

  /** How many entries come before the terminator. */
  function Active(table: seq<Entry>): (n: nat)
    ensures n <= |table|
    ensures forall i :: 0 <= i < n ==> !Ends(table[i])
    ensures n < |table| ==> Ends(table[n])
  {
    if table == [] || Ends(table[0]) then 0
    else
      var n := Active(table[1..]);
      assert forall i :: 0 < i <= n ==> table[i] == table[1..][i - 1];
      1 + n
  }

  /** The bits that an entry puts into the field of `id`. */
  function Contribution(e: Entry, id: bv16): bv32 {
    if e.key == id then (e.value as bv32) & 0xF else 0
  }

  /** The bits that the first `n` entries put into the field of `id`. */
  function Packed(table: seq<Entry>, n: nat, id: bv16): bv32
    requires n <= |table|
  {
    if n == 0 then 0
    else Packed(table, n - 1, id) | Contribution(table[n - 1], id)
  }

  /** The documented range of a table: keys below `keys`, values below ten, and an end. */
  ghost predicate InRange(table: seq<Entry>, keys: bv16) {
    && Active(table) < |table|
    && forall i :: 0 <= i < Active(table) ==> table[i].key < keys && table[i].value < 10
  }

  /** A `short` as the `unsigned int` it is compared with. */
  function Extend(x: bv16): bv32 {
    if x >= 0x8000 then (x as bv32) | 0xFFFF0000 else x as bv32
  }

  /** The value of the first active entry for `id`. */
  function Lookup(table: seq<Entry>, from: nat, id: bv32): bv16
    requires from <= Active(table)
    decreases Active(table) - from
  {
    if from == Active(table) then NONE
    else if Extend(table[from].key) == id then table[from].value
    else Lookup(table, from + 1, id)
  }

  ghost predicate DistinctKeys(table: seq<Entry>) {
    forall i, j :: 0 <= i < j < Active(table) ==> table[i].key != table[j].key
  }

  lemma {:induction false} PackedMissing(table: seq<Entry>, n: nat, id: bv16)
    requires n <= |table| && forall i :: 0 <= i < n ==> table[i].key != id
    ensures Packed(table, n, id) == 0
  {
    if n > 0 {
      PackedMissing(table, n - 1, id);
    }
  }

  /** With entry `first` the first for `id`, its bits are there, and the field holds more
      than them exactly when a later entry for `id` brings a bit that it lacks. */
  lemma {:induction false} PackedFromFirst(table: seq<Entry>, first: nat, n: nat, id: bv16)
    requires first < n <= |table| && table[first].key == id
    requires forall i :: 0 <= i < first ==> table[i].key != id
    ensures var v := Contribution(table[first], id);
            && Packed(table, n, id) | v == Packed(table, n, id)
            && (Packed(table, n, id) == v <==> forall i :: first <= i < n ==> Contribution(table[i], id) | v == v)
    decreases n
  {
    var v := Contribution(table[first], id);
    if n == first + 1 {
      PackedMissing(table, first, id);
    } else {
      PackedFromFirst(table, first, n - 1, id);
      OrCases(Packed(table, n - 1, id), Contribution(table[n - 1], id), v);
    }
  }

  lemma OrCases(p: bv32, w: bv32, v: bv32)
    requires p | v == p
    ensures (p | w) | v == p | w
    ensures p | w == v <==> p == v && w | v == v
  {
    OrKeeps(p, w, v);
    if p | w == v {
      OrEqual(p, w, v);
    }
  }

  lemma OrKeeps(p: bv32, w: bv32, v: bv32)
    requires p | v == p
    ensures (p | w) | v == p | w
    ensures p == v && w | v == v ==> p | w == v
  {
    assert (p | w) | v == (p | v) | w;
    assert v | w == w | v;
  }

  lemma OrEqual(p: bv32, w: bv32, v: bv32)
    requires p | v == p && p | w == v
    ensures p == v && w | v == v
  {
    assert p | (p | w) == p | w;
    assert w | (p | w) == p | w;
  }

  lemma {:induction false} LookupMissing(table: seq<Entry>, from: nat, id: bv16)
    requires from <= Active(table) && id < 64
    requires forall i :: from <= i < Active(table) ==> table[i].key != id
    ensures Lookup(table, from, id as bv32) == NONE
    decreases Active(table) - from
  {
    if from < Active(table) {
      ExtendIsInjective(table[from].key, id);
      LookupMissing(table, from + 1, id);
    }
  }

  lemma {:induction false} LookupFirst(table: seq<Entry>, from: nat, first: nat, id: bv16)
    requires from <= first < Active(table) && id < 64 && table[first].key == id
    requires forall i :: from <= i < first ==> table[i].key != id
    ensures Lookup(table, from, id as bv32) == table[first].value
    decreases first - from
  {
    ExtendIsInjective(table[from].key, id);
    if from < first {
      LookupFirst(table, from + 1, first, id);
    }
  }

  lemma ExtendIsInjective(key: bv16, id: bv16)
    requires id < 64
    ensures Extend(key) == id as bv32 <==> key == id
  {
  }

  /** An unmapped id has an empty field and no entry. */
  lemma UnmappedAgrees(table: seq<Entry>, id: bv16)
    requires id < 64 && forall i :: 0 <= i < Active(table) ==> table[i].key != id
    ensures Packed(table, Active(table), id) == 0 && Lookup(table, 0, id as bv32) == NONE
  {
    PackedMissing(table, Active(table), id);
    LookupMissing(table, 0, id);
  }

  /** For a mapped id the packed field equals what the search of the table returns exactly
      when no later entry for the same id brings a bit that the first one lacks. */
  lemma MappedAgrees(table: seq<Entry>, first: nat, id: bv16)
    requires id < 64 && InRange(table, 64) && first < Active(table) && table[first].key == id
    requires forall i :: 0 <= i < first ==> table[i].key != id
    ensures Lookup(table, 0, id as bv32) == table[first].value
    ensures Packed(table, Active(table), id) == Lookup(table, 0, id as bv32) as bv32 <==>
            forall i :: first <= i < Active(table) && table[i].key == id ==>
                table[i].value | table[first].value == table[first].value
  {
    PackedFromFirst(table, first, Active(table), id);
    LookupFirst(table, 0, first, id);
    forall i | 0 <= i < Active(table)
      ensures Contribution(table[i], id) | Contribution(table[first], id) == Contribution(table[first], id)
              <==> (table[i].key == id ==> table[i].value | table[first].value == table[first].value)
    {
      ContributionOfSmall(table[i], table[first], id);
    }
  }

  lemma ContributionOfSmall(e: Entry, f: Entry, id: bv16)
    requires e.value < 10 && f.value < 10 && f.key == id
    ensures Contribution(f, id) == f.value as bv32
    ensures Contribution(e, id) | Contribution(f, id) == Contribution(f, id)
            <==> (e.key == id ==> e.value | f.value == f.value)
  {
    NibbleOfSmall(e.value, f.value);
  }

  lemma NibbleOfSmall(a: bv16, b: bv16)
    requires a < 10 && b < 10
    ensures (a as bv32) & 0xF == a as bv32
    ensures ((a as bv32) & 0xF) | ((b as bv32) & 0xF) == (b as bv32) & 0xF <==> a | b == b
  {
  }

  /** With distinct keys the packed fields and the table always agree. */
  lemma DistinctAgrees(table: seq<Entry>, first: nat)
    requires InRange(table, 64) && DistinctKeys(table) && first < Active(table)
    ensures Packed(table, Active(table), table[first].key) == Lookup(table, 0, table[first].key as bv32) as bv32
  {
    MappedAgrees(table, first, table[first].key);
    assert table[first].value | table[first].value == table[first].value;
  }

  // ---------------------------------------------------------------- the enabled list

  function BitOf(e: bv8): bv32
    requires e < 32
  {
    (1 as bv32) << e
  }

  predicate HasBit(m: bv32, b: bv8)
    requires b < 32
  {
    (m >> b) & 1 == 1
  }

  /** Where the list of enabled events ends, or the first event out of range. */
  function Enabled(list: seq<bv8>): (n: nat)
    ensures n <= |list|
    ensures forall i :: 0 <= i < n ==> list[i] < 64
    ensures n < |list| ==> list[n] >= 64
  {
    if list == [] || list[0] >= 64 then 0
    else
      var n := Enabled(list[1..]);
      assert forall i :: 0 < i <= n ==> list[i] == list[1..][i - 1];
      1 + n
  }

  /** Events 0 to 31 go to one mask register, events 32 to 63 to the other. */
  function AddEvent(mask: bv32, e: bv8, high: bool): bv32
    requires e < 64
  {
    if high && e >= 32 then mask + BitOf(e - 32)
    else if !high && e < 32 then mask + BitOf(e)
    else mask
  }

  function EventOf(b: bv8, high: bool): bv8 {
    if high then b + 32 else b
  }

  /** The mask of the first `n` events, built by addition. */
  function Mask(list: seq<bv8>, n: nat, high: bool): bv32
    requires n <= Enabled(list)
  {
    if n == 0 then 0 else AddEvent(Mask(list, n - 1, high), list[n - 1], high)
  }

  lemma NoBits(b: bv8)
    requires b < 32
    ensures !HasBit(0, b)
  {
  }

  lemma MemberOfExtended(s: seq<bv8>, e: bv8, x: bv8)
    ensures x in s + [e] <==> x in s || x == e
  {
  }

  /** The bit of the mask register that event `e` goes to. */
  function BitNumber(e: bv8, high: bool): (b: bv8)
    requires e < 64
    ensures b < 32
  {
    if high && e >= 32 then e - 32 else if !high && e < 32 then e else 0
  }

  /** Whether an event goes to the mask register of a bank. */
  predicate InBank(e: bv8, high: bool) {
    high == (e >= 32)
  }

  /** The mask that enables exactly the first `n` events. */
  function Union(list: seq<bv8>, n: nat, high: bool): bv32
    requires n <= Enabled(list)
  {
    if n == 0 then 0
    else if InBank(list[n - 1], high) then Union(list, n - 1, high) | BitOf(BitNumber(list[n - 1], high))
    else Union(list, n - 1, high)
  }

  lemma OrBit(u: bv32, e: bv8, b: bv8)
    requires e < 32 && b < 32
    ensures HasBit(u | BitOf(e), b) <==> b == e || HasBit(u, b)
  {
  }

  lemma BankBit(e: bv8, high: bool, b: bv8)
    requires e < 64 && b < 32
    ensures InBank(e, high) ==> (BitNumber(e, high) == b <==> e == EventOf(b, high))
    ensures !InBank(e, high) ==> e != EventOf(b, high)
  {
  }

  /** Bit `b` of the union is set exactly when its event is listed, repeated or not. */
  lemma {:induction false} UnionBits(list: seq<bv8>, n: nat, high: bool, b: bv8)
    requires n <= Enabled(list) && b < 32
    ensures HasBit(Union(list, n, high), b) <==> EventOf(b, high) in list[..n]
  {
    if n == 0 {
      NoBits(b);
    } else {
      var e, rest := list[n - 1], list[..n - 1];
      assert list[..n] == rest + [e];
      MemberOfExtended(rest, e, EventOf(b, high));
      UnionBits(list, n - 1, high, b);
      OrBit(Union(list, n - 1, high), BitNumber(e, high), b);
      BankBit(e, high, b);
    }
  }

  // The 32-bit addition of the masks, as a value, so that sums are compared as sums and not
  // bit by bit.

  const PLUS: (bv32, bv32) -> bv32 := (x: bv32, y: bv32) => x + y

  ghost predicate Rearranges(add: (bv32, bv32) -> bv32, u: bv32, x: bv32, y: bv32) {
    add(add(u, x), y) == add(u, add(x, y)) == add(add(u, y), x)
  }

  /** Or-ing in a bit adds it, or changes nothing when it is there. */
  ghost predicate OrAdds(add: (bv32, bv32) -> bv32, u: bv32, b: bv8)
    requires b < 32
  {
    && (HasBit(u, b) ==> u | BitOf(b) == u)
    && (!HasBit(u, b) ==> u | BitOf(b) == add(u, BitOf(b)))
  }

  ghost predicate IsAddition(add: (bv32, bv32) -> bv32) {
    && add(0, 0) == 0
    && (forall u, x, y :: Rearranges(add, u, x, y))
    && (forall u, b: bv8 :: b < 32 ==> OrAdds(add, u, b))
  }

  lemma PlusIsAddition()
    ensures IsAddition(PLUS)
  {
    forall u, x, y
      ensures Rearranges(PLUS, u, x, y)
    {
      PlusRearranges(u, x, y);
    }
    forall u, b: bv8 | b < 32
      ensures OrAdds(PLUS, u, b)
    {
      PlusOrAdds(u, b);
    }
  }

  lemma SumOfThree(p: bv32, u: bv32, x: bv32, y: bv32)
    requires p == u + x
    ensures PLUS(p, y) == u + x + y
  {
  }

  lemma PlusTwice(u: bv32, x: bv32, y: bv32)
    ensures PLUS(PLUS(u, x), y) == u + x + y
  {
    SumOfThree(PLUS(u, x), u, x, y);
  }

  lemma PlusCommutes(u: bv32, x: bv32)
    ensures PLUS(u, x) == PLUS(x, u)
  {
  }

  lemma OrderOfSum(u: bv32, x: bv32, y: bv32)
    ensures u + x + y == x + y + u == u + y + x
  {
  }

  lemma PlusRearranges(u: bv32, x: bv32, y: bv32)
    ensures Rearranges(PLUS, u, x, y)
  {
    ThreeSums(u, x, y);
    PlusCommutes(u, PLUS(x, y));
  }

  lemma ThreeSums(u: bv32, x: bv32, y: bv32)
    ensures PLUS(PLUS(u, x), y) == PLUS(PLUS(x, y), u) == PLUS(PLUS(u, y), x)
  {
    OrderOfSum(u, x, y);
    PlusTwice(u, x, y);
    PlusTwice(x, y, u);
    PlusTwice(u, y, x);
  }

  lemma BitIsAdded(u: bv32, b: bv8)
    requires b < 32
    ensures HasBit(u, b) ==> u | BitOf(b) == u
    ensures !HasBit(u, b) ==> u | BitOf(b) == u + BitOf(b)
  {
  }

  lemma PlusOrAdds(u: bv32, b: bv8)
    requires b < 32
    ensures OrAdds(PLUS, u, b)
  {
    BitIsAdded(u, b);
  }

  /** The mask of the first `n` events, with any addition. */
  function Total(list: seq<bv8>, n: nat, high: bool, add: (bv32, bv32) -> bv32): bv32
    requires n <= Enabled(list)
  {
    if n == 0 then 0
    else if InBank(list[n - 1], high) then add(Total(list, n - 1, high, add), BitOf(BitNumber(list[n - 1], high)))
    else Total(list, n - 1, high, add)
  }

  /** What the repetitions among the first `n` events add up to. */
  function Excess(list: seq<bv8>, n: nat, high: bool, add: (bv32, bv32) -> bv32): bv32
    requires n <= Enabled(list)
  {
    if n == 0 then 0
    else if InBank(list[n - 1], high) && list[n - 1] in list[..n - 1] then
      add(Excess(list, n - 1, high, add), BitOf(BitNumber(list[n - 1], high)))
    else Excess(list, n - 1, high, add)
  }

  lemma {:induction false} TotalSplits(list: seq<bv8>, n: nat, high: bool, add: (bv32, bv32) -> bv32)
    requires n <= Enabled(list) && IsAddition(add)
    ensures Total(list, n, high, add) == add(Union(list, n, high), Excess(list, n, high, add))
  {
    if n > 0 {
      TotalSplits(list, n - 1, high, add);
      if InBank(list[n - 1], high) {
        TotalSplitsInBank(list, n, high, add);
      }
    }
  }

  lemma TotalSplitsInBank(list: seq<bv8>, n: nat, high: bool, add: (bv32, bv32) -> bv32)
    requires 0 < n <= Enabled(list) && IsAddition(add) && InBank(list[n - 1], high)
    requires Total(list, n - 1, high, add) == add(Union(list, n - 1, high), Excess(list, n - 1, high, add))
    ensures Total(list, n, high, add) == add(Union(list, n, high), Excess(list, n, high, add))
  {
    SeenBit(list, n, high);
    UnionStep(list, n, high);
    TotalStepAt(Union(list, n - 1, high), Excess(list, n - 1, high, add), BitNumber(list[n - 1], high),
                list[n - 1] in list[..n - 1], Union(list, n, high), Excess(list, n, high, add), add);
  }

  ghost predicate Unites(u: bv32, b: bv8, v: bv32)
    requires b < 32
  {
    v == u | BitOf(b)
  }

  lemma UnionStep(list: seq<bv8>, n: nat, high: bool)
    requires 0 < n <= Enabled(list) && InBank(list[n - 1], high)
    ensures Unites(Union(list, n - 1, high), BitNumber(list[n - 1], high), Union(list, n, high))
  {
  }

  lemma TotalStepAt(u: bv32, x: bv32, b: bv8, seen: bool, v: bv32, y: bv32, add: (bv32, bv32) -> bv32)
    requires b < 32 && IsAddition(add) && (seen <==> HasBit(u, b)) && Unites(u, b, v)
    requires y == if seen then add(x, BitOf(b)) else x
    ensures add(add(u, x), BitOf(b)) == add(v, y)
  {
    TotalStep(u, x, b, add);
  }

  /** The bit of an event is already in the union exactly when the event was listed before. */
  lemma SeenBit(list: seq<bv8>, n: nat, high: bool)
    requires 0 < n <= Enabled(list) && InBank(list[n - 1], high)
    ensures HasBit(Union(list, n - 1, high), BitNumber(list[n - 1], high)) <==> list[n - 1] in list[..n - 1]
  {
    var b := BitNumber(list[n - 1], high);
    UnionBits(list, n - 1, high, b);
    BankBit(list[n - 1], high, b);
  }

  lemma TotalStep(u: bv32, x: bv32, b: bv8, add: (bv32, bv32) -> bv32)
    requires b < 32 && IsAddition(add)
    ensures HasBit(u, b) ==> add(add(u, x), BitOf(b)) == add(u | BitOf(b), add(x, BitOf(b)))
    ensures !HasBit(u, b) ==> add(add(u, x), BitOf(b)) == add(u | BitOf(b), x)
  {
    assert Rearranges(add, u, x, BitOf(b)) && OrAdds(add, u, b);
  }

  lemma {:induction false} MaskIsTotal(list: seq<bv8>, n: nat, high: bool)
    requires n <= Enabled(list)
    ensures Mask(list, n, high) == Total(list, n, high, PLUS)
  {
    if n > 0 {
      MaskIsTotal(list, n - 1, high);
      BankEvent(Mask(list, n - 1, high), list[n - 1], high);
    }
  }

  lemma BankEvent(mask: bv32, e: bv8, high: bool)
    requires e < 64
    ensures AddEvent(mask, e, high) == if InBank(e, high) then PLUS(mask, BitOf(BitNumber(e, high))) else mask
  {
  }

  lemma PlusNothing(u: bv32, x: bv32)
    ensures PLUS(u, x) == u <==> x == 0
  {
  }

  /** The mask built by addition enables exactly the listed events if and only if the
      repetitions in its bank add up to nothing. */
  lemma MaskIsExact(list: seq<bv8>, n: nat, high: bool)
    requires n <= Enabled(list)
    ensures Mask(list, n, high) == Union(list, n, high) <==> Excess(list, n, high, PLUS) == 0
  {
    PlusIsAddition();
    TotalSplits(list, n, high, PLUS);
    MaskIsTotal(list, n, high);
    PlusNothing(Union(list, n, high), Excess(list, n, high, PLUS));
  }

  lemma {:induction false} DistinctHasNoExcess(list: seq<bv8>, n: nat, high: bool)
    requires n <= Enabled(list) && forall i, j :: 0 <= i < j < n ==> list[i] != list[j]
    ensures Excess(list, n, high, PLUS) == 0
  {
    if n > 0 {
      DistinctHasNoExcess(list, n - 1, high);
    }
  }

  /** With distinct events, bit `b` of the mask is set exactly when its event is listed. */
  lemma MaskBits(list: seq<bv8>, n: nat, high: bool, b: bv8)
    requires n <= Enabled(list) && b < 32
    requires forall i, j :: 0 <= i < j < n ==> list[i] != list[j]
    ensures HasBit(Mask(list, n, high), b) <==> EventOf(b, high) in list[..n]
  {
    DistinctHasNoExcess(list, n, high);
    MaskIsExact(list, n, high);
    UnionBits(list, n, high, b);
  }

  /** Addition is not union: an event listed twice is left out, and its successor is
      enabled instead. */
  lemma RepeatedEventCarries(e: bv8)
    requires e < 31
    ensures Enabled([e, e, END_OF_LIST]) == 2
    ensures !HasBit(Mask([e, e, END_OF_LIST], 2, false), e) && HasBit(Mask([e, e, END_OF_LIST], 2, false), e + 1)
  {
    var list := [e, e, END_OF_LIST];
    assert list[1..] == [e, END_OF_LIST] && list[1..][1..] == [END_OF_LIST];
    assert Enabled([END_OF_LIST]) == 0;
    assert Enabled([e, END_OF_LIST]) == 1;
    assert Mask(list, 1, false) == BitOf(e);
    DoubledBit(e);
  }

  lemma DoubledBit(e: bv8)
    requires e < 31
    ensures !HasBit(BitOf(e) + BitOf(e), e) && HasBit(BitOf(e) + BitOf(e), e + 1)
  {
  }

  // ---------------------------------------------------------------- the driver

  const CMR_IDS: bv16 := 64
  const HMR_IDS: bv16 := 12

  ghost predicate FieldIs(regs: Registers, base: bv32, id: bv16, value: bv32) {
    WordOf(base, id) in regs && Field(regs, base, id) == value
  }

  /** Every field of the register block holds what the first `n` entries pack into it. */
  ghost predicate Loaded(regs: Registers, base: bv32, ids: bv16, table: seq<Entry>, n: nat)
    requires n <= |table|
  {
    forall id: bv16 :: id < ids ==> FieldIs(regs, base, id, Packed(table, n, id))
  }

  /** `after` is `before` with the low four bits of `value` or-ed into the field of `key`. */
  ghost predicate IsWrite(before: Registers, after: Registers, base: bv32, key: bv16, value: bv16) {
    && WordOf(base, key) in before
    && after == before[WordOf(base, key) := before[WordOf(base, key)] | (((value as bv32) & 0xF) << Lane(key))]
  }

  ghost predicate IsUnion(p: bv32, q: bv32, next: bv32) {
    next == p | q
  }

  lemma LoadStep(before: Registers, after: Registers, base: bv32, ids: bv16, table: seq<Entry>, n: nat)
    requires (base == CMR1 && ids == CMR_IDS) || (base == HMR1 && ids == HMR_IDS)
    requires n < |table| && table[n].key < ids && Loaded(before, base, ids, table, n)
    requires IsWrite(before, after, base, table[n].key, table[n].value)
    ensures Loaded(after, base, ids, table, n + 1)
  {
    var m := n + 1;
    forall id: bv16 | id < ids
      ensures FieldIs(after, base, id, Packed(table, m, id))
    {
      assert FieldIs(before, base, id, Packed(table, n, id));
      NarrowId(id, table[n].key, ids);
      PackedStep(table, n, id);
      LoadStepAt(before, after, base, table[n], id, Packed(table, n, id), Packed(table, m, id));
    }
  }

  lemma LoadStepAt(before: Registers, after: Registers, base: bv32, e: Entry, id: bv16, p: bv32, next: bv32)
    requires base == CMR1 || base == HMR1
    requires e.key < 64 && id < 64 && FieldIs(before, base, id, p)
    requires IsUnion(p, Contribution(e, id), next) && IsWrite(before, after, base, e.key, e.value)
    ensures FieldIs(after, base, id, next)
  {
    FieldAfterWrite(before, after, base, e, id);
  }

  lemma NarrowId(id: bv16, key: bv16, ids: bv16)
    requires id < ids && key < ids && (ids == CMR_IDS || ids == HMR_IDS)
    ensures id < 64 && key < 64
  {
  }

  lemma PackedStep(table: seq<Entry>, n: nat, id: bv16)
    requires n < |table|
    ensures IsUnion(Packed(table, n, id), Contribution(table[n], id), Packed(table, n + 1, id))
  {
  }

  lemma FieldAfterWrite(before: Registers, after: Registers, base: bv32, e: Entry, id: bv16)
    requires base == CMR1 || base == HMR1
    requires e.key < 64 && id < 64 && WordOf(base, id) in before && IsWrite(before, after, base, e.key, e.value)
    ensures Field(after, base, id) == Field(before, base, id) | Contribution(e, id)
  {
    if WordOf(base, id) == WordOf(base, e.key) {
      FieldOfOr(before[WordOf(base, id)], e.value as bv32, base, e.key, id);
    } else {
      OrZero(Field(before, base, id));
    }
  }

  lemma OrZero(x: bv32)
    ensures x | 0 == x
  {
  }

  ghost predicate Cleared(regs: Registers, base: bv32) {
    forall w: bv32 :: InBlock(w, base) ==> Word(w) in regs && regs[Word(w)] == 0
  }

  /** Outside the block nothing has changed. */
  ghost predicate KeptOutside(before: Registers, after: Registers, base: bv32) {
    forall w: bv32 :: Word(w) in before && !InBlock(w, base) ==> Word(w) in after && after[Word(w)] == before[Word(w)]
  }

  lemma ClearedIsLoaded(regs: Registers, base: bv32, ids: bv16, table: seq<Entry>)
    requires (base == CMR1 && ids == CMR_IDS) || (base == HMR1 && ids == HMR_IDS)
    requires Cleared(regs, base)
    ensures Loaded(regs, base, ids, table, 0)
  {
    forall id: bv16 | id < ids
      ensures FieldIs(regs, base, id, 0)
    {
      WordsInRange(base, id);
      ZeroField(Lane(id));
    }
  }

  lemma ZeroField(lane: bv32)
    requires lane < 32
    ensures ((0 as bv32) >> lane) & 0xFF == 0
  {
  }

  /** A word that the preparation of the controller settles. */
  predicate IsSetting(w: bv32) {
    InBlock(w, CMR1) || InBlock(w, HMR1) || w == SIPR1 || w == SIPR2 || w == SITR1 || w == SITR2
  }

  ghost predicate SettingsKept(before: Registers, after: Registers) {
    forall w: bv32 :: IsSetting(w) && Word(w) in before ==> Word(w) in after && after[Word(w)] == before[Word(w)]
  }

  /** Writes outside a block leave its fields alone. */
  lemma LoadedKept(before: Registers, after: Registers, base: bv32, ids: bv16, table: seq<Entry>, n: nat)
    requires (base == CMR1 && ids == CMR_IDS) || (base == HMR1 && ids == HMR_IDS)
    requires n <= |table| && Loaded(before, base, ids, table, n)
    requires forall w: bv32 :: InBlock(w, base) && Word(w) in before ==>
               Word(w) in after && after[Word(w)] == before[Word(w)]
    ensures Loaded(after, base, ids, table, n)
  {
    forall id: bv16 | id < ids
      ensures FieldIs(after, base, id, Packed(table, n, id))
    {
      assert FieldIs(before, base, id, Packed(table, n, id));
      WordsInRange(base, id);
    }
  }

  ghost predicate Holds(regs: Registers, word: bv32, value: bv32) {
    Word(word) in regs && regs[Word(word)] == value
  }

  /** Both tables are loaded; all events are of active-high polarity and of pulse type. */
  ghost predicate Prepared(regs: Registers, data: InitData) {
    && Loaded(regs, CMR1, CMR_IDS, data.events, Active(data.events))
    && Loaded(regs, HMR1, HMR_IDS, data.hosts, Active(data.hosts))
    && Holds(regs, SIPR1, 0xFFFFFFFF) && Holds(regs, SIPR2, 0xFFFFFFFF) && Holds(regs, SITR1, 0)
    && Holds(regs, SITR2, 0)
  }

  lemma PreparedKept(before: Registers, after: Registers, data: InitData)
    requires Prepared(before, data) && SettingsKept(before, after)
    ensures Prepared(after, data)
  {
    LoadedKept(before, after, CMR1, CMR_IDS, data.events, Active(data.events));
    LoadedKept(before, after, HMR1, HMR_IDS, data.hosts, Active(data.hosts));
    assert IsSetting(SIPR1) && IsSetting(SIPR2) && IsSetting(SITR1) && IsSetting(SITR2);
  }

  lemma BlocksApart(w: bv32)
    ensures !(InBlock(w, CMR1) && InBlock(w, HMR1))
    ensures InBlock(w, CMR1) || InBlock(w, HMR1) ==> w != SIPR1 && w != SIPR2 && w != SITR1 && w != SITR2
  {
  }

  /** The enable registers hold the masks of the list, and the controller is on. */
  ghost predicate Started(regs: Registers, data: InitData) {
    var n := Enabled(data.enabled);
    && Holds(regs, ESR1, Mask(data.enabled, n, false)) && Holds(regs, SECR1, Mask(data.enabled, n, false))
    && Holds(regs, ESR2, Mask(data.enabled, n, true)) && Holds(regs, SECR2, Mask(data.enabled, n, true))
    && Holds(regs, GER, 1)
  }

  /** Once started, with distinct events, an event is enabled in its register exactly when it
      is listed. */
  lemma EnabledExactly(regs: Registers, data: InitData, e: bv8)
    requires Started(regs, data) && e < 64
    requires forall i, j :: 0 <= i < j < Enabled(data.enabled) ==> data.enabled[i] != data.enabled[j]
    ensures var word := if e < 32 then ESR1 else ESR2;
            HasBit(regs[Word(word)], if e < 32 then e else e - 32) <==> e in data.enabled[..Enabled(data.enabled)]
  {
    var n := Enabled(data.enabled);
    if e < 32 {
      MaskBits(data.enabled, n, false, e);
    } else {
      HighEvent(e);
      MaskBits(data.enabled, n, true, e - 32);
    }
  }

  lemma HighEvent(e: bv8)
    requires 32 <= e < 64
    ensures e - 32 < 32 && EventOf(e - 32, true) == e
  {
  }

  predicate IsNegative(x: bv16) {
    x >= 0x8000
  }

  function HostResult(found: bv16): bv16 {
    if found == NONE then NONE else found - 2
  }

  function EventToHost(data: InitData, eventnum: bv32): bv16 {
    var channel := Lookup(data.events, 0, eventnum);
    if IsNegative(channel) then channel else HostResult(Lookup(data.hosts, 0, Extend(channel)))
  }

  /** The channel field of a mapped event is what the event getter returns. */
  lemma EventFieldAgrees(regs: Registers, table: seq<Entry>, i: nat)
    requires InRange(table, 64) && DistinctKeys(table) && i < Active(table)
    requires Loaded(regs, CMR1, CMR_IDS, table, Active(table))
    ensures FieldIs(regs, CMR1, table[i].key, table[i].value as bv32)
    ensures Lookup(table, 0, table[i].key as bv32) == table[i].value
  {
    DistinctAgrees(table, i);
    MappedAgrees(table, i, table[i].key);
    assert FieldIs(regs, CMR1, table[i].key, Packed(table, Active(table), table[i].key));
  }

  lemma HostFieldAgrees(regs: Registers, table: seq<Entry>, h: nat)
    requires InRange(table, 10) && DistinctKeys(table) && h < Active(table)
    requires Loaded(regs, HMR1, HMR_IDS, table, Active(table))
    ensures FieldIs(regs, HMR1, table[h].key, table[h].value as bv32)
    ensures Lookup(table, 0, table[h].key as bv32) == table[h].value && table[h].value != NONE
  {
    SmallChannel(table[h].key);
    SmallChannel(table[h].value);
    WiderRange(table);
    DistinctAgrees(table, h);
    MappedAgrees(table, h, table[h].key);
    assert FieldIs(regs, HMR1, table[h].key, Packed(table, Active(table), table[h].key));
  }

  /** Tables and registers agree. With distinct events and distinct channels, the channel
      field of every mapped event is what the event getter returns; where that channel is
      mapped too, its host field less two is what the host getter returns. */
  lemma TablesAndRegistersAgree(regs: Registers, data: InitData, i: nat, h: nat)
    requires InRange(data.events, 64) && InRange(data.hosts, 10) && DistinctKeys(data.events)
      && DistinctKeys(data.hosts)
    requires Loaded(regs, CMR1, CMR_IDS, data.events, Active(data.events))
    requires Loaded(regs, HMR1, HMR_IDS, data.hosts, Active(data.hosts))
    requires i < Active(data.events) && h < Active(data.hosts) && data.hosts[h].key == data.events[i].value
    ensures Agrees(regs, data, data.events[i].key, data.events[i].value, data.hosts[h].value)
  {
    var e, c, host := data.events[i].key, data.events[i].value, data.hosts[h].value;
    EventFieldAgrees(regs, data.events, i);
    HostFieldAgrees(regs, data.hosts, h);
    ChainedLookup(data, e, c, host);
  }

  /** The packed fields hold channel `c` for event `e` and host `host` for that channel, and
      the searches of the tables return the same. */
  ghost predicate Agrees(regs: Registers, data: InitData, e: bv16, c: bv16, host: bv16) {
    && FieldIs(regs, CMR1, e, c as bv32) && Lookup(data.events, 0, e as bv32) == c
    && FieldIs(regs, HMR1, c, host as bv32) && EventToHost(data, e as bv32) == host - 2
  }

  lemma ChainedLookup(data: InitData, e: bv16, c: bv16, host: bv16)
    requires c < 10 && Lookup(data.events, 0, e as bv32) == c && Lookup(data.hosts, 0, c as bv32) == host
      && host != NONE
    ensures EventToHost(data, e as bv32) == host - 2
  {
    SmallChannel(c);
  }

  /** An event without an entry has an empty field, and the getters say so. */
  lemma UnmappedEvent(regs: Registers, data: InitData, e: bv16)
    requires e < CMR_IDS && Loaded(regs, CMR1, CMR_IDS, data.events, Active(data.events))
    requires forall i :: 0 <= i < Active(data.events) ==> data.events[i].key != e
    ensures FieldIs(regs, CMR1, e, 0) && EventToHost(data, e as bv32) == NONE
  {
    UnmappedAgrees(data.events, e);
    assert FieldIs(regs, CMR1, e, Packed(data.events, Active(data.events), e));
  }

  predicate Unmapped(table: seq<Entry>, id: bv16) {
    forall i :: 0 <= i < Active(table) ==> table[i].key != id
  }

  // ---------------------------------------------------------------- the controller's bytes

  /** The byte of the controller at an address; its words are little-endian. */
  function ByteAt(regs: Registers, at: bv32): bv32
    requires Word(at / 4) in regs
  {
    (regs[Word(at / 4)] >> (at % 4) * 8) & 0xFF
  }

  ghost predicate ByteIs(regs: Registers, at: bv32, value: bv32) {
    Word(at / 4) in regs && ByteAt(regs, at) == value
  }

  /** Byte `id` from `at` on is what the table gives `id`: its value, or 0 for an unmapped id. */
  ghost predicate ByteListed(regs: Registers, at: bv32, table: seq<Entry>, id: bv16) {
    && (forall i :: 0 <= i < Active(table) && table[i].key == id ==>
          ByteIs(regs, at + id as bv32, table[i].value as bv32))
    && (Unmapped(table, id) ==> ByteIs(regs, at + id as bv32, 0))
  }

  /** The bytes from `at` on are the table. */
  ghost predicate IsByteTable(regs: Registers, at: bv32, ids: bv16, table: seq<Entry>) {
    forall id: bv16 :: id < ids ==> ByteListed(regs, at, table, id)
  }

  /** The channel of event `e` is kept in byte 0x400 + e. */
  lemma ChannelByte(regs: Registers, id: bv16, value: bv32)
    requires id < 64 && FieldIs(regs, CMR1, id, value)
    ensures ByteIs(regs, 0x400 + id as bv32, value)
  {
    ChannelPlace(id);
  }

  /** The host of channel `c` is kept in byte 0x800 + c. */
  lemma HostByte(regs: Registers, id: bv16, value: bv32)
    requires id < 12 && FieldIs(regs, HMR1, id, value)
    ensures ByteIs(regs, 0x800 + id as bv32, value)
  {
    HostPlace(id);
  }

  /** Byte `id` from `at` on is what the whole table packs, repeated ids included. */
  ghost predicate BytePacked(regs: Registers, at: bv32, table: seq<Entry>, id: bv16) {
    ByteIs(regs, at + id as bv32, Packed(table, Active(table), id))
  }

  ghost predicate AreBytesPacked(regs: Registers, at: bv32, ids: bv16, table: seq<Entry>) {
    forall id: bv16 :: id < ids ==> BytePacked(regs, at, table, id)
  }

  /** A loaded block, byte by byte. */
  lemma LoadedBytes(regs: Registers, base: bv32, ids: bv16, table: seq<Entry>)
    requires (base == CMR1 && ids == CMR_IDS) || (base == HMR1 && ids == HMR_IDS)
    requires Loaded(regs, base, ids, table, Active(table))
    ensures if base == CMR1 then AreBytesPacked(regs, 0x400, 64, table) else AreBytesPacked(regs, 0x800, 12, table)
  {
    var at: bv32 := if base == CMR1 then 0x400 else 0x800;
    forall id: bv16 | id < ids
      ensures BytePacked(regs, at, table, id)
    {
      var packed := Packed(table, Active(table), id);
      assert FieldIs(regs, base, id, packed);
      if base == CMR1 {
        ChannelByte(regs, id, packed);
      } else {
        HostByte(regs, id, packed);
      }
    }
  }

  lemma ChannelPlace(id: bv16)
    requires id < 64
    ensures IndexOf(CMR1, id) == (0x400 + id as bv32) / 4 && Lane(id) == (0x400 + id as bv32) % 4 * 8
  {
  }

  lemma HostPlace(id: bv16)
    requires id < 12
    ensures IndexOf(HMR1, id) == (0x800 + id as bv32) / 4 && Lane(id) == (0x800 + id as bv32) % 4 * 8
  {
  }

  lemma PackedValue(table: seq<Entry>, i: nat)
    requires InRange(table, 64) && DistinctKeys(table) && i < Active(table)
    ensures Packed(table, Active(table), table[i].key) == table[i].value as bv32
  {
    DistinctAgrees(table, i);
    MappedAgrees(table, i, table[i].key);
  }

  /** With distinct keys a block of bytes is its table. */
  lemma BytesAreTable(regs: Registers, at: bv32, ids: bv16, table: seq<Entry>)
    requires InRange(table, 64) && DistinctKeys(table) && ids <= 64 && AreBytesPacked(regs, at, ids, table)
    ensures IsByteTable(regs, at, ids, table)
  {
    forall id: bv16 | id < ids
      ensures ByteListed(regs, at, table, id)
    {
      assert BytePacked(regs, at, table, id);
      PackedIsListed(regs, at, table, id);
    }
  }

  lemma PackedIsListed(regs: Registers, at: bv32, table: seq<Entry>, id: bv16)
    requires InRange(table, 64) && DistinctKeys(table) && id < 64
    requires ByteIs(regs, at + id as bv32, Packed(table, Active(table), id))
    ensures ByteListed(regs, at, table, id)
  {
    forall i | 0 <= i < Active(table) && table[i].key == id
      ensures Packed(table, Active(table), id) == table[i].value as bv32
    {
      PackedValue(table, i);
    }
    if Unmapped(table, id) {
      PackedMissing(table, Active(table), id);
    }
  }

  /** The two tables in the controller's bytes, whatever they repeat, and each exactly itself
      when it repeats nothing. */
  ghost predicate AreTables(regs: Registers, data: InitData) {
    && AreBytesPacked(regs, 0x400, 64, data.events) && AreBytesPacked(regs, 0x800, 12, data.hosts)
    && (DistinctKeys(data.events) ==> IsByteTable(regs, 0x400, 64, data.events))
    && (DistinctKeys(data.hosts) ==> IsByteTable(regs, 0x800, 12, data.hosts))
  }

  lemma PreparedTables(regs: Registers, data: InitData)
    requires Prepared(regs, data) && InRange(data.events, 64) && InRange(data.hosts, 10)
    ensures AreTables(regs, data)
  {
    LoadedBytes(regs, CMR1, CMR_IDS, data.events);
    LoadedBytes(regs, HMR1, HMR_IDS, data.hosts);
    WiderRange(data.hosts);
    if DistinctKeys(data.events) {
      BytesAreTable(regs, 0x400, 64, data.events);
    }
    if DistinctKeys(data.hosts) {
      BytesAreTable(regs, 0x800, 12, data.hosts);
    }
  }

  /** Bit e of the 64 from byte 0x300 on, and of those from 0x280 on, says whether event e is
      listed, when no event is listed twice. */
  lemma EnabledBytes(regs: Registers, data: InitData, e: bv8)
    requires Started(regs, data) && e < 64
    requires forall i, j :: 0 <= i < j < Enabled(data.enabled) ==> data.enabled[i] != data.enabled[j]
    ensures var at, listed := e as bv32 / 8, e in data.enabled[..Enabled(data.enabled)];
            && Word((0x300 + at) / 4) in regs && Word((0x280 + at) / 4) in regs
            && (HasBit(ByteAt(regs, 0x300 + at), e % 8) <==> listed)
            && (HasBit(ByteAt(regs, 0x280 + at), e % 8) <==> listed)
  {
    EnabledExactly(regs, data, e);
    EventPlace(e);
    var word := if e < 32 then ESR1 else ESR2;
    BitOfByte(regs[Word(word)], e);
  }

  lemma EventPlace(e: bv8)
    requires e < 64
    ensures (0x300 + e as bv32 / 8) / 4 == if e < 32 then ESR1 else ESR2
    ensures (0x280 + e as bv32 / 8) / 4 == if e < 32 then SECR1 else SECR2
    ensures (0x300 + e as bv32 / 8) % 4 == (0x280 + e as bv32 / 8) % 4 == (e as bv32 / 8) % 4
  {
  }

  lemma BitOfByte(word: bv32, e: bv8)
    requires e < 64
    ensures HasBit((word >> (e as bv32 / 8) % 4 * 8) & 0xFF, e % 8) <==> HasBit(word, if e < 32 then e else e - 32)
  {
    var low := if e < 32 then e else e - 32;
    SameByte(e, low);
    BitOfShifted(word, low, ByteStart(low));
  }

  /** Where the byte of a bit starts in its word. */
  function ByteStart(low: bv8): bv8 {
    if low < 8 then 0 else if low < 16 then 8 else if low < 24 then 16 else 24
  }

  lemma BitOfShifted(word: bv32, low: bv8, start: bv8)
    requires start <= low < 32 && low - start < 8 && (start == 0 || start == 8 || start == 16 || start == 24)
    ensures HasBit((word >> start) & 0xFF, low - start) <==> HasBit(word, low)
  {
    if start == 0 {
      BitOfLowByte(word, low);
    } else if start == 8 {
      BitOfSecondByte(word, low);
    } else if start == 16 {
      BitOfThirdByte(word, low);
    } else {
      BitOfFourthByte(word, low);
    }
  }

  lemma SameByte(e: bv8, low: bv8)
    requires e < 64 && low == if e < 32 then e else e - 32
    ensures low < 32 && (e as bv32 / 8) % 4 * 8 == ByteStart(low) as bv32 && e % 8 == low - ByteStart(low)
  {
  }

  lemma BitOfLowByte(word: bv32, b: bv8)
    requires b < 8
    ensures HasBit(word & 0xFF, b) <==> HasBit(word, b)
  {
  }

  lemma BitOfSecondByte(word: bv32, b: bv8)
    requires 8 <= b < 16
    ensures HasBit((word >> 8) & 0xFF, b - 8) <==> HasBit(word, b)
  {
  }

  lemma BitOfThirdByte(word: bv32, b: bv8)
    requires 16 <= b < 24
    ensures HasBit((word >> 16) & 0xFF, b - 16) <==> HasBit(word, b)
  {
  }

  lemma BitOfFourthByte(word: bv32, b: bv8)
    requires 24 <= b < 32
    ensures HasBit((word >> 24) & 0xFF, b - 24) <==> HasBit(word, b)
  {
  }

  /** What the event getter returns for a mapped event is its byte, and an event reads as 0
      and as none when it has no entry. */
  lemma GetterReadsByte(regs: Registers, table: seq<Entry>, id: bv16)
    requires InRange(table, 64) && DistinctKeys(table) && id < 64
    requires ByteListed(regs, 0x400, table, id)
    ensures var c := Lookup(table, 0, id as bv32);
            ByteIs(regs, 0x400 + id as bv32, if c == NONE then 0 else c as bv32)
  {
    LookupIsNone(table, 0, id);
    if i :| 0 <= i < Active(table) && table[i].key == id {
      DistinctAgrees(table, i);
      MappedAgrees(table, i, id);
      assert table[i].value < 10;
    }
  }

  lemma {:induction false} LookupIsNone(table: seq<Entry>, from: nat, id: bv16)
    requires from <= Active(table) && id < 64
    ensures Lookup(table, from, id as bv32) == NONE <==> forall i :: from <= i < Active(table) ==> table[i].key != id
    ensures Lookup(table, from, id as bv32) == NONE ||
            exists i :: from <= i < Active(table) && Lookup(table, from, id as bv32) == table[i].value
    decreases Active(table) - from
  {
    if from < Active(table) {
      ExtendIsInjective(table[from].key, id);
      LookupIsNone(table, from + 1, id);
    }
  }

  lemma FoundInRange(table: seq<Entry>, keys: bv16, id: bv16)
    requires InRange(table, keys) && id < 64
    ensures Lookup(table, 0, id as bv32) == NONE || Lookup(table, 0, id as bv32) < 10
    ensures Lookup(table, 0, id as bv32) == NONE <==> Unmapped(table, id)
  {
    LookupIsNone(table, 0, id);
  }

  lemma NoneLessTwo(found: bv16)
    ensures HostResult(found) == NONE <==> found == NONE || found == 1
  {
  }

  /** The event getter reports none exactly when the event is unmapped, when its channel is, and
      when its host is 1, which less two reads as none. */
  lemma HostUnknownExactly(data: InitData, e: bv16)
    requires InRange(data.events, 64) && InRange(data.hosts, 10) && e < 64
    ensures var c := Lookup(data.events, 0, e as bv32);
            EventToHost(data, e as bv32) == NONE <==>
            Unmapped(data.events, e) || Unmapped(data.hosts, c) || Lookup(data.hosts, 0, c as bv32) == 1
  {
    var c := Lookup(data.events, 0, e as bv32);
    FoundInRange(data.events, 64, e);
    if c != NONE {
      SmallChannel(c);
      FoundInRange(data.hosts, 10, c);
      NoneLessTwo(Lookup(data.hosts, 0, c as bv32));
    }
  }

  /** An event mapped to host 1 that reads as unmapped. */
  lemma HostOneReadsAsNone()
    ensures var events, hosts := [Entry(17, 1), Entry(NONE, NONE)], [Entry(1, 1), Entry(NONE, NONE)];
            forall data: InitData :: data.events == events && data.hosts == hosts ==>
              !Unmapped(events, 17) && !Unmapped(hosts, 1) && EventToHost(data, 17) == NONE
  {
    var events, hosts := [Entry(17, 1), Entry(NONE, NONE)], [Entry(1, 1), Entry(NONE, NONE)];
    forall data: InitData | data.events == events && data.hosts == hosts
      ensures !Unmapped(events, 17) && !Unmapped(hosts, 1) && EventToHost(data, 17) == NONE
    {
      assert Active(events) == 1 && Active(hosts) == 1;
      assert Lookup(events, 0, 17) == 1;
      assert Lookup(hosts, 0, 1) == 1;
      HostUnknownExactly(data, 17);
    }
  }

  lemma SmallChannel(c: bv16)
    requires c < 10
    ensures !IsNegative(c) && Extend(c) == c as bv32 && c < HMR_IDS && c < CMR_IDS && c != NONE
  {
  }

  lemma WiderRange(table: seq<Entry>)
    requires InRange(table, 10)
    ensures InRange(table, 64)
  {
  }

  /** A word that only the start of the controller writes. */
  predicate IsStart(w: bv32) {
    w == ESR1 || w == ESR2 || w == SECR1 || w == SECR2 || w == HIEISR || w == GER
  }

  ghost predicate OthersKept(before: Registers, after: Registers) {
    forall w: bv32 :: !IsSetting(w) && !IsStart(w) && Word(w) in before ==>
      Word(w) in after && after[Word(w)] == before[Word(w)]
  }

  /** Nothing but what the preparation settles has changed. */
  ghost predicate OnlySettings(before: Registers, after: Registers) {
    forall w: bv32 :: !IsSetting(w) && Word(w) in before ==> Word(w) in after && after[Word(w)] == before[Word(w)]
  }

  /** A write to a register. */
  datatype Poke = Poke(word: bv32, value: bv32)

  /** The writes to the index register, at 0x34: the number of every host that the bitmask enables. */
  function HostPokes(mask: bv32, hosts: bv8): seq<Poke>
    requires hosts <= 10
    decreases hosts
  {
    if hosts == 0 then []
    else HostPokes(mask, hosts - 1) + (if HasBit(mask, hosts - 1) then [Poke(0x34 / 4, (hosts - 1) as bv32)] else [])
  }

  /** What is written from `before` to `after` enables no host, and not the controller. */
  ghost predicate Quiet(before: seq<Poke>, after: seq<Poke>) {
    before <= after
    && forall k :: |before| <= k < |after| ==> after[k].word != HIEISR && after[k].word != GER
  }

  /** Quiet writes, then those that enable the hosts in turn and the controller last. */
  ghost predicate EnablesAtTheEnd(before: seq<Poke>, after: seq<Poke>, mask: bv32) {
    var tail := HostPokes(mask, 10) + [Poke(0x10 / 4, 1)];
    |tail| <= |after| && after[|after| - |tail|..] == tail && Quiet(before, after[..|after| - |tail|])
  }

  lemma EndIsTail(before: seq<Poke>, middle: seq<Poke>, after: seq<Poke>, mask: bv32)
    requires Quiet(before, middle) && after == middle + HostPokes(mask, 10) + [Poke(0x10 / 4, 1)]
    ensures EnablesAtTheEnd(before, after, mask)
  {
    var tail := HostPokes(mask, 10) + [Poke(0x10 / 4, 1)];
    assert after == middle + tail;
    assert after[..|after| - |tail|] == middle && after[|after| - |tail|..] == tail;
  }

  lemma QuietThenEnables(before: seq<Poke>, quiet: seq<Poke>, after: seq<Poke>, mask: bv32)
    requires Quiet(before, quiet) && EnablesAtTheEnd(quiet, after, mask)
    ensures EnablesAtTheEnd(before, after, mask)
  {
  }

  lemma BlockIsQuiet(w: bv32, base: bv32)
    requires (base == CMR1 || base == HMR1) && InBlock(w, base)
    ensures w != HIEISR && w != GER
  {
  }

  class Prussdrv {
    var regs: Registers
    var intcData: InitData

    /** Every write so far, in order. */
    ghost var log: seq<Poke>

    method Write(word: bv32, value: bv32)
      requires Complete(regs)
      modifies `regs, `log
      ensures Complete(regs) && regs == old(regs)[Word(word) := value] && log == old(log) + [Poke(word, value)]
    {
      regs := regs[Word(word) := value];
      log := log + [Poke(word, value)];
    }

    method SetField(base: bv32, id: bv16, value: bv16)
      requires Complete(regs) && WordOf(base, id) in regs
      modifies `regs, `log
      ensures Complete(regs)
      ensures IsWrite(old(regs), regs, base, id, value)
      ensures exists v :: log == old(log) + [Poke(IndexOf(base, id), v)]
    {
      Write(IndexOf(base, id), regs[WordOf(base, id)] | (((value as bv32) & 0xF) << Lane(id)));
    }

    method Clear(base: bv32)
      requires Complete(regs) && (base == CMR1 || base == HMR1)
      modifies `regs, `log
      ensures Complete(regs) && Cleared(regs, base) && KeptOutside(old(regs), regs, base) && Quiet(old(log), log)
    {
      var first: bv32 := base >> 2;
      var count: bv32 := if base == CMR1 then 16 else 3;
      var i: bv32 := 0;
      while i < count
        invariant i <= count && Complete(regs)
        invariant forall w: bv32 :: InBlock(w, base) && w < first + i ==> Word(w) in regs && regs[Word(w)] == 0
        invariant KeptOutside(old(regs), regs, base) && Quiet(old(log), log)
        decreases count - i
      {
        assert InBlock(first + i, base);
        BlockIsQuiet(first + i, base);
        Write(first + i, 0);
        i := i + 1;
      }
    }

    /** Clears a block and packs a whole table into it. */
    method Load(base: bv32, ids: bv16, table: seq<Entry>)
      requires (base == CMR1 && ids == CMR_IDS) || (base == HMR1 && ids == HMR_IDS)
      requires Complete(regs) && InRange(table, if base == CMR1 then 64 else 10)
      modifies `regs, `log
      ensures Complete(regs) && Loaded(regs, base, ids, table, Active(table))
      ensures if base == CMR1 then AreBytesPacked(regs, 0x400, 64, table) else AreBytesPacked(regs, 0x800, 12, table)
      ensures KeptOutside(old(regs), regs, base) && Quiet(old(log), log)
    {
      Clear(base);
      ClearedIsLoaded(regs, base, ids, table);
      var i := 0;
      while !Ends(table[i])
        invariant 0 <= i <= Active(table)
        invariant Complete(regs) && Loaded(regs, base, ids, table, i)
        invariant KeptOutside(old(regs), regs, base) && Quiet(old(log), log)
        decreases |table| - i
      {
        ghost var before := regs;
        WordsInRange(base, table[i].key);
        BlockIsQuiet(IndexOf(base, table[i].key), base);
        SetField(base, table[i].key, table[i].value);
        LoadStep(before, regs, base, ids, table, i);
        i := i + 1;
      }
      LoadedBytes(regs, base, ids, table);
    }

    /** Adds up the masks of the enabled events; an event out of range ends the loop early. */
    method BuildMasks(list: seq<bv8>) returns (mask1: bv32, mask2: bv32, ok: bool)
      requires Enabled(list) < |list|
      ensures mask1 == Mask(list, Enabled(list), false) && mask2 == Mask(list, Enabled(list), true)
      ensures ok == (list[Enabled(list)] == END_OF_LIST)
    {
      mask1, mask2 := 0, 0;
      var i := 0;
      while list[i] != END_OF_LIST
        invariant 0 <= i <= Enabled(list)
        invariant mask1 == Mask(list, i, false) && mask2 == Mask(list, i, true)
        decreases |list| - i
      {
        if list[i] < 32 {
          mask1 := mask1 + BitOf(list[i]);
        } else if list[i] < 64 {
          mask2 := mask2 + BitOf(list[i] - 32);
        } else {
          return mask1, mask2, false;
        }
        i := i + 1;
      }
      ok := true;
    }

    /** Everything up to the masks. */
    method Prepare(data: InitData)
      requires Complete(regs) && InRange(data.events, 64) && InRange(data.hosts, 10)
      modifies `regs, `log
      ensures Complete(regs) && Prepared(regs, data) && OnlySettings(old(regs), regs) && Quiet(old(log), log)
    {
      Write(SIPR1, 0xFFFFFFFF);
      Write(SIPR2, 0xFFFFFFFF);
      LoadTables(data);
      ghost var loaded := regs;
      Write(SITR1, 0);
      Write(SITR2, 0);
      forall w: bv32 | (InBlock(w, CMR1) || InBlock(w, HMR1)) && Word(w) in loaded
        ensures Word(w) in regs && regs[Word(w)] == loaded[Word(w)]
      {
        BlocksApart(w);
      }
      LoadedKept(loaded, regs, CMR1, CMR_IDS, data.events, Active(data.events));
      LoadedKept(loaded, regs, HMR1, HMR_IDS, data.hosts, Active(data.hosts));
    }

    method LoadTables(data: InitData)
      requires Complete(regs) && InRange(data.events, 64) && InRange(data.hosts, 10)
      modifies `regs, `log
      ensures Complete(regs)
      ensures Loaded(regs, CMR1, CMR_IDS, data.events, Active(data.events))
      ensures Loaded(regs, HMR1, HMR_IDS, data.hosts, Active(data.hosts))
      ensures forall w: bv32 :: !InBlock(w, CMR1) && !InBlock(w, HMR1) && Word(w) in old(regs) ==>
          Holds(regs, w, old(regs)[Word(w)])
      ensures Quiet(old(log), log)
    {
      Load(CMR1, CMR_IDS, data.events);
      ghost var loaded := regs;
      Load(HMR1, HMR_IDS, data.hosts);
      forall w: bv32 | InBlock(w, CMR1) && Word(w) in loaded
        ensures Word(w) in regs && regs[Word(w)] == loaded[Word(w)]
      {
        BlocksApart(w);
      }
      LoadedKept(loaded, regs, CMR1, CMR_IDS, data.events, Active(data.events));
    }

    /** Writes the two masks to the enable and status-clear registers. */
    method EnableEvents(mask1: bv32, mask2: bv32)
      requires Complete(regs)
      modifies `regs, `log
      ensures Complete(regs) && SettingsKept(old(regs), regs)
      ensures Holds(regs, ESR1, mask1) && Holds(regs, SECR1, mask1) && Holds(regs, ESR2, mask2)
        && Holds(regs, SECR2, mask2)
      ensures OthersKept(old(regs), regs) && Quiet(old(log), log)
    {
      Write(ESR1, mask1);
      Write(SECR1, mask1);
      Write(ESR2, mask2);
      Write(SECR2, mask2);
    }

    /** Writes the index of every enabled host to the index register, then turns the
        controller on. */
    method EnableHosts(mask: bv32)
      requires Complete(regs)
      modifies `regs, `log
      ensures Complete(regs) && SettingsKept(old(regs), regs) && Holds(regs, GER, 1)
      ensures log == old(log) + HostPokes(mask, 10) + [Poke(0x10 / 4, 1)]
      ensures forall w: bv32 :: w != HIEISR && w != GER && Word(w) in old(regs) ==> Holds(regs, w, old(regs)[Word(w)])
    {
      var i: bv8 := 0;
      while i < 10
        invariant i <= 10 && Complete(regs) && log == old(log) + HostPokes(mask, i)
        invariant forall w: bv32 :: w != HIEISR && Word(w) in old(regs) ==> Holds(regs, w, old(regs)[Word(w)])
        decreases 10 - i
      {
        if HasBit(mask, i) {
          Write(HIEISR, i as bv32);
        }
        i := i + 1;
      }
      Write(GER, 1);
    }

    /** Sets up the controller. On success both register blocks hold exactly what the tables
        pack into them, the enable registers hold the masks and the tables are remembered; the
        last writes enable the hosts in turn, then the controller. On an enabled event out of
        range nothing is enabled and the old tables stay. No other register changes, and nothing
        is enabled before the last writes. */
    method PruintcInit(data: InitData) returns (status: int)
      requires Complete(regs)
      requires InRange(data.events, 64) && InRange(data.hosts, 10) && Enabled(data.enabled) < |data.enabled|
      modifies this
      ensures Complete(regs) && Prepared(regs, data) && AreTables(regs, data)
      ensures Holds(regs, 0xD00 / 4, 0xFFFFFFFF) && Holds(regs, 0xD04 / 4, 0xFFFFFFFF)
      ensures Holds(regs, 0xD80 / 4, 0) && Holds(regs, 0xD84 / 4, 0)
      ensures status == 0 ==> Holds(regs, 0x10 / 4, 1)
      ensures status == if data.enabled[Enabled(data.enabled)] == END_OF_LIST then 0 else -1
      ensures status == 0 ==> Started(regs, data) && intcData == data && OthersKept(old(regs), regs)
      ensures status == 0 ==> EnablesAtTheEnd(old(log), log, data.hostMask)
      ensures status == -1 ==> intcData == old(intcData) && OnlySettings(old(regs), regs) && Quiet(old(log), log)
    {
      Prepare(data);
      PreparedTables(regs, data);
      ghost var prepared, quiet := regs, log;
      var mask1, mask2, ok := BuildMasks(data.enabled);
      if !ok {
        return -1;
      }
      Start(mask1, mask2, data.hostMask);
      PreparedKept(prepared, regs, data);
      PreparedTables(regs, data);
      QuietThenEnables(old(log), quiet, log, data.hostMask);
      intcData := data;
      return 0;
    }

    method Start(mask1: bv32, mask2: bv32, hostMask: bv32)
      requires Complete(regs)
      modifies `regs, `log
      ensures Complete(regs) && SettingsKept(old(regs), regs) && OthersKept(old(regs), regs) && Holds(regs, GER, 1)
      ensures Holds(regs, ESR1, mask1) && Holds(regs, SECR1, mask1) && Holds(regs, ESR2, mask2)
        && Holds(regs, SECR2, mask2)
      ensures EnablesAtTheEnd(old(log), log, hostMask)
    {
      EnableEvents(mask1, mask2);
      ghost var quiet := log;
      EnableHosts(hostMask);
      EndIsTail(old(log), quiet, log, hostMask);
    }

    /** The shared search of the two table getters. */
    method Search(table: seq<Entry>, bound: nat, id: bv32) returns (value: bv16)
      requires |table| == bound
      ensures value == Lookup(table, 0, id)
    {
      var i := 0;
      while i < bound && !Ends(table[i])
        invariant 0 <= i <= Active(table) && Lookup(table, 0, id) == Lookup(table, i, id)
      {
        if id == Extend(table[i].key) {
          return table[i].value;
        }
        i := i + 1;
      }
      return NONE;
    }

    method GetEventToChannelMap(eventnum: bv32) returns (channel: bv16)
      requires |intcData.events| == 64
      ensures channel == Lookup(intcData.events, 0, eventnum)
    {
      channel := Search(intcData.events, 64, eventnum);
    }

    /** Less two, because the first two hosts belong to the PRUs themselves. */
    method GetChannelToHostMap(channel: bv32) returns (host: bv16)
      requires |intcData.hosts| == 10
      ensures host == HostResult(Lookup(intcData.hosts, 0, channel))
    {
      host := Search(intcData.hosts, 10, channel);
      if host != NONE {
        host := host - 2;
      }
    }

    method GetEventToHostMap(eventnum: bv32) returns (host: bv16)
      requires |intcData.events| == 64 && |intcData.hosts| == 10
      ensures host == EventToHost(intcData, eventnum)
    {
      var ans := GetEventToChannelMap(eventnum);
      if IsNegative(ans) {
        return ans;
      }
      host := GetChannelToHostMap(Extend(ans));
    }
  }
}
