/** The two-half ring dump of rb_file.c: files of a fixed number of values, written from the
    halves of a ring buffer in turn while the other half fills. */
module RingDump {
  import opened Arithmetic

  const SAMPLES: nat := 123401
  const STEPS: nat := 3
  const FILES: nat := 2
  const FILE_LENGTH: nat := 370203

  /** The length of a half, from the size of the memory in bytes: whole samples, and no more
      than a file. */
  function HalfOf(eSize: nat): nat {
    var half := eSize / 4 / STEPS * STEPS;
    if half > FILE_LENGTH then FILE_LENGTH else half
  }

  lemma Sizing(eSize: nat)
    ensures FILE_LENGTH == SAMPLES * STEPS
    ensures WholeSamples(HalfOf(eSize)) && HalfOf(eSize) <= FILE_LENGTH
    ensures HalfOf(eSize) > 0 <==> eSize >= 12
    ensures 2 * HalfOf(eSize) / STEPS * STEPS == 2 * HalfOf(eSize)
    ensures 8 * HalfOf(eSize) <= 2 * eSize
    ensures forall n: nat :: IsHalf(n, eSize) ==> n <= HalfOf(eSize)
    ensures IsHalf(HalfOf(eSize), eSize)
  {
    forall n: nat | IsHalf(n, eSize)
      ensures n <= HalfOf(eSize)
    {
      assert n / STEPS <= eSize / 4 / STEPS;
    }
  }

  /** Whole samples of two-byte values that fit a half of the memory, and a file. */
  predicate IsHalf(n: nat, eSize: nat) {
    n % 3 == 0 && n <= 370203 && 4 * n <= eSize
  }

  /** A number of values that makes whole samples. */
  predicate WholeSamples(n: nat) {
    n % STEPS == 0
  }

  lemma WholeSamplesAdd(a: nat, b: nat)
    requires WholeSamples(a) && WholeSamples(b)
    ensures WholeSamples(a + b) && (b <= a ==> WholeSamples(a - b))
  {
  }

  /** How many chunks a file takes. */
  function ChunksPerFile(half: nat, length: nat): nat
    requires 0 < half
  {
    (length + half - 1) / half
  }

  /** How many values chunk `j` of a file takes: a whole half, or the rest of the file. */
  function LengthOf(half: nat, length: nat, j: nat): int {
    if Whole(half, j) + half <= length then half else length - Whole(half, j)
  }

  /** The condition that a wait repeats on, for the index that the ring reports. */
  datatype Wait = WhileBelow(limit: nat) | WhileAbove(limit: nat)

  predicate Passes(w: Wait, index: nat) {
    if w.WhileBelow? then index >= w.limit else index <= w.limit
  }

  /** The wait before chunk `g` is written: for a whole chunk of the second half the index must
      have gone back, in all other cases it must have come far enough. */
  function WaitOf(g: nat, length: nat, half: nat): Wait {
    if g % 2 == 0 then WhileBelow(length) else if length < half then WhileBelow(half + length) else WhileAbove(half)
  }

  /** A write: the wait before it, where in the ring it starts and how much it takes. */
  datatype Chunk = Chunk(start: nat, length: nat, wait: Wait)

  /** Chunk `g` of all: the halves in turn, never past the end of a half, whole samples. */
  ghost predicate InTurn(c: Chunk, g: nat, half: nat)
  {
    && c.start == StartOf(g, half) && 0 < c.length <= half && c.start + c.length <= 2 * half
    && WholeSamples(c.length) && c.wait == WaitOf(g, c.length, half)
  }

  /** The chunks of a file, when there were `first` before it. */
  ghost predicate AllInTurn(chunks: seq<Chunk>, first: nat, half: nat) {
    forall j :: 0 <= j < |chunks| ==> InTurn(chunks[j], first + j, half)
  }

  /** They take what chunk after chunk of a file takes. */
  ghost predicate Sized(chunks: seq<Chunk>, half: nat, length: nat) {
    forall j :: 0 <= j < |chunks| ==> chunks[j].length == LengthOf(half, length, j)
  }

  lemma AllInTurnStep(chunks: seq<Chunk>, c: Chunk, first: nat, half: nat)
    requires AllInTurn(chunks, first, half) && InTurn(c, first + |chunks|, half)
    ensures AllInTurn(chunks + [c], first, half)
  {
  }

  /** The two pointers into the ring, when `g` chunks have been read. */
  predicate Pointers(p: nat, q: nat, g: nat, half: nat) {
    p == StartOf(g, half) && q == StartOf(g + 1, half)
  }

  lemma Swapped(p: nat, q: nat, g: nat, half: nat)
    requires Pointers(p, q, g, half)
    ensures Pointers(q, p, g + 1, half)
  {
  }

  lemma ChunkInTurn(p: nat, g: nat, half: nat, length: nat)
    requires p == StartOf(g, half) && 0 < length <= half && WholeSamples(length)
    ensures InTurn(Chunk(p, length, WaitOf(g, length, half)), g, half)
  {
  }

  /** Where chunk `g` starts in the ring. */
  function StartOf(g: nat, half: nat): nat {
    if g % 2 == 0 then 0 else half
  }

  /** Value `r` of chunk `g`, when `ring` tells what is where as a chunk is written. */
  function InChunk<T>(ring: (nat, nat) -> T, half: nat, g: nat, r: nat): T {
    ring(g, StartOf(g, half) + r)
  }

  /** Value `t` of a file whose chunks start with `first`. */
  function InFile<T>(ring: (nat, nat) -> T, half: nat, first: nat, t: nat): T
    requires 0 < half
  {
    InChunk(ring, half, first + t / half, t % half)
  }

  /** The first `n` values of a file. */
  ghost predicate Taken<T>(file: seq<T>, ring: (nat, nat) -> T, half: nat, first: nat, n: nat)
    requires 0 < half
  {
    |file| == n && forall t: nat :: t < n ==> file[t] == InFile(ring, half, first, t)
  }

  /** The length of `j` whole chunks. */
  function Whole(half: nat, j: nat): nat {
    if j == 0 then 0 else Whole(half, j - 1) + half
  }

  lemma {:induction false} WholeIsProduct(half: nat, j: nat)
    ensures Whole(half, j) == half * j
  {
    if j > 0 {
      WholeIsProduct(half, j - 1);
    }
  }

  lemma InFileIs<T>(ring: (nat, nat) -> T, half: nat, first: nat, j: nat, t: nat)
    requires 0 < half && Whole(half, j) <= t < Whole(half, j) + half
    ensures InFile(ring, half, first, t) == InChunk(ring, half, first + j, t - Whole(half, j))
  {
    WholeIsProduct(half, j);
    QuotientIs(t, half, j, t - half * j);
  }

  /** The first `length` values of chunk `g`. */
  function Slice<T>(ring: (nat, nat) -> T, half: nat, g: nat, length: nat): (s: seq<T>)
    ensures |s| == length && forall r: nat :: r < length ==> s[r] == InChunk(ring, half, g, r)
  {
    seq(length, r requires 0 <= r < length => InChunk(ring, half, g, r))
  }

  lemma TakenStep<T>(file: seq<T>, ring: (nat, nat) -> T, half: nat, first: nat, i: nat, j: nat, length: nat)
    requires 0 < half && i == Whole(half, j) && Taken(file, ring, half, first, i) && length <= half
    ensures Taken(file + Slice(ring, half, first + j, length), ring, half, first, i + length)
  {
    forall t: nat | i <= t < i + length
      ensures InFile(ring, half, first, t) == InChunk(ring, half, first + j, t - i)
    {
      InFileIs(ring, half, first, j, t);
    }
  }

  /** The values that a write takes from the ring at `p`. */
  function Write<T>(ring: (nat, nat) -> T, g: nat, p: nat, length: nat): (s: seq<T>) {
    seq(length, r requires 0 <= r < length => ring(g, p + r))
  }

  lemma WriteIsSlice<T>(ring: (nat, nat) -> T, half: nat, g: nat, length: nat)
    ensures Write(ring, g, StartOf(g, half), length) == Slice(ring, half, g, length)
  {
  }

  lemma Counted(half: nat, length: nat, j: nat, i: nat)
    requires 0 < half && i == Whole(half, j) && i < length <= i + half
    ensures ChunksPerFile(half, length) == j + 1
  {
    WholeIsProduct(half, j);
    QuotientIs(length + half - 1, half, j + 1, length - i - 1);
  }

  /** The waits chosen by comparing the pointers are those of the chunk. */
  lemma WaitsByPointers(p: nat, q: nat, g: nat, half: nat)
    requires 0 < half && Pointers(p, q, g, half)
    ensures (if q > p then WhileBelow(half) else WhileAbove(half)) == WaitOf(g, half, half)
    ensures forall rest: nat :: rest < half ==>
              WhileBelow(if q >= p then rest else rest + half) == WaitOf(g, rest, half)
  {
  }

  /** Writes one file, from chunk `first` on; `p0` is the half to be read next. */
  method WriteFile<T>(ring: (nat, nat) -> T, half: nat, length: nat, first: nat, p0: nat, p1: nat)
    returns (file: seq<T>, q0: nat, q1: nat, chunks: seq<Chunk>)
    requires 0 < half <= length && WholeSamples(half) && WholeSamples(length) && Pointers(p0, p1, first, half)
    ensures Taken(file, ring, half, first, length)
    ensures |chunks| == ChunksPerFile(half, length) && AllInTurn(chunks, first, half) && Sized(chunks, half, length)
    ensures Pointers(q0, q1, first + |chunks|, half)
  {
    q0, q1, file, chunks := p0, p1, [], [];
    var i := 0;
    while i < length
      invariant i == Whole(half, |chunks|) <= length && WholeSamples(i)
      invariant Taken(file, ring, half, first, i)
      invariant i == length ==> |chunks| == ChunksPerFile(half, length)
      invariant AllInTurn(chunks, first, half) && Sized(chunks, half, length)
      invariant Pointers(q0, q1, first + |chunks|, half)
      decreases length - i
    {
      ghost var j, done := |chunks|, i;
      WaitsByPointers(q0, q1, first + j, half);
      i := i + half;
      if i >= length {
        Counted(half, length, j, done);
      }
      if i > length {
        var rest := length + half - i;
        var iEnd := if q1 >= q0 then rest else rest + half;
        WholeSamplesAdd(length, done);
        file, q0, q1, chunks := TakeChunk(ring, half, first, file, q0, q1, chunks, rest, WhileBelow(iEnd));
        break;
      }
      WholeSamplesAdd(done, half);
      file, q0, q1, chunks := TakeChunk(ring, half, first, file, q0, q1, chunks, half,
                                        if q1 > q0 then WhileBelow(half) else WhileAbove(half));
    }
  }

  /** Writes one chunk and swaps the halves. */
  method TakeChunk<T>(ring: (nat, nat) -> T, half: nat, first: nat, before: seq<T>, p0: nat, p1: nat,
                      earlier: seq<Chunk>, length: nat, wait: Wait)
    returns (file: seq<T>, q0: nat, q1: nat, chunks: seq<Chunk>)
    requires 0 < length <= half && WholeSamples(length) && wait == WaitOf(first + |earlier|, length, half)
    requires Taken(before, ring, half, first, Whole(half, |earlier|))
    requires AllInTurn(earlier, first, half) && Pointers(p0, p1, first + |earlier|, half)
    ensures Taken(file, ring, half, first, Whole(half, |earlier|) + length)
    ensures |chunks| == |earlier| + 1 && AllInTurn(chunks, first, half) && Pointers(q0, q1, first + |chunks|, half)
    ensures earlier <= chunks && chunks[|earlier|].length == length
  {
    ghost var g := first + |earlier|;
    WriteIsSlice(ring, half, g, length);
    TakenStep(before, ring, half, first, Whole(half, |earlier|), |earlier|, length);
    file := before + Write(ring, first + |earlier|, p0, length);
    ChunkInTurn(p0, g, half, length);
    AllInTurnStep(earlier, Chunk(p0, length, wait), first, half);
    chunks := earlier + [Chunk(p0, length, wait)];
    Swapped(p0, p1, g, half);
    q0, q1 := p1, p0;
  }

  lemma AllInTurnJoin(a: seq<Chunk>, b: seq<Chunk>, half: nat)
    requires AllInTurn(a, 0, half) && AllInTurn(b, |a|, half)
    ensures AllInTurn(a + b, 0, half)
  {
    forall j | 0 <= j < |a + b|
      ensures InTurn((a + b)[j], 0 + j, half)
    {
      if j >= |a| {
        assert InTurn(b[j - |a|], |a| + (j - |a|), half);
      }
    }
  }

  /** The files, and what they were written from. */
  ghost predicate Written<T>(files: seq<seq<T>>, chunks: seq<Chunk>, ring: (nat, nat) -> T, half: nat, length: nat)
    requires 0 < half
  {
    && |chunks| == Whole(ChunksPerFile(half, length), |files|) && AllInTurn(chunks, 0, half)
    && forall n :: 0 <= n < |files| ==> FileOf(files[n], chunks, ring, half, length, n)
  }

  /** File `n`, and the chunks that it was written from. */
  ghost predicate FileOf<T>(file: seq<T>, chunks: seq<Chunk>, ring: (nat, nat) -> T, half: nat, length: nat, n: nat)
    requires 0 < half
  {
    var c := ChunksPerFile(half, length);
    && Whole(c, n + 1) <= |chunks| && Taken(file, ring, half, Whole(c, n), length)
    && Sized(chunks[Whole(c, n)..Whole(c, n + 1)], half, length)
  }

  lemma WrittenStep<T>(files: seq<seq<T>>, chunks: seq<Chunk>, file: seq<T>, more: seq<Chunk>, ring: (nat, nat) -> T,
                       half: nat, length: nat)
    requires 0 < half && Written(files, chunks, ring, half, length) && Taken(file, ring, half, |chunks|, length)
    requires |more| == ChunksPerFile(half, length) && AllInTurn(more, |chunks|, half) && Sized(more, half, length)
    ensures Written(files + [file], chunks + more, ring, half, length)
  {
    var c := ChunksPerFile(half, length);
    AllInTurnJoin(chunks, more, half);
    forall n | 0 <= n < |files|
      ensures FileOf(files[n], chunks + more, ring, half, length, n)
    {
      assert FileOf(files[n], chunks, ring, half, length, n);
      assert (chunks + more)[Whole(c, n)..Whole(c, n + 1)] == chunks[Whole(c, n)..Whole(c, n + 1)];
    }
    assert (chunks + more)[Whole(c, |files|)..Whole(c, |files| + 1)] == more;
    assert FileOf(file, chunks + more, ring, half, length, |files|);
  }

  /** Writes the files. Each gets exactly `length` values, and the halves go on taking turns
      from file to file. */
  method DumpFiles<T>(ring: (nat, nat) -> T, half: nat, length: nat) returns (files: seq<seq<T>>, chunks: seq<Chunk>)
    requires 0 < half <= length && WholeSamples(half) && WholeSamples(length)
    ensures |files| == FILES && Written(files, chunks, ring, half, length)
  {
    var p0, p1 := 0, half;
    files, chunks := [], [];
    for n := 0 to FILES
      invariant |files| == n && Written(files, chunks, ring, half, length) && Pointers(p0, p1, |chunks|, half)
    {
      var file, more;
      file, p0, p1, more := WriteFile(ring, half, length, |chunks|, p0, p1);
      WrittenStep(files, chunks, file, more, ring, half, length);
      files := files + [file];
      chunks := chunks + more;
    }
  }

  /** The dump from a ring in memory of `eSize` bytes. */
  method Dump<T>(eSize: nat, ring: (nat, nat) -> T) returns (files: seq<seq<T>>, chunks: seq<Chunk>)
    requires HalfOf(eSize) > 0
    ensures |files| == FILES && Written(files, chunks, ring, HalfOf(eSize), FILE_LENGTH)
  {
    Sizing(eSize);
    WholeSamplesOfFile();
    files, chunks := DumpFiles(ring, HalfOf(eSize), FILE_LENGTH);
  }

  lemma WholeSamplesOfFile()
    ensures WholeSamples(FILE_LENGTH)
  {
  }

  lemma PlaceInStream(half: nat, first: nat, j: nat, r: nat, t: nat)
    requires 0 < half && j == t / half && r == t % half
    ensures Whole(half, first + j) + r == Whole(half, first) + t
  {
    WholeAdds(half, first, j);
    WholeIsProduct(half, j);
  }

  /** The next file starts where the last chunk of this one ends: what that chunk had beyond
      the file is lost. */
  lemma LostBetweenFiles(half: nat, length: nat, first: nat)
    requires 0 < half
    ensures Whole(half, first + ChunksPerFile(half, length)) ==
        Whole(half, first) + length + (half - length % half) % half
  {
    var c := ChunksPerFile(half, length);
    WholeAdds(half, first, c);
    WholeIsProduct(half, c);
    LostValues(half, length);
  }

  lemma {:induction false} WholeAdds(half: nat, a: nat, b: nat)
    ensures Whole(half, a + b) == Whole(half, a) + Whole(half, b)
  {
    if b > 0 {
      WholeAdds(half, a, b - 1);
    }
  }

  lemma LostValues(half: nat, length: nat)
    requires 0 < half
    ensures half * ChunksPerFile(half, length) - length == (half - length % half) % half
  {
    var q, r := length / half, length % half;
    if r == 0 {
      QuotientIs(length + half - 1, half, q, half - 1);
      QuotientIs(half, half, 1, 0);
    } else {
      QuotientIs(length + half - 1, half, q + 1, r - 1);
      assert half * (q + 1) == half * q + half;
      QuotientIs(half - r, half, 0, half - r);
    }
  }

  // ---------------------------------------------------------------- the waits

  /** The index that the ring reports once `f` values have been put into it. */
  function IndexAt(f: nat, half: nat): nat
    requires 0 < half
  {
    f % (2 * half)
  }

  /** How many values had gone round the ring before the lap of chunk `g`. */
  function LapStart(g: nat, half: nat): int {
    Whole(half, g) - StartOf(g, half)
  }

  lemma {:induction false} LapIsWhole(g: nat, half: nat)
    ensures LapStart(g, half) == 2 * half * (g / 2)
    ensures LapStart(g, half) >= 0 && (g >= 2 ==> LapStart(g, half) >= 2 * half)
  {
    if g == 1 {
      assert Whole(half, 0) == 0;
    } else if g >= 2 {
      LapIsWhole(g - 2, half);
      assert Whole(half, g - 1) == Whole(half, g - 2) + half;
      assert g / 2 == (g - 2) / 2 + 1;
      NextMultiple(2 * half, (g - 2) / 2);
    }
  }

  lemma NextMultiple(d: nat, q: nat)
    ensures d * (q + 1) == d * q + d
  {
  }

  lemma IndexInLap(f: nat, g: nat, half: nat)
    requires 0 < half && LapStart(g, half) <= f < LapStart(g, half) + 2 * half
    ensures IndexAt(f, half) == f - LapStart(g, half)
  {
    LapIsWhole(g, half);
    QuotientIs(f, 2 * half, g / 2, f - LapStart(g, half));
  }

  lemma EndOfLapBefore(g: nat, half: nat)
    requires 0 < half && LapStart(g, half) > 0
    ensures IndexAt(LapStart(g, half) - 1, half) == 2 * half - 1
  {
    LapIsWhole(g, half);
    NextMultiple(2 * half, g / 2 - 1);
    QuotientIs(2 * half * (g / 2) - 1, 2 * half, g / 2 - 1, 2 * half - 1);
  }

  /** How far the ring must have been filled when the wait for a chunk begins: to the start of
      its lap, and beyond the start of the second half for a whole chunk there. */
  predicate BegunInTime(f: nat, g: nat, length: nat, half: nat) {
    f >= LapStart(g, half) && (g % 2 == 1 && length == half ==> f > Whole(half, g))
  }

  /** Whatever is put in while it lasts, the wait ends with the chunk filled. */
  ghost predicate Guards(from: nat, g: nat, length: nat, half: nat)
    requires 0 < half
  {
    forall f: nat :: f >= from && Passes(WaitOf(g, length, half), IndexAt(f, half)) ==> f >= Whole(half, g) + length
  }

  /** The waits guard a chunk if and only if they begin in time. In particular the wait for a
      whole second half, begun when the index is still at its start, ends at once. */
  lemma GuardsExactly(from: nat, g: nat, length: nat, half: nat)
    requires 0 < length <= half
    ensures Guards(from, g, length, half) <==> BegunInTime(from, g, length, half)
  {
    LapIsWhole(g, half);
    if BegunInTime(from, g, length, half) {
      forall f: nat | f >= from && f < Whole(half, g) + length
        ensures !Passes(WaitOf(g, length, half), IndexAt(f, half))
      {
        IndexInLap(f, g, half);
      }
    } else if from < LapStart(g, half) {
      BeforeTheLap(from, g, length, half);
    } else {
      IndexInLap(Whole(half, g), g, half);
      assert Passes(WaitOf(g, length, half), IndexAt(Whole(half, g), half));
    }
  }

  lemma BeforeTheLap(from: nat, g: nat, length: nat, half: nat)
    requires 0 < length <= half && from < LapStart(g, half)
    ensures !Guards(from, g, length, half)
  {
    if g % 2 == 1 && length == half {
      IndexInLap(Whole(half, g), g, half);
      assert Passes(WaitOf(g, length, half), IndexAt(Whole(half, g), half));
    } else {
      EndOfLapBefore(g, half);
      assert Passes(WaitOf(g, length, half), IndexAt(LapStart(g, half) - 1, half));
    }
  }

  /** After a partial chunk the next file is not guarded: at the very index that ends the wait
      for the partial chunk, the wait for the whole chunk behind it ends too. */
  lemma NextFileIsNotGuarded(g: nat, rest: nat, half: nat)
    requires 0 < rest < half
    ensures var f := Whole(half, g) + rest;
            && Passes(WaitOf(g, rest, half), IndexAt(f, half))
            && Passes(WaitOf(g + 1, half, half), IndexAt(f, half)) && f < Whole(half, g + 1)
  {
    LapIsWhole(g, half);
    IndexInLap(Whole(half, g) + rest, g, half);
  }

  /** The number of the value that place `p` of the ring holds once `f` values have been put
      into it; negative when it holds none yet. */
  function Latest(f: nat, p: nat, half: nat): int
    requires 0 < half
  {
    (f - 1 - p) / (2 * half) * (2 * half) + p
  }

  /** A value of a chunk is the one intended if and only if the ring has been filled beyond it
      and not yet by a whole lap more. */
  lemma IntactExactly(f: nat, g: nat, r: nat, half: nat)
    requires 0 < half && r < half
    ensures Latest(f, StartOf(g, half) + r, half) == Whole(half, g) + r <==>
            Whole(half, g) + r < f <= Whole(half, g) + r + 2 * half
  {
    LapIsWhole(g, half);
    FloorIs(f - 1 - (StartOf(g, half) + r), 2 * half, g / 2);
  }

  /** What chunk `g` finds in the ring when `fills(g)` values of the stream have been put in. */
  ghost predicate ReadsRing<T(!new)>(ring: (nat, nat) -> T, fills: nat -> nat, half: nat, stream: nat -> T)
    requires 0 < half
  {
    forall g: nat, p: nat :: Latest(fills(g), p, half) >= 0 ==> ring(g, p) == stream(Latest(fills(g), p, half))
  }

  /** What value `t` of a file was read as. */
  lemma ValueIsLatest<T(!new)>(file: seq<T>, ring: (nat, nat) -> T, fills: nat -> nat, half: nat, stream: nat -> T,
                               first: nat, length: nat, t: nat)
    requires 0 < half && Taken(file, ring, half, first, length) && ReadsRing(ring, fills, half, stream) && t < length
    ensures var g := first + t / half;
            var f, at := fills(g), Whole(half, first) + t;
            var latest := Latest(f, StartOf(g, half) + t % half, half);
            && (latest == at <==> at < f <= at + 2 * half)
            && (latest >= 0 ==> file[t] == stream(latest))
  {
    var g, r := first + t / half, t % half;
    PlaceInStream(half, first, t / half, r, t);
    IntactExactly(fills(g), g, r, half);
    assert file[t] == InFile(ring, half, first, t);
  }

  /** A value of a file is the one that follows in the stream when its chunk is written after
      the ring was filled beyond it and at most a lap later. */
  lemma ValueIsIntended<T(!new)>(file: seq<T>, ring: (nat, nat) -> T, fills: nat -> nat, half: nat, stream: nat -> T,
                                 first: nat, length: nat, t: nat)
    requires 0 < half && Taken(file, ring, half, first, length) && ReadsRing(ring, fills, half, stream) && t < length
    ensures var f, at := fills(first + t / half), Whole(half, first) + t;
            at < f <= at + 2 * half ==> file[t] == stream(at)
  {
    ValueIsLatest(file, ring, fills, half, stream, first, length, t);
  }

  ghost predicate Distinct<T(!new)>(stream: nat -> T) {
    forall a: nat, b: nat :: stream(a) == stream(b) ==> a == b
  }

  /** When the values of the stream all differ, only then, if the place was ever filled. */
  lemma ValueIsIntendedExactly<T(!new)>(file: seq<T>, ring: (nat, nat) -> T, fills: nat -> nat, half: nat,
                                        stream: nat -> T, first: nat, length: nat, t: nat)
    requires 0 < half && Taken(file, ring, half, first, length) && ReadsRing(ring, fills, half, stream) && t < length
    requires Distinct(stream) && Latest(fills(first + t / half), StartOf(first + t / half, half) + t % half, half) >= 0
    ensures var f, at := fills(first + t / half), Whole(half, first) + t;
            file[t] == stream(at) <==> at < f <= at + 2 * half
  {
    ValueIsLatest(file, ring, fills, half, stream, first, length, t);
  }

  /** The wait for chunk `g` begins in time when `begins(g)` values are in, its test passes when
      `fills(g)` are, and the chunk is written before the next lap reaches it. */
  ghost predicate InTime(c: Chunk, g: nat, begins: nat -> nat, fills: nat -> nat, half: nat)
    requires 0 < half
  {
    && begins(g) <= fills(g) <= Whole(half, g) + 2 * half
    && BegunInTime(begins(g), g, c.length, half) && Passes(c.wait, IndexAt(fills(g), half))
  }

  lemma InTimeIsFilled(c: Chunk, g: nat, begins: nat -> nat, fills: nat -> nat, half: nat)
    requires 0 < half && InTurn(c, g, half) && InTime(c, g, begins, fills, half)
    ensures Whole(half, g) + c.length <= fills(g) <= Whole(half, g) + 2 * half
  {
    GuardsExactly(begins(g), g, c.length, half);
    assert Guards(begins(g), g, c.length, half);
  }

  lemma ChunkOfValue(half: nat, length: nat, t: nat)
    requires 0 < half && t < length
    ensures t / half < ChunksPerFile(half, length) && t % half < LengthOf(half, length, t / half)
  {
    var j := t / half;
    WholeIsProduct(half, j);
    assert t == half * j + t % half;
    if j >= ChunksPerFile(half, length) {
      LostValues(half, length);
      NonZeroMultiple(j - ChunksPerFile(half, length), half);
      DifferenceTimes(j, ChunksPerFile(half, length), half);
    }
  }

  /** Chunk `j` of file `n`. */
  lemma ChunkOfFile<T>(files: seq<seq<T>>, chunks: seq<Chunk>, ring: (nat, nat) -> T, half: nat, length: nat, n: nat,
                       j: nat)
    requires 0 < half && Written(files, chunks, ring, half, length) && n < |files| && j < ChunksPerFile(half, length)
    ensures var g := Whole(ChunksPerFile(half, length), n) + j;
            g < |chunks| && InTurn(chunks[g], g, half) && chunks[g].length == LengthOf(half, length, j)
  {
    var c := ChunksPerFile(half, length);
    var g := Whole(c, n) + j;
    assert FileOf(files[n], chunks, ring, half, length, n);
    assert Whole(c, n + 1) == Whole(c, n) + c;
    assert chunks[Whole(c, n)..Whole(c, n + 1)][j] == chunks[g];
    assert InTurn(chunks[g], 0 + g, half);
  }

  ghost predicate AllInTime(chunks: seq<Chunk>, begins: nat -> nat, fills: nat -> nat, half: nat)
    requires 0 < half
  {
    forall g: nat :: g < |chunks| ==> InTime(chunks[g], g, begins, fills, half)
  }

  /** Chunk `j` of file `n` is written filled and not late. */
  lemma ChunkIsFilled<T>(files: seq<seq<T>>, chunks: seq<Chunk>, ring: (nat, nat) -> T, half: nat, length: nat,
                         begins: nat -> nat, fills: nat -> nat, n: nat, j: nat)
    requires 0 < half && Written(files, chunks, ring, half, length) && AllInTime(chunks, begins, fills, half)
    requires n < |files| && j < ChunksPerFile(half, length)
    ensures var g := Whole(ChunksPerFile(half, length), n) + j;
            Whole(half, g) + LengthOf(half, length, j) <= fills(g) <= Whole(half, g) + 2 * half
  {
    var g := Whole(ChunksPerFile(half, length), n) + j;
    ChunkOfFile(files, chunks, ring, half, length, n, j);
    InTimeIsFilled(chunks[g], g, begins, fills, half);
  }

  /** When every wait begins in time and no chunk is written late, every file holds consecutive
      values of the stream, its partial last chunk included. */
  lemma FilesAreConsecutive<T(!new)>(files: seq<seq<T>>, chunks: seq<Chunk>, ring: (nat, nat) -> T, half: nat,
                                     length: nat, begins: nat -> nat, fills: nat -> nat, stream: nat -> T, n: nat,
                                     t: nat)
    requires 0 < half && Written(files, chunks, ring, half, length) && ReadsRing(ring, fills, half, stream)
    requires AllInTime(chunks, begins, fills, half) && n < |files| && t < length
    ensures t < |files[n]| && files[n][t] == stream(Whole(half, Whole(ChunksPerFile(half, length), n)) + t)
  {
    ChunkOfValue(half, length, t);
    ChunkIsFilled(files, chunks, ring, half, length, begins, fills, n, t / half);
    assert FileOf(files[n], chunks, ring, half, length, n);
    FilledIsConsecutive(files[n], ring, fills, half, stream, Whole(ChunksPerFile(half, length), n), length, t);
  }

  lemma FilledIsConsecutive<T(!new)>(file: seq<T>, ring: (nat, nat) -> T, fills: nat -> nat, half: nat,
                                     stream: nat -> T, first: nat, length: nat, t: nat)
    requires 0 < half && Taken(file, ring, half, first, length) && ReadsRing(ring, fills, half, stream) && t < length
    requires var g := first + t / half; Whole(half, g) + t % half < fills(g) <= Whole(half, g) + 2 * half
    ensures file[t] == stream(Whole(half, first) + t)
  {
    PlaceInStream(half, first, t / half, t % half, t);
    ValueIsIntended(file, ring, fills, half, stream, first, length, t);
  }

  lemma FloorIs(x: int, d: nat, q: nat)
    requires 0 < d
    ensures x / d * d == d * q <==> d * q <= x < d * q + d
  {
    var k := x / d;
    assert x == k * d + x % d;
    NonZeroMultiple(k - q, d);
    DifferenceTimes(k, q, d);
  }

  lemma DifferenceTimes(k: int, q: int, d: int)
    ensures (k - q) * d == k * d - d * q
  {
  }
}
