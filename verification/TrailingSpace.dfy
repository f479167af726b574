/** The word-at-a-time trim of m_string.h against the byte loop it speeds up. */
module TrailingSpace {
  import opened Bytes

  const SPACE: byte := 0x20

  /** The word full of spaces, for the two word sizes the header supports. */
  function SpaceInt(word: nat): nat
    requires word == 4 || word == 8
  {
    if word == 4 then 0x20202020 else 0x2020202020202020
  }

  /** The unsigned value of `bytes`, least significant first. */
  function WordValue(bytes: seq<byte>): nat {
    if bytes == [] then 0 else bytes[0] + 256 * WordValue(bytes[1..])
  }

  predicate AllSpaces(bytes: seq<byte>) {
    forall k :: 0 <= k < |bytes| ==> bytes[k] == SPACE
  }

  /** Where trimming one byte at a time stops. */
  function TrimmedLength(buf: seq<byte>): (n: nat)
    ensures n <= |buf|
  {
    if buf != [] && buf[|buf| - 1] == SPACE then TrimmedLength(buf[..|buf| - 1]) else |buf|
  }

  /** Trimming removes exactly the longest run of spaces at the end. */
  lemma {:induction false} TrimRemovesTrailingSpaces(buf: seq<byte>, n: nat)
    requires n <= |buf|
    ensures n == TrimmedLength(buf) <==> AllSpaces(buf[n..]) && (n == 0 || buf[n - 1] != SPACE)
    decreases |buf|
  {
    if buf != [] && buf[|buf| - 1] == SPACE {
      var rest := buf[..|buf| - 1];
      if n < |buf| {
        TrimRemovesTrailingSpaces(rest, n);
        assert buf[n..] == rest[n..] + [SPACE];
      }
    } else if n < |buf| {
      assert buf[n..][|buf| - 1 - n] == buf[|buf| - 1];
    }
  }

  lemma {:induction false} EqualValuesEqualBytes(a: seq<byte>, b: seq<byte>)
    requires |a| == |b| && WordValue(a) == WordValue(b)
    ensures a == b
    decreases |a|
  {
    if a != [] {
      assert a[0] == WordValue(a) % 256 && b[0] == WordValue(b) % 256;
      EqualValuesEqualBytes(a[1..], b[1..]);
      assert a == [a[0]] + a[1..] && b == [b[0]] + b[1..];
    }
  }

  /** A word equals `SPACE_INT` exactly when all of its bytes are spaces. */
  lemma SpaceWord(bytes: seq<byte>)
    requires |bytes| == 4 || |bytes| == 8
    ensures WordValue(bytes) == SpaceInt(|bytes|) <==> AllSpaces(bytes)
  {
    var four: seq<byte> := [SPACE, SPACE, SPACE, SPACE];
    var spaces: seq<byte> := if |bytes| == 4 then four else four + four;
    assert four == four + [];
    SpacesFirst([]);
    SpacesFirst(four);
    assert WordValue(spaces) == SpaceInt(|bytes|);
    if WordValue(bytes) == SpaceInt(|bytes|) {
      EqualValuesEqualBytes(bytes, spaces);
    }
    if AllSpaces(bytes) {
      assert bytes == spaces;
    }
  }

  lemma SpacesFirst(tail: seq<byte>)
    ensures WordValue([SPACE, SPACE, SPACE, SPACE] + tail) == 0x20202020 + 0x1_0000_0000 * WordValue(tail)
  {
    var a := [SPACE] + tail;
    var b := [SPACE] + a;
    var c := [SPACE] + b;
    var d := [SPACE] + c;
    FirstByte(tail);
    FirstByte(a);
    FirstByte(b);
    FirstByte(c);
    assert d == [SPACE, SPACE, SPACE, SPACE] + tail;
  }

  lemma FirstByte(tail: seq<byte>)
    ensures WordValue([SPACE] + tail) == SPACE + 256 * WordValue(tail)
  {
    assert ([SPACE] + tail)[1..] == tail;
  }

  /** The bytes of the string at addresses `[ptr, ptr + |buf|)`; nothing else may be read. */
  function ReadByte(buf: seq<byte>, ptr: nat, address: nat): byte
    requires ptr <= address < ptr + |buf|
  {
    buf[address - ptr]
  }

  function ReadWord(buf: seq<byte>, ptr: nat, address: nat, word: nat): nat
    requires word > 0 && ptr <= address && address + word <= ptr + |buf| && address % word == 0
  {
    WordValue(buf[address - ptr..address - ptr + word])
  }

  lemma TrimStep(buf: seq<byte>, n: nat, m: nat)
    requires m <= n <= |buf| && AllSpaces(buf[n..]) && AllSpaces(buf[m..n])
    ensures AllSpaces(buf[m..])
  {
    forall k | 0 <= k < |buf| - m
      ensures buf[m..][k] == SPACE
    {
      assert buf[m..][k] == if k < n - m then buf[m..n][k] else buf[n..][k - (n - m)];
    }
  }

  /** The last word boundary at or below an address, and the first at or above it. */
  function AlignDown(address: nat, word: nat): (r: nat)
    requires word == 4 || word == 8
    ensures r <= address < r + word && r % word == 0
  {
    address / word * word
  }

  function AlignUp(address: nat, word: nat): (r: nat)
    requires word == 4 || word == 8
    ensures address <= r < address + word && r % word == 0
  {
    (address + word - 1) / word * word
  }

  lemma WordBelow(end: nat, start: nat, word: nat)
    requires word == 4 || word == 8
    requires end % word == 0 && start % word == 0 && start < end
    ensures start <= end - word && (end - word) % word == 0
  {
    if word == 4 {
      assert end % 4 == 0 && start % 4 == 0;
    } else {
      assert end % 8 == 0 && start % 8 == 0;
    }
  }

  /** For every string, every alignment of its address and either word size, the fast trim
      terminates, reads only the string's own bytes, words only at word boundaries, and
      stops where the byte loop stops. */
  method SkipTrailingSpace(buf: seq<byte>, ptr: nat, word: nat) returns (end: nat)
    requires word == 4 || word == 8
    ensures end == ptr + TrimmedLength(buf)
  {
    end := ptr + |buf|;
    if |buf| > 20 {
      var endWords := AlignDown(end, word);
      var startWords := AlignUp(ptr, word);
      if endWords > ptr {
        end := SkipBytes(buf, ptr, end, endWords);
        if ReadByte(buf, ptr, end - 1) == SPACE && startWords < endWords {
          end := SkipWords(buf, ptr, word, end, startWords);
        }
      }
    }
    end := SkipBytes(buf, ptr, end, ptr);
    TrimRemovesTrailingSpaces(buf, end - ptr);
  }

  /** The loops before and after it: single bytes, down to `stop`. */
  method SkipBytes(buf: seq<byte>, ptr: nat, from: nat, stop: nat) returns (end: nat)
    requires ptr <= stop <= from <= ptr + |buf| && AllSpaces(buf[from - ptr..])
    ensures stop <= end <= from && AllSpaces(buf[end - ptr..])
    ensures end == stop || buf[end - ptr - 1] != SPACE
  {
    end := from;
    while end > stop && ReadByte(buf, ptr, end - 1) == SPACE
      invariant stop <= end <= from && AllSpaces(buf[end - ptr..])
    {
      TrimStep(buf, end - ptr, end - ptr - 1);
      end := end - 1;
    }
  }

  /** The middle loop: whole words of spaces, down to `startWords`. */
  method SkipWords(buf: seq<byte>, ptr: nat, word: nat, from: nat, startWords: nat) returns (end: nat)
    requires word == 4 || word == 8
    requires ptr <= startWords <= from <= ptr + |buf| && from % word == 0 && startWords % word == 0
    requires AllSpaces(buf[from - ptr..])
    ensures startWords <= end <= from && AllSpaces(buf[end - ptr..])
    ensures end == startWords || (startWords <= end - word && !AllSpaces(buf[end - ptr - word..end - ptr]))
  {
    end := from;
    while end > startWords
          && (WordBelow(end, startWords, word); ReadWord(buf, ptr, end - word, word) == SpaceInt(word))
      invariant startWords <= end <= from && end % word == 0
      invariant AllSpaces(buf[end - ptr..])
    {
      WordBelow(end, startWords, word);
      SpaceWord(buf[end - word - ptr..end - ptr]);
      TrimStep(buf, end - ptr, end - word - ptr);
      end := end - word;
    }
    if end > startWords {
      WordBelow(end, startWords, word);
      SpaceWord(buf[end - word - ptr..end - ptr]);
    }
  }
}
