/** Joining and splitting text at a separator. */
module Text {

  predicate Free(s: string, c: char) {
    c !in s
  }

  ghost predicate AllFree(parts: seq<string>, c: char) {
    forall i :: 0 <= i < |parts| ==> Free(parts[i], c)
  }

  function Join(parts: seq<string>, c: char): string {
    if parts == [] then ""
    else if |parts| == 1 then parts[0]
    else parts[0] + [c] + Join(parts[1..], c)
  }

  /** Where `c` first occurs, or the length of the text. */
  function Find(s: string, c: char): (k: nat)
    ensures k <= |s| && Free(s[..k], c) && (k < |s| ==> s[k] == c)
  {
    if s == "" || s[0] == c then 0
    else
      var k := Find(s[1..], c);
      assert s[..k + 1] == [s[0]] + s[1..][..k];
      k + 1
  }

  /** The parts of a text between separators; there is always at least one. */
  function Split(s: string, c: char): (parts: seq<string>)
    ensures parts != []
    decreases |s|
  {
    var k := Find(s, c);
    if k == |s| then [s] else [s[..k]] + Split(s[k + 1..], c)
  }

  lemma FindIs(s: string, c: char, k: nat)
    requires k <= |s| && Free(s[..k], c) && (k < |s| ==> s[k] == c)
    ensures Find(s, c) == k
  {
    var f := Find(s, c);
    assert forall i :: 0 <= i < k ==> s[i] == s[..k][i];
    assert forall i :: 0 <= i < f ==> s[i] == s[..f][i];
  }

  lemma SplitFirst(part: string, rest: string, c: char)
    requires Free(part, c)
    ensures Split(part, c) == [part] && Split(part + [c] + rest, c) == [part] + Split(rest, c)
  {
    assert part[..|part|] == part;
    FindIs(part, c, |part|);
    var s := part + [c] + rest;
    assert s[..|part|] == part && s[|part| + 1..] == rest;
    FindIs(s, c, |part|);
  }

  /** Splitting undoes joining. */
  lemma {:induction false} SplitOfJoin(parts: seq<string>, c: char)
    requires parts != [] && AllFree(parts, c)
    ensures Split(Join(parts, c), c) == parts
  {
    if |parts| == 1 {
      SplitFirst(parts[0], "", c);
    } else {
      assert forall i :: 0 <= i < |parts[1..]| ==> parts[1..][i] == parts[i + 1];
      SplitOfJoin(parts[1..], c);
      SplitFirst(parts[0], Join(parts[1..], c), c);
      assert parts == [parts[0]] + parts[1..];
    }
  }

  lemma JoinFirst(part: string, rest: seq<string>, c: char)
    requires rest != []
    ensures Join([part] + rest, c) == part + [c] + Join(rest, c)
  {
    assert ([part] + rest)[1..] == rest;
  }

  lemma CutAt(s: string, k: nat, c: char)
    requires k < |s| && s[k] == c
    ensures s == s[..k] + [c] + s[k + 1..]
  {
  }

  lemma FreeFirst(part: string, rest: seq<string>, c: char)
    requires Free(part, c) && AllFree(rest, c)
    ensures AllFree([part] + rest, c)
  {
  }

  lemma SplitStep(s: string, c: char)
    requires Find(s, c) < |s|
    ensures Split(s, c) == [s[..Find(s, c)]] + Split(s[Find(s, c) + 1..], c)
  {
  }

  /** No part has a separator in it. */
  lemma {:induction false} SplitIsFree(s: string, c: char)
    ensures AllFree(Split(s, c), c)
    decreases |s|
  {
    var k := Find(s, c);
    if k < |s| {
      SplitIsFree(s[k + 1..], c);
      FreeFirst(s[..k], Split(s[k + 1..], c), c);
      SplitStep(s, c);
    } else {
      assert s[..k] == s;
    }
  }

  /** Joining undoes splitting. */
  lemma {:induction false} JoinOfSplit(s: string, c: char)
    ensures Join(Split(s, c), c) == s
    decreases |s|
  {
    var k := Find(s, c);
    if k < |s| {
      JoinOfSplit(s[k + 1..], c);
      SplitStep(s, c);
      JoinFirst(s[..k], Split(s[k + 1..], c), c);
      CutAt(s, k, c);
    }
  }

  /** Every part with a separator behind it. */
  function Flat(parts: seq<string>, c: char): string {
    if parts == [] then "" else Flat(parts[..|parts| - 1], c) + parts[|parts| - 1] + [c]
  }

  lemma FlatStep(parts: seq<string>, part: string, c: char)
    ensures Flat(parts + [part], c) == Flat(parts, c) + part + [c]
  {
    assert (parts + [part])[..|parts|] == parts;
  }

  lemma {:induction false} FlatIsJoin(parts: seq<string>, c: char)
    requires parts != []
    ensures Flat(parts, c) == Join(parts, c) + [c]
  {
    var front, last := parts[..|parts| - 1], parts[|parts| - 1];
    assert parts == front + [last];
    FlatStep(front, last, c);
    if front == [] {
      assert Flat(front, c) == "";
    } else {
      FlatIsJoin(front, c);
      JoinExtends(front, last, c);
    }
  }

  lemma {:induction false} JoinExtends(parts: seq<string>, last: string, c: char)
    requires parts != []
    ensures Join(parts + [last], c) == Join(parts, c) + [c] + last
  {
    if |parts| > 1 {
      JoinExtends(parts[1..], last, c);
      assert (parts + [last])[1..] == parts[1..] + [last];
    } else {
      assert (parts + [last])[1..] == [last];
    }
  }
}
