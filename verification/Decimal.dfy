/** Numbers with two decimals, as main.cpp prints them: the C library's "%.2f" on the reals. */
module Decimal {

  function Digit(d: nat): char
    requires d < 10
  {
    "0123456789"[d]
  }

  function Digits(n: nat): (text: string)
    ensures text != []
  {
    if n < 10 then [Digit(n)] else Digits(n / 10) + [Digit(n % 10)]
  }

  /** A number of hundredths, with its point. */
  function Hundredths(h: nat): string {
    Digits(h / 100) + ['.', Digit(h / 10 % 10), Digit(h % 10)]
  }

  function Magnitude(r: real): real {
    if r < 0.0 then -r else r
  }

  /** The library rounds to a nearest number of hundredths, whichever of two it prefers. */
  predicate Nearest(h: nat, r: real) {
    -0.5 <= 100.0 * Magnitude(r) - h as real <= 0.5
  }

  function Signed(r: real, text: string): string {
    if r < 0.0 then "-" + text else text
  }

  ghost predicate PrintsAt(format: real -> string, r: real) {
    exists h: nat :: Nearest(h, r) && format(r) == Signed(r, Hundredths(h))
  }

  ghost predicate PrintsHundredths(format: real -> string) {
    forall r :: PrintsAt(format, r)
  }

  /** There is such a format: the one that prefers the larger. */
  function TwoDecimals(r: real): string {
    Signed(r, Hundredths((100.0 * Magnitude(r) + 0.5).Floor))
  }

  lemma TwoDecimalsPrints()
    ensures PrintsHundredths(TwoDecimals)
  {
    forall r
      ensures PrintsAt(TwoDecimals, r)
    {
      var h: nat := (100.0 * Magnitude(r) + 0.5).Floor;
      assert Nearest(h, r) && TwoDecimals(r) == Signed(r, Hundredths(h));
    }
  }

  function Ten(k: nat): nat {
    if k == 0 then 1 else 10 * Ten(k - 1)
  }

  /** A number below the power `k` of ten has at most `k` digits. */
  lemma {:induction false} DigitsLength(n: nat, k: nat)
    requires 0 < k && n < Ten(k)
    ensures |Digits(n)| <= k
  {
    if n >= 10 {
      assert Ten(k) == 10 * Ten(k - 1);
      assert k > 1;
      DigitsLength(n / 10, k - 1);
    }
  }

  lemma HundredthsLength(h: nat)
    requires h <= 100 * 1000000000000
    ensures |Hundredths(h)| <= 16
  {
    assert Ten(13) == 10000000000000;
    DigitsLength(h / 100, 13);
  }

  lemma NearestAtMost(h: nat, r: real, b: nat)
    requires Nearest(h, r) && 0.0 <= r <= b as real
    ensures h <= 100 * b
  {
    assert h as real <= (100 * b) as real + 0.5;
  }

  /** A positive number up to the power twelve of ten is printed in at most sixteen characters. */
  lemma PrintedLength(format: real -> string, r: real)
    requires PrintsHundredths(format) && 0.0 <= r <= 1000000000000.0
    ensures |format(r)| <= 16
  {
    assert PrintsAt(format, r);
    var h: nat :| Nearest(h, r) && format(r) == Signed(r, Hundredths(h));
    NearestAtMost(h, r, 1000000000000);
    HundredthsLength(h);
  }

  predicate IsNumeral(text: string) {
    forall i :: 0 <= i < |text| ==> text[i] in "0123456789.-"
  }

  lemma {:induction false} DigitsAreNumeral(n: nat)
    ensures IsNumeral(Digits(n))
  {
    if n >= 10 {
      DigitsAreNumeral(n / 10);
    }
  }

  lemma PrintedIsNumeral(format: real -> string, r: real)
    requires PrintsHundredths(format)
    ensures IsNumeral(format(r))
  {
    assert PrintsAt(format, r);
    var h: nat :| Nearest(h, r) && format(r) == Signed(r, Hundredths(h));
    DigitsAreNumeral(h / 100);
  }

  // ---------------------------------------------------------------- reading it back

  function ValueOf(c: char): nat {
    if '0' <= c <= '9' then (c - '0') as nat else 0
  }

  /** The number that the digits of a text make, points passed over. */
  function NumberOf(text: string): nat {
    if text == "" then 0
    else
      var most, last := text[..|text| - 1], text[|text| - 1];
      if last == '.' then NumberOf(most) else 10 * NumberOf(most) + ValueOf(last)
  }

  lemma ValueOfDigit(d: nat)
    requires d < 10
    ensures ValueOf(Digit(d)) == d && Digit(d) != '.'
  {
  }

  lemma NumberOfAppended(text: string, c: char)
    ensures NumberOf(text + [c]) == if c == '.' then NumberOf(text) else 10 * NumberOf(text) + ValueOf(c)
  {
    assert (text + [c])[..|text|] == text;
  }

  lemma {:induction false} NumberOfDigits(n: nat)
    ensures NumberOf(Digits(n)) == n
  {
    if n < 10 {
      NumberOfAppended("", Digit(n));
      ValueOfDigit(n);
      assert [Digit(n)] == "" + [Digit(n)];
    } else {
      NumberOfDigits(n / 10);
      NumberOfAppended(Digits(n / 10), Digit(n % 10));
      ValueOfDigit(n % 10);
    }
  }

  lemma NumberWithPoint(whole: string, a: nat, b: nat)
    requires a < 10 && b < 10
    ensures NumberOf(whole + ['.', Digit(a), Digit(b)]) == 100 * NumberOf(whole) + 10 * a + b
  {
    var pointed := whole + ['.'];
    var tenths := pointed + [Digit(a)];
    NumberOfAppended(whole, '.');
    NumberOfAppended(pointed, Digit(a));
    NumberOfAppended(tenths, Digit(b));
    ValueOfDigit(a);
    ValueOfDigit(b);
    assert whole + ['.', Digit(a), Digit(b)] == tenths + [Digit(b)];
  }

  lemma HundredthsParts(h: nat)
    ensures 100 * (h / 100) + 10 * (h / 10 % 10) + h % 10 == h
  {
  }

  lemma NumberOfHundredths(h: nat)
    ensures NumberOf(Hundredths(h)) == h
  {
    NumberOfDigits(h / 100);
    NumberWithPoint(Digits(h / 100), h / 10 % 10, h % 10);
    HundredthsParts(h);
  }

  /** What is printed of a positive number, read back in hundredths, is the number to within
      half a hundredth. */
  lemma ReadsBack(format: real -> string, r: real)
    requires PrintsHundredths(format) && 0.0 <= r
    ensures Nearest(NumberOf(format(r)), r)
  {
    assert PrintsAt(format, r);
    var h: nat :| Nearest(h, r) && format(r) == Signed(r, Hundredths(h));
    NumberOfHundredths(h);
  }
}
