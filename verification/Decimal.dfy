/** Decimal digits: printing a natural number, and reading digits back. */
module Decimal {

  predicate IsDigit(c: char) {
    '0' <= c <= '9'
  }

  function DigitVal(c: char): (d: nat)
    requires IsDigit(c)
    ensures d < 10
  {
    c as int - '0' as int
  }

  function DigitChar(d: nat): (c: char)
    requires d < 10
    ensures IsDigit(c) && DigitVal(c) == d
  {
    (d + '0' as int) as char
  }

  predicate AllDigits(s: string) {
    forall i :: 0 <= i < |s| ==> IsDigit(s[i])
  }

  function FormatNat(n: nat): (s: string)
    ensures s != "" && AllDigits(s)
  {
    if n < 10 then [DigitChar(n)] else FormatNat(n / 10) + [DigitChar(n % 10)]
  }

  /** The number that digits stand for. */
  function Value(s: string): nat
    requires AllDigits(s)
  {
    if s == "" then 0 else Value(s[..|s| - 1]) * 10 + DigitVal(s[|s| - 1])
  }

  /** Digits are the characters 0 to 9, the first of two counting tens. */
  lemma DigitsMean(c: char, d: char)
    ensures IsDigit(c) <==> 48 <= c as int <= 57
    ensures IsDigit(c) && IsDigit(d) ==> AllDigits([c, d]) && Value([c, d]) == 10 * (c as int - 48) + (d as int - 48)
  {
    if IsDigit(c) && IsDigit(d) {
      assert [c, d][..1] == [c];
      assert Value([c]) == DigitVal(c);
    }
  }

  lemma {:induction false} ValueOfFormat(n: nat)
    ensures Value(FormatNat(n)) == n
  {
    if n >= 10 {
      ValueOfFormat(n / 10);
      var s := FormatNat(n);
      assert s[..|s| - 1] == FormatNat(n / 10);
    }
  }

  /** The digits at the front, and the rest. */
  function TakeDigits(s: string): (r: string)
    ensures AllDigits(r) && |r| <= |s| && r == s[..|r|]
    ensures |r| < |s| ==> !IsDigit(s[|r|])
  {
    if s != "" && IsDigit(s[0]) then [s[0]] + TakeDigits(s[1..]) else ""
  }

  function DropDigits(s: string): (r: string)
    ensures r == s[|TakeDigits(s)|..]
  {
    if s != "" && IsDigit(s[0]) then DropDigits(s[1..]) else s
  }

  lemma OneDigitInFront(s: string)
    requires s != "" && IsDigit(s[0])
    ensures TakeDigits(s) == [s[0]] + TakeDigits(s[1..]) && DropDigits(s) == DropDigits(s[1..])
  {
  }

  /** Digits put in front of a string join the ones it starts with. */
  lemma {:induction false} DigitsInFront(d: string, s: string)
    requires AllDigits(d)
    ensures TakeDigits(d + s) == d + TakeDigits(s) && DropDigits(d + s) == DropDigits(s)
  {
    hide TakeDigits, DropDigits;
    if d == "" {
      assert d + s == s && d + TakeDigits(s) == TakeDigits(s);
    } else {
      DigitsInFront(d[1..], s);
      assert (d + s)[1..] == d[1..] + s;
      OneDigitInFront(d + s);
      assert [d[0]] + (d[1..] + TakeDigits(s)) == d + TakeDigits(s);
    }
  }
}
