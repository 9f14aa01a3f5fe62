/**
 * Decimal text of integers, as Python's str() (and an f-string field) prints an int:
 * an optional minus sign followed by the digits, most significant first, with no
 * leading zeros. ParseInt reads such text back; the two are inverse to each other.
 */
module Decimal {

  predicate IsDigit(c: char) {
    '0' <= c <= '9'
  }

  predicate AllDigits(s: string) {
    forall k :: 0 <= k < |s| ==> IsDigit(s[k])
  }

  function DigitChar(d: nat): (c: char)
    requires d < 10
    ensures IsDigit(c) && DigitValue(c) == d
  {
    ('0' as int + d) as char
  }

  function DigitValue(c: char): (d: nat)
    requires IsDigit(c)
    ensures d < 10
  {
    c as int - '0' as int
  }

  /** The digits of n, most significant first. */
  function NatToString(n: nat): string
    decreases n
  {
    if n < 10 then [DigitChar(n)] else NatToString(n / 10) + [DigitChar(n % 10)]
  }

  /** str(i) for a Python int. */
  function IntToString(i: int): string {
    if i < 0 then "-" + NatToString(-i) else NatToString(i)
  }

  /** The value of a string of decimal digits. */
  function ParseDigits(s: string): nat
    requires AllDigits(s)
    decreases |s|
  {
    if s == [] then 0 else ParseDigits(s[..|s| - 1]) * 10 + DigitValue(s[|s| - 1])
  }

  /** The digit part of a text that may start with a minus sign. */
  function Magnitude(s: string): string {
    if |s| > 0 && s[0] == '-' then s[1..] else s
  }

  /** The exact shape str() gives an int: no leading zeros, and no "-0". */
  predicate IsCanonical(s: string) {
    var digits := Magnitude(s);
    && |digits| >= 1
    && AllDigits(digits)
    && (digits[0] == '0' ==> digits == "0")
    && (digits != s ==> digits != "0")
  }

  /** int(s) for a canonical decimal text. */
  function ParseInt(s: string): int
    requires IsCanonical(s)
  {
    if |s| > 0 && s[0] == '-' then -(ParseDigits(s[1..]) as int) else ParseDigits(s)
  }

  lemma {:induction false} NatToStringDigits(n: nat)
    ensures |NatToString(n)| >= 1 && AllDigits(NatToString(n))
    ensures NatToString(n)[0] == '0' ==> n == 0
    ensures ParseDigits(NatToString(n)) == n
    decreases n
  {
    if n >= 10 {
      NatToStringDigits(n / 10);
      var s := NatToString(n);
      assert s[..|s| - 1] == NatToString(n / 10);
    }
  }

  /** Reading back what str() printed gives the same integer, and the text is canonical. */
  lemma IntRoundTrip(i: int)
    ensures IsCanonical(IntToString(i))
    ensures ParseInt(IntToString(i)) == i
  {
    var n: nat := if i < 0 then -i else i;
    NatToStringDigits(n);
    assert Magnitude(IntToString(i)) == NatToString(n);
  }

  lemma {:induction false} LeadingDigitPositive(s: string)
    requires |s| >= 1 && AllDigits(s) && s[0] != '0'
    ensures ParseDigits(s) > 0
    decreases |s|
  {
    if |s| > 1 {
      LeadingDigitPositive(s[..|s| - 1]);
    }
  }

  lemma {:induction false} DigitsRoundTrip(s: string)
    requires |s| >= 1 && AllDigits(s)
    requires s[0] == '0' ==> s == "0"
    ensures NatToString(ParseDigits(s)) == s
    decreases |s|
  {
    if |s| > 1 {
      var p := s[..|s| - 1];
      DigitsRoundTrip(p);
      LeadingDigitPositive(p);
      var n := ParseDigits(s);
      assert n / 10 == ParseDigits(p) && n % 10 == DigitValue(s[|s| - 1]);
      assert s == p + [s[|s| - 1]];
    }
  }

  /** Every canonical decimal text is what str() prints for its value. */
  lemma ParseRoundTrip(s: string)
    requires IsCanonical(s)
    ensures IntToString(ParseInt(s)) == s
  {
    var digits := Magnitude(s);
    DigitsRoundTrip(digits);
    if |s| > 0 && s[0] == '-' {
      LeadingDigitPositive(digits);
      assert s == "-" + digits;
    }
  }

  /** Decimal text holds only digits and a leading minus sign: never a line break. */
  lemma NoLineBreak(i: int)
    ensures '\n' !in IntToString(i)
  {
    NatToStringDigits(if i < 0 then -i else i);
  }
}
