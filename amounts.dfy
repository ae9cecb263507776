/**
 * Monetary amounts. The program keeps amounts as Python floats and shows
 * them with two decimals (`f"{valor:.2f}"`); here an amount is a whole
 * number of cents, so that two-decimal text is exact.
 */
module Amounts {
  import opened Wrappers

  predicate IsDigit(c: char) { '0' <= c <= '9' }

  predicate IsDigits(s: string) {
    forall i :: 0 <= i < |s| ==> IsDigit(s[i])
  }

  function DigitChar(d: nat): (c: char)
    requires d < 10
    ensures IsDigit(c)
  {
    ('0' as int + d) as char
  }

  function DigitValue(c: char): (d: nat)
    requires IsDigit(c)
    ensures d < 10 && DigitChar(d) == c
  {
    c as int - '0' as int
  }

  /** Decimal text of a natural number, without leading zeros. */
  function NatText(n: nat): (s: string)
    ensures |s| >= 1 && IsDigits(s)
    ensures s[0] == '0' ==> n == 0
    decreases n
  {
    if n < 10 then [DigitChar(n)] else NatText(n / 10) + [DigitChar(n % 10)]
  }

  /** The number a string of decimal digits denotes. */
  function NatValue(s: string): nat
    requires IsDigits(s)
  {
    if s == [] then 0 else 10 * NatValue(s[..|s| - 1]) + DigitValue(s[|s| - 1])
  }

  lemma {:induction false} NatValueOfNatText(n: nat)
    ensures NatValue(NatText(n)) == n
    decreases n
  {
    if n >= 10 {
      NatValueOfNatText(n / 10);
      var s := NatText(n);
      assert s[..|s| - 1] == NatText(n / 10);
    }
  }

  /** Two-decimal text of a non-negative number of cents: `1234` gives `"12.34"`. */
  function UnsignedText(cents: nat): (s: string)
    ensures |s| >= 4 && s[|s| - 3] == '.' && IsDigit(s[0])
    ensures IsDigits(s[..|s| - 3]) && IsDigit(s[|s| - 2]) && IsDigit(s[|s| - 1])
  {
    NatText(cents / 100) + "." + [DigitChar(cents % 100 / 10), DigitChar(cents % 10)]
  }

  /** What `f"{valor:.2f}"` shows for an amount of `cents` cents. */
  function FormatCents(cents: int): (s: string)
    ensures |s| >= 4 && s[|s| - 3] == '.'
    ensures (s[0] == '-') <==> cents < 0
  {
    if cents < 0 then "-" + UnsignedText(-cents) else UnsignedText(cents)
  }

  function ParseUnsigned(s: string): Option<nat> {
    if |s| >= 4 && s[|s| - 3] == '.' && IsDigits(s[..|s| - 3])
       && IsDigit(s[|s| - 2]) && IsDigit(s[|s| - 1])
    then Some(100 * NatValue(s[..|s| - 3]) + 10 * DigitValue(s[|s| - 2]) + DigitValue(s[|s| - 1]))
    else None
  }

  /** Reads back a two-decimal amount, with an optional leading minus sign. */
  function ParseCents(s: string): Option<int> {
    if |s| > 0 && s[0] == '-' then
      match ParseUnsigned(s[1..])
      case Some(v) => Some(-(v as int))
      case None => None
    else
      match ParseUnsigned(s)
      case Some(v) => Some(v)
      case None => None
  }

  /** The two-decimal text loses nothing: it determines the amount in cents. */
  lemma {:induction false} FormatCentsRoundTrip(cents: int)
    ensures ParseCents(FormatCents(cents)) == Some(cents)
  {
    var u: nat := if cents < 0 then -cents else cents;
    var t := UnsignedText(u);
    assert t[..|t| - 3] == NatText(u / 100);
    NatValueOfNatText(u / 100);
    assert ParseUnsigned(t) == Some(u);
    if cents < 0 {
      assert FormatCents(cents)[1..] == t;
    }
  }

  /** Two different amounts never show the same text. */
  lemma FormatCentsInjective(a: int, b: int)
    requires FormatCents(a) == FormatCents(b)
    ensures a == b
  {
    FormatCentsRoundTrip(a);
    FormatCentsRoundTrip(b);
  }
}
