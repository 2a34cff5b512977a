/**
 * Decimal rendering of integers, as JavaScript's `Number.prototype.toString()` does for safe
 * integers (magnitude below 2^53); larger numbers, printed in exponent form from 1e21 on, are not
 * covered.
 */
module Decimal {

  predicate IsDigit(c: char) {
    '0' <= c <= '9'
  }

  function DigitChar(d: nat): (c: char)
    requires d < 10
    ensures IsDigit(c) && c as int - '0' as int == d
  {
    "0123456789"[d]
  }

  /** The digits of `n`, most significant first, without leading zeros. */
  function NatToString(n: nat): (s: string)
    ensures |s| >= 1
    ensures forall i :: 0 <= i < |s| ==> IsDigit(s[i])
    ensures |s| > 1 ==> s[0] != '0'
    decreases n
  {
    if n < 10 then [DigitChar(n)] else NatToString(n / 10) + [DigitChar(n % 10)]
  }

  /** `n.toString()` of a safe integer: a minus sign for negative values, then the digits of the magnitude. */
  function IntToString(n: int): (s: string)
    ensures |s| >= 1
    ensures n >= 0 ==> forall i :: 0 <= i < |s| ==> IsDigit(s[i])
    ensures n < 0 ==> s[0] == '-'
  {
    if n < 0 then "-" + NatToString(-n) else NatToString(n)
  }

  function DigitValue(c: char): nat
    requires IsDigit(c)
  {
    c as int - '0' as int
  }

  /** The value denoted by a string of digits. */
  function DigitsValue(s: string): nat
    requires forall i :: 0 <= i < |s| ==> IsDigit(s[i])
  {
    if s == [] then 0 else 10 * DigitsValue(s[..|s| - 1]) + DigitValue(s[|s| - 1])
  }

  /** Reading the digits back gives the number: the rendering loses nothing. */
  lemma {:induction false} NatToStringRoundTrip(n: nat)
    ensures DigitsValue(NatToString(n)) == n
    decreases n
  {
    var s := NatToString(n);
    if n >= 10 {
      NatToStringRoundTrip(n / 10);
      assert s[..|s| - 1] == NatToString(n / 10);
    }
  }

  lemma NegativeStartsWithMinus(n: int)
    ensures (IntToString(n)[0] == '-') == (n < 0)
  {
    if n >= 0 {
      assert IsDigit(NatToString(n)[0]);
    }
  }

  lemma SameValue(a: nat, b: nat, s: string)
    requires s == NatToString(a) && s == NatToString(b)
    ensures a == b
  {
    NatToStringRoundTrip(a);
    NatToStringRoundTrip(b);
  }

  lemma SameMagnitude(a: nat, b: nat, s: string)
    requires s == "-" + NatToString(a) && s == "-" + NatToString(b)
    ensures a == b
  {
    assert NatToString(a) == s[1..] == NatToString(b);
    SameValue(a, b, s[1..]);
  }

  /** Distinct integers render as distinct strings, so comparing an id with `toString()` is comparing numbers. */
  lemma IntToStringInjective(a: int, b: int)
    requires IntToString(a) == IntToString(b)
    ensures a == b
  {
    NegativeStartsWithMinus(a);
    NegativeStartsWithMinus(b);
    var s := IntToString(a);
    if a < 0 {
      assert b < 0;
      SameMagnitude(-a, -b, s);
    } else {
      assert b >= 0;
      SameValue(a, b, s);
    }
  }
}
