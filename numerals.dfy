/**
 * Decimal rendering of integers, as a template literal `${n}` prints them, and
 * the value of a digit string, used to show that rendered texts read back.
 */
module Numerals {

  predicate IsDigit(c: char) {
    '0' <= c <= '9'
  }

  predicate AllDigits(s: string) {
    forall i :: 0 <= i < |s| ==> IsDigit(s[i])
  }

  function DigitChar(d: nat): (c: char)
    requires d < 10
    ensures IsDigit(c) && c as int - '0' as int == d
  {
    ('0' as int + d) as char
  }

  /** Decimal digits of `n`, most significant first, without leading zeros. */
  function NatText(n: nat): (s: string)
    ensures |s| >= 1 && AllDigits(s)
    ensures s[0] == '0' ==> n == 0
  {
    if n < 10 then [DigitChar(n)] else NatText(n / 10) + [DigitChar(n % 10)]
  }

  /** `${i}` for an integer `i` (a minus sign, then the digits of |i|). */
  function IntText(i: int): (s: string)
    ensures |s| >= 1
    ensures i >= 0 <==> AllDigits(s)
    ensures i < 0 ==> s[0] == '-'
  {
    if i < 0 then
      var s := "-" + NatText(-i);
      assert !IsDigit(s[0]);
      s
    else NatText(i)
  }

  /** The number a string of decimal digits denotes. */
  function ValueOf(s: string): nat
    requires AllDigits(s)
  {
    if s == [] then 0 else ValueOf(s[..|s| - 1]) * 10 + (s[|s| - 1] as int - '0' as int)
  }

  /** Rendering a natural number and reading it back gives the number. */
  lemma {:induction false} ValueOfNatText(n: nat)
    ensures ValueOf(NatText(n)) == n
  {
    if n >= 10 {
      var s := NatText(n);
      assert s[..|s| - 1] == NatText(n / 10);
      ValueOfNatText(n / 10);
    }
  }
}
