/** Decimal rendering of HTTP status codes (the `${status}` in an error message) and its inverse. */
module Decimal {

  predicate IsDigit(c: char) {
    '0' <= c <= '9'
  }

  predicate AllDigits(s: string) {
    forall i :: 0 <= i < |s| ==> IsDigit(s[i])
  }

  function Digit(d: nat): (c: char)
    requires d < 10
    ensures IsDigit(c)
  {
    ('0' as int + d) as char
  }

  function DigitValue(c: char): (d: nat)
    requires IsDigit(c)
    ensures d < 10 && Digit(d) == c
  {
    c as int - '0' as int
  }

  /** The decimal digits of `n`, without leading zeros, as JavaScript prints a non-negative integer. */
  function FromNat(n: nat): (s: string)
    ensures |s| > 0 && AllDigits(s)
    ensures |s| > 1 ==> s[0] != '0'
    decreases n
  {
    if n < 10 then [Digit(n)] else FromNat(n / 10) + [Digit(n % 10)]
  }

  /** The number a string of decimal digits denotes. */
  function ToNat(s: string): nat
    requires AllDigits(s)
    decreases |s|
  {
    if s == [] then 0 else ToNat(s[..|s| - 1]) * 10 + DigitValue(s[|s| - 1])
  }

  lemma {:induction false} ToNatFromNat(n: nat)
    ensures ToNat(FromNat(n)) == n
    decreases n
  {
    if n >= 10 {
      var s := FromNat(n / 10);
      assert (s + [Digit(n % 10)])[..|s|] == s;
      ToNatFromNat(n / 10);
    }
  }

  /** The longest prefix of `s` made of digits. */
  function LeadingDigits(s: string): (d: string)
    ensures AllDigits(d) && d <= s
    ensures |d| < |s| ==> !IsDigit(s[|d|])
  {
    if s == [] || !IsDigit(s[0]) then [] else [s[0]] + LeadingDigits(s[1..])
  }

  lemma {:induction false} LeadingDigitsOf(d: string, t: string)
    requires AllDigits(d)
    requires t == [] || !IsDigit(t[0])
    ensures LeadingDigits(d + t) == d
  {
    if d == [] {
      assert d + t == t;
    } else {
      assert (d + t)[1..] == d[1..] + t;
      LeadingDigitsOf(d[1..], t);
    }
  }
}
