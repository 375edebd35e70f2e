/**
 * Decimal rendering of integers, as JavaScript's `n.toString()` and template
 * literals `${n}` produce it for integral numbers, with the reader that
 * undoes it.
 */
module Decimal {
  import opened Options

  predicate IsDigit(c: char) {
    '0' <= c <= '9'
  }

  predicate AllDigits(s: string) {
    forall i :: 0 <= i < |s| ==> IsDigit(s[i])
  }

  function DigitChar(d: nat): (c: char)
    requires d < 10
    ensures IsDigit(c)
  {
    ('0' as int + d) as char
  }

  function DigitValue(c: char): nat
    requires IsDigit(c)
  {
    c as int - '0' as int
  }

  /** `n.toString()` for a non-negative integer: its digits, most significant first, without leading zeros. */
  function NatToString(n: nat): (s: string)
    ensures |s| >= 1 && AllDigits(s)
    ensures s[0] == '0' ==> n == 0
  {
    if n < 10 then [DigitChar(n)] else NatToString(n / 10) + [DigitChar(n % 10)]
  }

  /** The number a string of digits denotes. */
  function ValueOf(s: string): nat
    requires AllDigits(s)
  {
    if s == [] then 0 else ValueOf(s[..|s| - 1]) * 10 + DigitValue(s[|s| - 1])
  }

  /** Reading back what `NatToString` writes gives the number written. */
  lemma {:induction false} ValueOfNatToString(n: nat)
    ensures ValueOf(NatToString(n)) == n
  {
    var s := NatToString(n);
    if n >= 10 {
      ValueOfNatToString(n / 10);
      assert s[..|s| - 1] == NatToString(n / 10);
    }
  }

  /** Distinct numbers render as distinct strings. */
  lemma NatToStringInjective(m: nat, n: nat)
    requires NatToString(m) == NatToString(n)
    ensures m == n
  {
    ValueOfNatToString(m);
    ValueOfNatToString(n);
  }

  /** `${i}` for any integer: a minus sign before the digits of a negative number. */
  function IntToString(i: int): string {
    if i < 0 then "-" + NatToString(-i) else NatToString(i)
  }

  /** The number of digits at the start of `s`. */
  function LeadingDigits(s: string): (k: nat)
    ensures k <= |s| && AllDigits(s[..k])
    ensures k < |s| ==> !IsDigit(s[k])
  {
    if s != [] && IsDigit(s[0]) then
      var k := LeadingDigits(s[1..]) + 1;
      assert s[..k] == [s[0]] + s[1..][..k - 1];
      k
    else 0
  }

  /** Reads an optionally signed decimal integer from the start of `s`, returning it and the rest of `s`. */
  function ReadInt(s: string): Option<(int, string)> {
    var negative := s != [] && s[0] == '-';
    var body := if negative then s[1..] else s;
    var k := LeadingDigits(body);
    if k == 0 then None
    else
      var n: int := ValueOf(body[..k]);
      Some((if negative then -n else n, body[k..]))
  }

  /** The digits of a rendering followed by a non-digit end exactly where the rendering ends. */
  lemma {:induction false} LeadingDigitsOfDigits(d: string, rest: string)
    requires AllDigits(d)
    requires rest == [] || !IsDigit(rest[0])
    ensures LeadingDigits(d + rest) == |d|
  {
    if d != [] {
      assert (d + rest)[1..] == d[1..] + rest;
      LeadingDigitsOfDigits(d[1..], rest);
    } else {
      assert d + rest == rest;
    }
  }

  /** The digits of a rendering, followed by any non-digit text, read back as the number rendered. */
  lemma ReadDigits(m: nat, rest: string)
    requires rest == [] || !IsDigit(rest[0])
    ensures var d := NatToString(m);
            && LeadingDigits(d + rest) == |d|
            && (d + rest)[..|d|] == d && (d + rest)[|d|..] == rest
            && ValueOf(d) == m
  {
    LeadingDigitsOfDigits(NatToString(m), rest);
    ValueOfNatToString(m);
  }

  /** Reading an integer back from its rendering, followed by any non-digit text, gives the integer and that text. */
  lemma ReadIntToString(i: int, rest: string)
    requires rest == [] || !IsDigit(rest[0])
    ensures ReadInt(IntToString(i) + rest) == Some((i, rest))
  {
    var m: nat := if i < 0 then -i else i;
    var body := NatToString(m) + rest;
    ReadDigits(m, rest);
    if i < 0 {
      assert IntToString(i) + rest == "-" + body;
      assert ("-" + body)[1..] == body;
    } else {
      assert IntToString(i) + rest == body;
      assert IsDigit(body[0]);
    }
  }
}
