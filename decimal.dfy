/** Decimal text of integers, as JavaScript writes an integer-valued number
    into a template literal or into JSON.stringify output, and a parser that
    reads such text back: the rendering's inverse. */
module Decimal {
  import opened Wrappers

  predicate IsDigit(c: char) {
    '0' <= c <= '9'
  }

  predicate AllDigits(s: string) {
    forall i :: 0 <= i < |s| ==> IsDigit(s[i])
  }

  function DigitValue(c: char): (d: nat)
    requires IsDigit(c)
    ensures d < 10
  {
    c as int - '0' as int
  }

  function DigitChar(d: nat): (c: char)
    requires d < 10
    ensures IsDigit(c) && DigitValue(c) == d
  {
    (48 + d) as char
  }

  /** The number a non-empty run of decimal digits denotes, most significant first. */
  function DigitsValue(s: string): nat
    requires AllDigits(s)
  {
    if s == [] then 0 else 10 * DigitsValue(s[..|s| - 1]) + DigitValue(s[|s| - 1])
  }

  /** Shortest decimal text of n: digits only, no leading zero, and it reads back as n. */
  function NatToString(n: nat): (s: string)
    ensures |s| > 0 && AllDigits(s)
    ensures DigitsValue(s) == n
    ensures s[0] == '0' ==> n == 0
    decreases n
  {
    if n < 10 then [DigitChar(n)]
    else
      var s := NatToString(n / 10) + [DigitChar(n % 10)];
      assert s[..|s| - 1] == NatToString(n / 10);
      s
  }

  /** `${i}` for an integer-valued JavaScript number: a minus sign for negatives. */
  function IntToString(i: int): (s: string)
    ensures |s| > 0
    ensures s[0] == '-' <==> i < 0
    ensures forall k :: 1 <= k < |s| ==> IsDigit(s[k])
  {
    if i < 0 then "-" + NatToString(-i) else NatToString(i)
  }

  /** Length of the longest prefix of s made of decimal digits. */
  function SpanDigits(s: string): (k: nat)
    ensures k <= |s| && AllDigits(s[..k])
    ensures k < |s| ==> !IsDigit(s[k])
  {
    if s == [] || !IsDigit(s[0]) then 0
    else
      var k := 1 + SpanDigits(s[1..]);
      assert s[..k] == [s[0]] + s[1..][..k - 1];
      k
  }

  /** Reads a maximal run of digits off the front of s. */
  function ParseNat(s: string): Option<(nat, string)> {
    var k := SpanDigits(s);
    if k == 0 then None else Some((DigitsValue(s[..k]), s[k..]))
  }

  /** Reads an optionally negative integer off the front of s. */
  function ParseInt(s: string): (r: Option<(int, string)>) {
    if |s| > 0 && s[0] == '-' then
      match ParseNat(s[1..])
      case None => None
      case Some((n, rest)) => Some((-(n as int), rest))
    else
      match ParseNat(s)
      case None => None
      case Some((n, rest)) => Some((n as int, rest))
  }

  lemma {:induction false} SpanOfDigits(d: string, rest: string)
    requires AllDigits(d)
    requires rest == [] || !IsDigit(rest[0])
    ensures SpanDigits(d + rest) == |d|
  {
    if d != [] {
      assert (d + rest)[1..] == d[1..] + rest;
      SpanOfDigits(d[1..], rest);
    }
  }

  /** Reading the decimal text of n back, followed by anything that does not
      start with a digit, gives n and exactly that remainder. */
  lemma NatRoundTrip(n: nat, rest: string)
    requires rest == [] || !IsDigit(rest[0])
    ensures ParseNat(NatToString(n) + rest) == Some((n, rest))
  {
    var d := NatToString(n);
    SpanOfDigits(d, rest);
    assert (d + rest)[..|d|] == d;
    assert (d + rest)[|d|..] == rest;
  }

  lemma IntRoundTrip(i: int, rest: string)
    requires rest == [] || !IsDigit(rest[0])
    ensures ParseInt(IntToString(i) + rest) == Some((i, rest))
  {
    if i < 0 {
      NegativeRoundTrip(-i, rest);
    } else {
      var d := NatToString(i);
      assert (d + rest)[0] == d[0] && IsDigit(d[0]);
      NatRoundTrip(i, rest);
    }
  }

  lemma NegativeRoundTrip(n: nat, rest: string)
    requires n > 0
    requires rest == [] || !IsDigit(rest[0])
    ensures ParseInt(IntToString(-(n as int)) + rest) == Some((-(n as int), rest))
  {
    var d := NatToString(n);
    var s := "-" + (d + rest);
    assert IntToString(-(n as int)) + rest == s;
    assert s[0] == '-' && s[1..] == d + rest;
    NatRoundTrip(n, rest);
    assert ParseNat(s[1..]) == Some((n, rest));
  }

  /** The integer written right after the text sep at the front of s, and
      what follows it. */
  function ReadAfter(sep: string, s: string): Option<(int, string)> {
    if sep <= s then ParseInt(s[|sep|..]) else None
  }

  lemma ReadAfterOf(sep: string, i: int, rest: string)
    requires rest == [] || !IsDigit(rest[0])
    ensures ReadAfter(sep, sep + (IntToString(i) + rest)) == Some((i, rest))
  {
    var s := sep + (IntToString(i) + rest);
    assert s[..|sep|] == sep && s[|sep|..] == IntToString(i) + rest;
    IntRoundTrip(i, rest);
  }

  /** Distinct integers have distinct decimal texts. */
  lemma IntToStringInjective(i: int, j: int)
    ensures IntToString(i) == IntToString(j) ==> i == j
  {
    IntRoundTrip(i, []);
    IntRoundTrip(j, []);
    assert IntToString(i) + [] == IntToString(i);
    assert IntToString(j) + [] == IntToString(j);
  }

  lemma SlashNotInInt(i: int)
    ensures '/' !in IntToString(i)
  {
  }
}
