/**
 * Decimal rendering and parsing of integers: JavaScript's `String(n)` for
 * integral numbers and `parseInt(s, 10)` (an optional sign followed by the
 * longest run of decimal digits; no digits gives NaN, here `None`).
 */
module Decimal {
  import opened Wrappers

  predicate IsDigit(c: char) {
    '0' <= c <= '9'
  }

  predicate AllDigits(s: string) {
    forall i :: 0 <= i < |s| ==> IsDigit(s[i])
  }

  function DigitValue(c: char): (d: nat)
    requires IsDigit(c)
    ensures d < 10
  {
    (c as int) - ('0' as int)
  }

  function DigitChar(d: nat): (c: char)
    requires d < 10
    ensures IsDigit(c) && DigitValue(c) == d
  {
    (('0' as int) + d) as char
  }

  /** The decimal digits of `n`, most significant first, without leading zeros. */
  function NatToString(n: nat): (s: string)
    ensures |s| > 0 && AllDigits(s)
    ensures s[0] == '0' ==> n == 0
  {
    if n < 10 then [DigitChar(n)] else NatToString(n / 10) + [DigitChar(n % 10)]
  }

  /** `String(i)` for an integral number. */
  function IntToString(i: int): (s: string)
    ensures |s| > 0
    ensures i < 0 <==> s[0] == '-'
  {
    if i < 0 then "-" + NatToString(-i) else NatToString(i)
  }

  /** The number a string of decimal digits denotes. */
  function DigitsValue(s: string): nat
    requires AllDigits(s)
  {
    if s == [] then 0 else DigitsValue(s[..|s| - 1]) * 10 + DigitValue(s[|s| - 1])
  }

  /** The length of the longest prefix of `s` made of decimal digits. */
  function DigitPrefixLength(s: string): (k: nat)
    ensures k <= |s| && AllDigits(s[..k])
    ensures k < |s| ==> !IsDigit(s[k])
  {
    if s == [] || !IsDigit(s[0]) then 0
    else
      var k := 1 + DigitPrefixLength(s[1..]);
      assert s[..k] == [s[0]] + s[1..][..k - 1];
      k
  }

  /** `parseInt` without a sign: the value of the longest digit prefix, or NaN (`None`) if there is none. */
  function ParseUnsigned(s: string): (r: Option<nat>)
    ensures r.None? <==> (s == [] || !IsDigit(s[0]))
  {
    var k := DigitPrefixLength(s);
    if k == 0 then None else Some(DigitsValue(s[..k]))
  }

  /** `parseInt(s, 10)`: an optional `-` or `+`, then the longest digit prefix; `None` is NaN. */
  function ParseInt(s: string): (r: Option<int>)
    ensures r.Some? && |s| > 0 && s[0] == '-' ==> r.value <= 0
    ensures r.Some? && !(|s| > 0 && s[0] == '-') ==> r.value >= 0
    ensures r.None? <==>
      var t := if |s| > 0 && (s[0] == '-' || s[0] == '+') then s[1..] else s;
      t == [] || !IsDigit(t[0])
  {
    if |s| > 0 && (s[0] == '-' || s[0] == '+') then
      match ParseUnsigned(s[1..])
      case None => None
      case Some(n) => var v: int := if s[0] == '-' then -(n as int) else n; Some(v)
    else
      match ParseUnsigned(s)
      case None => None
      case Some(n) => Some(n)
  }

  /** A run of digits followed by a non-digit (or nothing) parses to the run's value. */
  lemma {:induction false} DigitPrefixOfDigits(d: string, t: string)
    requires AllDigits(d)
    requires t == [] || !IsDigit(t[0])
    ensures DigitPrefixLength(d + t) == |d|
  {
    if d != [] {
      assert (d + t)[1..] == d[1..] + t;
      DigitPrefixOfDigits(d[1..], t);
    } else {
      assert d + t == t;
    }
  }

  lemma {:induction false} NatToStringValue(n: nat)
    ensures DigitsValue(NatToString(n)) == n
  {
    if n >= 10 {
      var s := NatToString(n);
      assert s[..|s| - 1] == NatToString(n / 10);
      NatToStringValue(n / 10);
    }
  }

  /** The longest-prefix rule: digits followed by anything that does not start with a digit. */
  lemma ParseUnsignedPrefix(d: string, t: string)
    requires |d| > 0 && AllDigits(d)
    requires t == [] || !IsDigit(t[0])
    ensures ParseUnsigned(d + t) == Some(DigitsValue(d))
  {
    DigitPrefixOfDigits(d, t);
    assert (d + t)[..|d|] == d;
  }

  /** Printing a natural and parsing it back gives the natural. */
  lemma ParseUnsignedRoundTrip(n: nat)
    ensures ParseUnsigned(NatToString(n)) == Some(n)
  {
    ParseUnsignedPrefix(NatToString(n), []);
    assert NatToString(n) + [] == NatToString(n);
    NatToStringValue(n);
  }

  /** `parseInt(String(i))` is `i` for every integer `i`. */
  lemma ParseIntRoundTrip(i: int)
    ensures ParseInt(IntToString(i)) == Some(i)
  {
    if i < 0 {
      assert IntToString(i)[1..] == NatToString(-i);
      ParseUnsignedRoundTrip(-i);
    } else {
      ParseUnsignedRoundTrip(i);
    }
  }

  /**
   * The longest-prefix rule for any run of digits, leading zeros included,
   * followed by anything that does not start with a digit.
   */
  lemma ParseIntDigitsPrefix(d: string, t: string)
    requires |d| > 0 && AllDigits(d)
    requires t == [] || !IsDigit(t[0])
    ensures ParseInt(d + t) == Some(DigitsValue(d))
  {
    var s := d + t;
    assert s[0] == d[0] && IsDigit(s[0]);
    ParseUnsignedPrefix(d, t);
  }

  /** A sign in front of text that reads as `n` without one: `-` negates it, `+` keeps it. */
  lemma SignedParse(r: string, n: nat)
    requires ParseUnsigned(r) == Some(n)
    ensures ParseInt("-" + r).Some? && ParseInt("-" + r).value == -(n as int)
    ensures ParseInt("+" + r).Some? && ParseInt("+" + r).value == n
  {
    assert ("-" + r)[1..] == r;
    assert ("+" + r)[1..] == r;
  }

  /** The same rule after a sign: `-` negates the run's value and `+` keeps it. */
  lemma ParseSignedDigitsPrefix(d: string, t: string)
    requires |d| > 0 && AllDigits(d)
    requires t == [] || !IsDigit(t[0])
    ensures ParseInt("-" + (d + t)).Some? && ParseInt("-" + (d + t)).value == -(DigitsValue(d) as int)
    ensures ParseInt("+" + (d + t)).Some? && ParseInt("+" + (d + t)).value == DigitsValue(d)
  {
    ParseUnsignedPrefix(d, t);
    SignedParse(d + t, DigitsValue(d));
  }

  /** `parseInt` of a natural's digits followed by a non-digit reads the natural. */
  lemma ParseNatPrefix(n: nat, t: string)
    requires t == [] || !IsDigit(t[0])
    ensures ParseInt(NatToString(n) + t) == Some(n)
  {
    var digits := NatToString(n);
    var s := digits + t;
    assert s[0] == digits[0];
    ParseUnsignedPrefix(digits, t);
    NatToStringValue(n);
  }

  /** `parseInt` of a minus sign, a natural's digits and a non-digit reads the negated natural. */
  lemma ParseNegatedPrefix(n: nat, t: string)
    requires t == [] || !IsDigit(t[0])
    ensures ParseInt("-" + NatToString(n) + t) == Some(-(n as int))
  {
    var digits := NatToString(n);
    var s := "-" + digits + t;
    assert s[1..] == digits + t;
    ParseUnsignedPrefix(digits, t);
    NatToStringValue(n);
  }

  /** `parseInt` of an integer's text followed by a non-digit still reads the integer. */
  lemma ParseIntPrefix(i: int, t: string)
    requires t == [] || !IsDigit(t[0])
    ensures ParseInt(IntToString(i) + t) == Some(i)
  {
    if i < 0 {
      ParseNegatedPrefix(-i, t);
    } else {
      ParseNatPrefix(i, t);
    }
  }
}
