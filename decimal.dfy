/** Decimal text of integers, as JavaScript's `String(n)` writes a safe integer, its
    reading back, and `padStart`. */
module Decimal {

  predicate IsDigit(c: char) {
    '0' <= c <= '9'
  }

  /** A non-empty run of decimal digits (`\d+`). */
  predicate IsDigits(s: string) {
    s != [] && forall k :: 0 <= k < |s| ==> IsDigit(s[k])
  }

  function DigitChar(d: nat): (c: char)
    requires d < 10
    ensures IsDigit(c)
  {
    ('0' as int + d) as char
  }

  function DigitValue(c: char): (d: nat)
    requires IsDigit(c)
    ensures d < 10
  {
    c as int - '0' as int
  }

  /** `String(n)` for a non-negative integer: its digits, without leading zeros. */
  function NatToString(n: nat): (s: string)
    ensures IsDigits(s)
    ensures |s| == 1 <==> n < 10
    ensures |s| == 2 <==> 10 <= n < 100
    decreases n
  {
    if n < 10 then [DigitChar(n)] else NatToString(n / 10) + [DigitChar(n % 10)]
  }

  /** `String(i)` for any integer: a minus sign before the digits of a negative one. */
  function IntToString(i: int): (s: string)
    ensures i >= 0 ==> IsDigits(s)
    ensures i < 0 ==> |s| >= 2 && s[0] == '-' && IsDigits(s[1..])
  {
    if i < 0 then "-" + NatToString(-i) else NatToString(i)
  }

  /** The value of a string of digits, leading zeros allowed (`parseInt(s, 10)`). */
  function DigitsValue(s: string): nat
    requires forall k :: 0 <= k < |s| ==> IsDigit(s[k])
  {
    if s == [] then 0 else DigitsValue(s[..|s| - 1]) * 10 + DigitValue(s[|s| - 1])
  }

  /** Reading the digits of `n` back gives `n`. */
  lemma {:induction false} NatToStringRoundTrip(n: nat)
    ensures DigitsValue(NatToString(n)) == n
    decreases n
  {
    if n >= 10 {
      var s := NatToString(n);
      assert s[..|s| - 1] == NatToString(n / 10);
      NatToStringRoundTrip(n / 10);
    }
  }

  /** Leading zeros do not change the value read. */
  lemma {:induction false} LeadingZero(s: string)
    requires forall k :: 0 <= k < |s| ==> IsDigit(s[k])
    ensures DigitsValue("0" + s) == DigitsValue(s)
    decreases |s|
  {
    if s != [] {
      var t := "0" + s;
      assert t[..|t| - 1] == "0" + s[..|s| - 1];
      LeadingZero(s[..|s| - 1]);
    }
  }

  /** `s.padStart(width, fill)`. */
  function PadStart(s: string, width: nat, fill: char): (r: string)
    ensures |r| == if |s| >= width then |s| else width
    ensures r[|r| - |s|..] == s
    ensures forall k :: 0 <= k < |r| - |s| ==> r[k] == fill
    decreases width - |s|
  {
    if |s| >= width then s else PadStart([fill] + s, width, fill)
  }

  /** Padding one character to two places puts one fill character before it. */
  lemma PadOne(s: string, fill: char)
    requires |s| == 1
    ensures PadStart(s, 2, fill) == [fill] + s
  {
    assert PadStart([fill] + s, 2, fill) == [fill] + s;
  }

  /** Zero-padding digits to two places keeps them digits of the same value. */
  lemma PadTwoDigits(s: string)
    requires IsDigits(s)
    ensures var r := PadStart(s, 2, '0');
      IsDigits(r) && DigitsValue(r) == DigitsValue(s)
  {
    if |s| < 2 {
      PadOne(s, '0');
      LeadingZero(s);
      var z := "0" + s;
      assert IsDigits(z) by {
        assert z[0] == '0' && z[1] == s[0];
      }
    }
  }

  /** Zero-padding to two places keeps the digits of `n` and their value. */
  lemma PadTwoValue(n: nat)
    ensures var r := PadStart(NatToString(n), 2, '0');
      IsDigits(r) && DigitsValue(r) == n
  {
    NatToStringRoundTrip(n);
    PadTwoDigits(NatToString(n));
  }
}
