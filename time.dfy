/** `formatDuration(ms)`: a duration in milliseconds as `mm:ss`. */
module Time {
  import opened Wrappers
  import opened JsNumber
  import opened Decimal

  /** `String(n).padStart(2, '0')`: at least two digits that read back as `n`,
      exactly two when `n` is below 100. */
  function TwoDigits(n: nat): (r: string)
    ensures IsDigits(r) && DigitsValue(r) == n
    ensures |r| >= 2 && (|r| == 2 <==> n < 100)
  {
    PadTwoValue(n);
    DigitCount(n);
    PadStart(NatToString(n), 2, '0')
  }

  /** Whole seconds as zero-padded minutes, a colon and zero-padded seconds. */
  function Clock(totalSec: nat): string {
    TwoDigits(totalSec / 60) + ":" + TwoDigits(totalSec % 60)
  }

  /** The whole seconds `formatDuration` shows: zero for a falsy or negative
      duration, `Math.floor(ms / 1000)` otherwise; `None` when that is infinite. */
  function ShownSeconds(ms: Num): (t: Option<nat>)
    ensures ms.Finite? && ms.value > 0.0 ==> t == Some((ms.value / 1000.0).Floor)
    ensures (!Truthy(ms) || ms == NegInf || (ms.Finite? && ms.value < 0.0)) ==> t == Some(0)
    ensures t.None? <==> ms == PosInf
  {
    if !Truthy(ms) || ms == NegInf || (ms.Finite? && ms.value < 0.0) then Some(0)
    else if ms == PosInf then None
    else
      assert ms.value > 0.0;
      Some((ms.value / 1000.0).Floor)
  }

  /** `formatDuration(ms)`: the shown seconds as a clock; an infinite duration
      writes `Infinity` minutes and `NaN` seconds. */
  function FormatDuration(ms: Num): string {
    match ShownSeconds(ms)
    case None => "Infinity:NaN"
    case Some(t) => Clock(t)
  }

  /** Reads `mm:ss` back as whole seconds. */
  function ParseClock(s: string): int
    requires |s| >= 4 && s[|s| - 3] == ':'
    requires forall k :: 0 <= k < |s| && k != |s| - 3 ==> IsDigit(s[k])
  {
    DigitsValue(s[..|s| - 3]) * 60 + DigitsValue(s[|s| - 2..])
  }

  /** Minute digits, a colon and two second digits read back as minutes times
      sixty plus seconds. */
  lemma ParseJoined(m: string, c: string)
    requires IsDigits(m) && IsDigits(c) && |c| == 2
    ensures var s := m + ":" + c;
      && |s| >= 4 && s[|s| - 3] == ':'
      && (forall k :: 0 <= k < |s| && k != |s| - 3 ==> IsDigit(s[k]))
      && s[..|s| - 3] == m && s[|s| - 2..] == c
      && ParseClock(s) == DigitsValue(m) * 60 + DigitsValue(c)
  {
    var s := m + ":" + c;
    assert s[..|s| - 3] == m && s[|s| - 2..] == c;
  }

  /** The decimal text of a number below 100 has one or two digits; of a larger
      one, three or more. */
  lemma DigitCount(n: nat)
    ensures |NatToString(n)| <= 2 <==> n < 100
  {
  }

  /** The clock text of any number of seconds reads back as that number: two or
      more minute digits, a colon and exactly two second digits below 60; it is
      five characters long exactly when the minutes fit in two digits. */
  lemma ClockRoundTrip(totalSec: nat)
    ensures var s := Clock(totalSec);
      && |s| >= 5 && s[|s| - 3] == ':'
      && (forall k :: 0 <= k < |s| && k != |s| - 3 ==> IsDigit(s[k]))
      && ParseClock(s) == totalSec
      && DigitsValue(s[|s| - 2..]) < 60
      && (|s| == 5 <==> totalSec < 6000)
  {
    var mm, ss := totalSec / 60, totalSec % 60;
    assert totalSec == mm * 60 + ss && ss < 60;
    ParseJoined(TwoDigits(mm), TwoDigits(ss));
  }

  /** Zero, negative, NaN and minus-infinity durations all show `00:00`. */
  lemma FormatDurationZero(ms: Num)
    requires !Truthy(ms) || ms == NegInf || (ms.Finite? && ms.value < 0.0)
    ensures FormatDuration(ms) == "00:00"
  {
    assert NatToString(0) == ['0'];
    PadOne(['0'], '0');
    assert TwoDigits(0) == "00";
  }
}
