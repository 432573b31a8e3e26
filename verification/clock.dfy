/** The `m:ss` clock strings the pages print: `formatDuration` for a track's
    whole-second length and the player's `formatTime` for the element's
    fractional position, and the reading of such a string back into seconds. */
module Clock {
  import opened Wrappers
  import opened Text

  /** JavaScript's `%`: the remainder takes the sign of the dividend. */
  function JsRem(a: int, b: int): (r: int)
    requires b > 0
    ensures a >= 0 ==> r == a % b
  {
    if a >= 0 then a % b else -((-a) % b)
  }

  /** `Math.trunc` on a real. */
  function Trunc(x: real): int {
    if x >= 0.0 then x.Floor else -((-x).Floor)
  }

  /** `${mins}:${secs.toString().padStart(2, '0')}` */
  function ClockString(mins: int, secs: int): string {
    IntToString(mins) + ":" + PadStart2(IntToString(secs))
  }

  /** `formatDuration(seconds)`: falsy gives `0:00`; otherwise floor division
      for the minutes and JavaScript's remainder for the seconds. */
  function FormatDuration(seconds: int): string {
    if seconds == 0 then "0:00" else ClockString(seconds / 60, JsRem(seconds, 60))
  }

  /** `formatTime(seconds)` of the player: falsy gives `0:00`; otherwise the
      floor of the quotient and the floor of JavaScript's remainder. */
  function FormatTime(seconds: real): string {
    if seconds == 0.0 then "0:00"
    else ClockString((seconds / 60.0).Floor, (seconds - 60.0 * (Trunc(seconds / 60.0) as real)).Floor)
  }

  /** Reads `m:ss` back: digits, one colon, exactly two digits below 60. */
  function ParseClock(s: string): Option<int> {
    var k := IndexOf(s, ':');
    if k < 1 then None
    else
      var left, right := s[..k], s[k + 1..];
      if AllDigits(left) && |right| == 2 && AllDigits(right) && DigitsValue(right) < 60 then
        Some(DigitsValue(left) * 60 + DigitsValue(right))
      else None
  }

  lemma IndexOfAfterDigits(a: string, b: string)
    requires AllDigits(a)
    ensures IndexOf(a + ":" + b, ':') == |a|
  {
    if |a| > 0 {
      assert (a + ":" + b)[1..] == a[1..] + ":" + b;
      IndexOfAfterDigits(a[1..], b);
    }
  }

  lemma TwoDigits(sec: nat)
    requires sec < 60
    ensures var r := PadStart2(NatToString(sec)); |r| == 2 && AllDigits(r) && DigitsValue(r) == sec
  {
    var r := PadStart2(NatToString(sec));
    if sec < 10 {
      assert r == "0" + [DigitChar(sec)];
      assert r[..1] == "0";
    } else {
      var hi, lo := [DigitChar(sec / 10)], DigitChar(sec % 10);
      assert NatToString(sec) == hi + [lo];
      assert r == hi + [lo];
      assert r[..1] == hi;
      assert hi[..0] == "";
      assert DigitsValue(hi) == sec / 10;
    }
  }

  /** Every clock string with a non-negative minute count and a seconds
      field below 60 reads back as the seconds it denotes. */
  lemma {:induction false} ClockStringRoundTrip(mins: nat, secs: nat)
    requires secs < 60
    ensures ParseClock(ClockString(mins, secs)) == Some(mins * 60 + secs)
  {
    var left, right := NatToString(mins), PadStart2(NatToString(secs));
    var s := left + ":" + right;
    IndexOfAfterDigits(left, right);
    assert s[..|left|] == left;
    assert s[|left| + 1..] == right;
    TwoDigits(secs);
    DigitsValueOfNatToString(mins);
  }

  /** `formatDuration` loses nothing on a non-negative length: the printed
      minutes and seconds add back up to the input. */
  lemma {:induction false} FormatDurationRoundTrip(seconds: nat)
    ensures ParseClock(FormatDuration(seconds)) == Some(seconds)
  {
    var mins, secs := seconds / 60, seconds % 60;
    if seconds == 0 {
      ClockStringRoundTrip(0, 0);
      assert FormatDuration(0) == ClockString(0, 0);
    } else {
      assert FormatDuration(seconds) == ClockString(mins, secs);
      ClockStringRoundTrip(mins, secs);
      assert mins * 60 + secs == seconds;
    }
  }

  /** The floor splits over a whole multiple of 60. */
  lemma FloorOfShift(m: int, rem: real)
    requires 0.0 <= rem
    ensures (60.0 * (m as real) + rem).Floor == m * 60 + rem.Floor
  {
    var f := rem.Floor;
    assert (f as real) <= rem < (f as real) + 1.0;
    assert ((m * 60 + f) as real) == 60.0 * (m as real) + (f as real);
  }

  /** On a positive position the player's clock has the floor of the
      quotient as minutes and the floor of the remainder as seconds. */
  lemma FormatTimeParts(seconds: real)
    requires seconds > 0.0
    ensures var m := (seconds / 60.0).Floor;
            var rem := seconds - 60.0 * (m as real);
            m >= 0 && 0.0 <= rem < 60.0 && FormatTime(seconds) == ClockString(m, rem.Floor)
  {
    var q := seconds / 60.0;
    var m := q.Floor;
    assert (m as real) <= q < (m as real) + 1.0;
    assert seconds == 60.0 * q;
    assert Trunc(q) == m;
  }

  lemma FormatTimeOfPositive(seconds: real)
    requires seconds > 0.0
    ensures ParseClock(FormatTime(seconds)) == Some(seconds.Floor)
  {
    FormatTimeParts(seconds);
    var m := (seconds / 60.0).Floor;
    var rem := seconds - 60.0 * (m as real);
    var f := rem.Floor;
    FloorOfShift(m, rem);
    ShiftBack(seconds, m, rem, f);
    FloorBelow60(rem);
    ClockStringRoundTrip(m, f);
    assert FormatTime(seconds) == ClockString(m, f);
  }

  lemma FloorBelow60(rem: real)
    requires 0.0 <= rem < 60.0
    ensures 0 <= rem.Floor < 60
  {
  }

  lemma ShiftBack(seconds: real, m: int, rem: real, f: int)
    requires rem == seconds - 60.0 * (m as real) && f == rem.Floor
    requires (60.0 * (m as real) + rem).Floor == m * 60 + rem.Floor
    ensures seconds.Floor == m * 60 + f
  {
    assert 60.0 * (m as real) + rem == seconds;
  }

  /** `formatTime` prints the whole seconds of a non-negative position. */
  lemma {:induction false} FormatTimeRoundTrip(seconds: real)
    requires seconds >= 0.0
    ensures ParseClock(FormatTime(seconds)) == Some(seconds.Floor)
  {
    if seconds == 0.0 {
      ClockStringRoundTrip(0, 0);
      assert FormatTime(0.0) == ClockString(0, 0);
    } else {
      FormatTimeOfPositive(seconds);
    }
  }

  /** A negative length keeps JavaScript's signs: `formatDuration(-5)` is `-1:-5`. */
  lemma NegativeDurationKeepsSigns()
    ensures FormatDuration(-5) == "-1:-5"
  {
    assert JsRem(-5, 60) == -5;
    assert -5 / 60 == -1;
  }
}
