/**
 * `formatTime` of the now-playing sheet: a position in milliseconds shown as
 * minutes, a colon and two-digit seconds, with JVM `Long` division.
 */
module TimeFormat {
  import opened Numbers

  /** `String.format("%02d", n)` for `-59 <= n <= 59`: a leading zero below 10, a bare minus sign otherwise. */
  function TwoDigits(n: int): (s: string)
    requires -60 < n < 60
    ensures 0 <= n ==> |s| == 2 && IsDigit(s[0]) && IsDigit(s[1]) && s[0] <= '5' &&
                       DigitValue(s[0]) * 10 + DigitValue(s[1]) == n
    ensures n < 0 ==> |s| >= 2 && s[0] == '-'
  {
    if 0 <= n < 10 then "0" + IntToString(n)
    else
      assert 10 <= n ==> NatToString(n / 10) == [DigitChar(n / 10)] &&
                         IntToString(n) == NatToString(n / 10) + [DigitChar(n % 10)];
      IntToString(n)
  }

  /** `formatTime(ms)`: `"%d:%02d"` of `ms / 1000 / 60` and `ms / 1000 % 60`. */
  function FormatTime(ms: int): (s: string)
    requires IsLong(ms)
    ensures |s| >= 4
    ensures 0 <= ms ==> s[|s| - 3] == ':' && IsDigit(s[|s| - 2]) && IsDigit(s[|s| - 1])
  {
    var totalSeconds := TruncDiv(ms, 1000);
    var minutes := TruncDiv(totalSeconds, 60);
    var seconds := TruncRem(totalSeconds, 60);
    IntToString(minutes) + ":" + TwoDigits(seconds)
  }

  /**
   * For a non-negative position the text is the minutes, a colon and two
   * digits from 00 to 59, and minutes and seconds together give back the
   * whole seconds of the position.
   */
  lemma FormatTimeShape(ms: int)
    requires 0 <= ms <= LONG_MAX
    ensures var s := FormatTime(ms);
            var m := ms / 1000 / 60;
            |s| >= 4 && s == NatToString(m) + ":" + s[|s| - 2..] &&
            IsDigit(s[|s| - 2]) && s[|s| - 2] <= '5' && IsDigit(s[|s| - 1]) &&
            m * 60 + DigitValue(s[|s| - 2]) * 10 + DigitValue(s[|s| - 1]) == ms / 1000
  {
    var m := ms / 1000 / 60;
    var sec := ms / 1000 % 60;
    var two := TwoDigits(sec);
    var s := NatToString(m) + ":" + two;
    assert FormatTime(ms) == s;
    assert s[|s| - 2..] == two;
    assert s[|s| - 2] == two[0] && s[|s| - 1] == two[1];
  }

  /** Whole seconds, written as milliseconds, divide back exactly. */
  lemma WholeSecondsDivide(q: int)
    ensures TruncDiv(1000 * q, 1000) == q
  {
    if q < 0 {
      assert -(1000 * q) == 1000 * (-q);
    }
  }

  /** The fraction of a second is dropped: a position and its whole seconds show the same text. */
  lemma SubSecondDropped(ms: int)
    requires IsLong(ms)
    ensures IsLong(ms - TruncRem(ms, 1000))
    ensures FormatTime(ms) == FormatTime(ms - TruncRem(ms, 1000))
  {
    var q := TruncDiv(ms, 1000);
    assert ms - TruncRem(ms, 1000) == 1000 * q;
    WholeSecondsDivide(q);
  }

  /** Minutes are not carried into hours: an hour shows as sixty minutes. */
  lemma HourShowsAsSixtyMinutes()
    ensures FormatTime(3600000) == "60:00"
    ensures FormatTime(61999) == "1:01"
  {
    assert NatToString(60) == "60";
  }

  /** A negative position: JVM division truncates toward zero, so both fields carry a minus sign. */
  lemma NegativePosition()
    ensures FormatTime(-61000) == "-1:-1"
  {
  }

  /** Under a minute, the minutes truncate to zero and show no sign; the seconds keep theirs. */
  lemma NegativeSecondsOnly()
    ensures FormatTime(-1000) == "0:-1"
  {
  }

  /** A whole negative minute: the seconds are zero and show no sign. */
  lemma NegativeMinutesOnly()
    ensures FormatTime(-60000) == "-1:00"
  {
  }
}
