/**
 * Display of playback positions as "M:SS".
 *
 * The web app's `formatTime` truncates to whole seconds; the bot's
 * `formatDuration` rounds to the nearest second with `toFixed(0)` but does not
 * carry a rounded-up 60 into the minutes, so its seconds field runs 0..60.
 * Millisecond counts come from the music service and are never negative.
 */
module Clock {
  import opened Wrappers
  import opened JsText

  const MsPerMinute: nat := 60000
  const MsPerSecond: nat := 1000

  /** "<minutes>:<seconds padded to two digits>". */
  function ClockText(minutes: nat, seconds: nat): string {
    NatToString(minutes) + ":" + PadStart2(NatToString(seconds))
  }

  /** `formatTime(ms)` of the web app. */
  function FormatTime(ms: nat): string {
    ClockText(ms / MsPerMinute, (ms % MsPerMinute) / MsPerSecond)
  }

  /**
   * `formatDuration(ms)` of the bot. For a non-negative integer `ms`,
   * `((ms % 60000) / 1000).toFixed(0)` picks the nearest integer and the
   * larger one on a tie, i.e. `(ms % 60000 + 500) div 1000`.
   */
  function FormatDuration(ms: nat): string {
    ClockText(ms / MsPerMinute, (ms % MsPerMinute + 500) / MsPerSecond)
  }

  /**
   * Reads "M:SS" back: digits, one colon, exactly two digits. The inverse of
   * `ClockText` for seconds below 100.
   */
  function ParseClock(text: string): Option<(nat, nat)> {
    var parts := SplitOn(text, ':');
    if |parts| == 2 && parts[0] != [] && AllDigits(parts[0])
       && |parts[1]| == 2 && AllDigits(parts[1])
    then Some((DigitsValue(parts[0]), DigitsValue(parts[1])))
    else None
  }

  /** A clock text is the minutes, one colon and two digits of seconds, and reads back. */
  lemma ClockRoundTrip(minutes: nat, seconds: nat)
    requires seconds < 100
    ensures ParseClock(ClockText(minutes, seconds)) == Some((minutes, seconds))
    ensures |ClockText(minutes, seconds)| == |NatToString(minutes)| + 3
  {
    var m := NatToString(minutes);
    var s := PadStart2(NatToString(seconds));
    NatToStringRoundTrip(minutes);
    TwoDigitRoundTrip(seconds);
    DigitsAvoid(m, ':');
    DigitsAvoid(s, ':');
    SplitAfterPrefix(m, ':', s);
    SplitWithoutSeparator(s, ':');
    assert ClockText(minutes, seconds) == m + [':'] + s;
  }

  /** Whole seconds of `ms`, split into minutes and seconds, give the two fields. */
  lemma SecondsSplit(ms: nat)
    ensures ms / MsPerMinute == (ms / MsPerSecond) / 60
    ensures (ms % MsPerMinute) / MsPerSecond == (ms / MsPerSecond) % 60
  {
    var q, r := ms / 60000, ms % 60000;
    var rs, rm := r / 1000, r % 1000;
    assert ms == 1000 * (60 * q + rs) + rm;
    assert ms / 1000 == 60 * q + rs;
    assert rs < 60;
  }

  /**
   * `formatTime`: the minutes are `ms div 60000`, the seconds
   * `(ms mod 60000) div 1000`, always below 60 and printed as exactly two digits.
   */
  lemma FormatTimeFields(ms: nat)
    ensures (ms % MsPerMinute) / MsPerSecond < 60
    ensures ParseClock(FormatTime(ms)) == Some((ms / MsPerMinute, (ms % MsPerMinute) / MsPerSecond))
    ensures |FormatTime(ms)| == |NatToString(ms / MsPerMinute)| + 3
  {
    ClockRoundTrip(ms / MsPerMinute, (ms % MsPerMinute) / MsPerSecond);
  }

  /** Two positions display alike exactly when they fall in the same whole second. */
  lemma FormatTimeSameSecond(a: nat, b: nat)
    ensures FormatTime(a) == FormatTime(b) <==> a / MsPerSecond == b / MsPerSecond
  {
    SecondsSplit(a);
    SecondsSplit(b);
    if FormatTime(a) == FormatTime(b) {
      FormatTimeFields(a);
      FormatTimeFields(b);
      var sa, sb := a / 1000, b / 1000;
      assert sa == 60 * (sa / 60) + sa % 60;
      assert sb == 60 * (sb / 60) + sb % 60;
    }
  }

  lemma FormatTimeExamples()
    ensures FormatTime(0) == "0:00"
    ensures FormatTime(65000) == "1:05"
    ensures FormatTime(200000) == "3:20"
  {
    assert NatToString(0) == "0" && PadStart2("0") == "00";
    assert FormatTime(0) == ClockText(0, 0);
    assert NatToString(1) == "1" && NatToString(5) == "5" && PadStart2("5") == "05";
    assert FormatTime(65000) == ClockText(1, 5);
    assert NatToString(3) == "3" && NatToString(20) == "20" && PadStart2("20") == "20";
    assert FormatTime(200000) == ClockText(3, 20);
  }

  /**
   * `formatDuration`: the minutes are `ms div 60000` and the seconds
   * `(ms mod 60000 + 500) div 1000`, which reach 60 and never exceed it.
   */
  lemma FormatDurationFields(ms: nat)
    ensures (ms % MsPerMinute + 500) / MsPerSecond <= 60
    ensures (ms % MsPerMinute + 500) / MsPerSecond == 60 <==> ms % MsPerMinute >= 59500
    ensures ParseClock(FormatDuration(ms)) == Some((ms / MsPerMinute, (ms % MsPerMinute + 500) / MsPerSecond))
  {
    ClockRoundTrip(ms / MsPerMinute, (ms % MsPerMinute + 500) / MsPerSecond);
  }

  /** The rounding shows "0:60" for 59.5 seconds rather than carrying to "1:00". */
  lemma FormatDurationSixty()
    ensures FormatDuration(59500) == "0:60"
    ensures FormatDuration(119999) == "1:60"
  {
    assert NatToString(0) == "0" && NatToString(1) == "1";
    assert NatToString(60) == "60";
  }

  /**
   * The two formatters agree on the lower half of every second and differ by
   * exactly one in the seconds field (same minutes) on the upper half.
   */
  lemma FormatDurationVersusFormatTime(ms: nat)
    ensures ms % MsPerSecond < 500 ==> FormatDuration(ms) == FormatTime(ms)
    ensures ms % MsPerSecond >= 500 ==>
      FormatDuration(ms) == ClockText(ms / MsPerMinute, (ms % MsPerMinute) / MsPerSecond + 1)
  {
    var r := ms % 60000;
    assert ms == 60000 * (ms / 60000) + r;
    assert r == 1000 * (r / 1000) + r % 1000;
    assert ms == 1000 * (60 * (ms / 60000) + r / 1000) + r % 1000;
    assert ms % 1000 == r % 1000;
  }
}
