/**
 * The journal's duration column (`VideoDownloader._format_duration`): a
 * duration in seconds, as the extractor reports it, becomes `MM:SS`, or
 * `HH:MM:SS` when it reaches an hour; a missing or zero duration becomes
 * the word for "unknown".
 */
module Duration {
  import opened Wrappers
  import opened Text

  /** What the journal shows for a missing or zero duration. */
  const Unknown: string := "Неизвестно"

  /** Python's `int(x)` on a number: truncation toward zero. */
  function Truncate(x: real): (n: int)
    ensures x >= 0.0 ==> 0.0 <= n as real <= x < n as real + 1.0
    ensures x < 0.0 ==> n as real - 1.0 < x <= n as real <= 0.0
  {
    if x >= 0.0 then x.Floor else -((-x).Floor)
  }

  /** Python's `f"{n:02d}"`: zero-padded to two characters; a sign already makes two. */
  function Pad2(n: int): string {
    if 0 <= n < 10 then "0" + NatToString(n) else IntToString(n)
  }

  /**
   * `_format_duration(duration)`. Python's `divmod` floors, which for the
   * positive divisor 60 is Dafny's `/` and `%`.
   */
  function FormatDuration(duration: Option<real>): string {
    if duration.None? || duration.value == 0.0 then Unknown
    else Clock(Truncate(duration.value))
  }

  /** The clock of a whole number of seconds, hours shown only when positive. */
  function Clock(total: int): string {
    var minutes := total / 60;
    var seconds := total % 60;
    var hours := minutes / 60;
    var minutesInHour := minutes % 60;
    if hours > 0 then Pad2(hours) + ":" + Pad2(minutesInHour) + ":" + Pad2(seconds)
    else Pad2(minutesInHour) + ":" + Pad2(seconds)
  }

  // ---------------------------------------------------------------------
  // Reading a clock back
  // ---------------------------------------------------------------------

  /** A two-digit field below 60: minutes within an hour or seconds within a minute. */
  predicate Sexagesimal(s: string) {
    |s| == 2 && AllDigits(s) && ParseNat(s) < 60
  }

  /**
   * Reads `MM:SS`, or `HH:MM:SS` with at least two hour digits and a
   * positive hour count, back into a number of seconds.
   */
  function ParseClock(s: string): Option<nat> {
    var parts := SplitOn(s, ':');
    if |parts| == 2 && Sexagesimal(parts[0]) && Sexagesimal(parts[1]) then
      Some(ParseNat(parts[0]) * 60 + ParseNat(parts[1]))
    else if |parts| == 3 && |parts[0]| >= 2 && AllDigits(parts[0]) && ParseNat(parts[0]) > 0
            && Sexagesimal(parts[1]) && Sexagesimal(parts[2]) then
      Some(ParseNat(parts[0]) * 3600 + ParseNat(parts[1]) * 60 + ParseNat(parts[2]))
    else None
  }

  /** A padded natural number is at least two digits, holds no colon and reads back as itself. */
  lemma Pad2Nat(k: nat)
    ensures |Pad2(k)| >= 2 && AllDigits(Pad2(k)) && ':' !in Pad2(k)
    ensures ParseNat(Pad2(k)) == k
    ensures k < 100 ==> |Pad2(k)| == 2
  {
    ParseNatToString(k);
    if k < 10 {
      ParseNatLeadingZero(NatToString(k));
    }
  }

  lemma JoinThree(a: string, b: string, c: string)
    ensures Join([a, b, c], ":") == a + ":" + b + ":" + c
  {
    assert [a, b, c][1..] == [b, c];
    JoinTwo(b, c);
    assert a + ":" + (b + ":" + c) == a + ":" + b + ":" + c;
  }

  lemma JoinTwo(a: string, b: string)
    ensures Join([a, b], ":") == a + ":" + b
  {
    assert [a, b][1..] == [b];
  }

  /** The hours, minutes and seconds fields recombine to the truncated total. */
  lemma ClockArithmetic(n: int, h: int, m: int, s: int)
    requires h == n / 60 / 60 && m == n / 60 % 60 && s == n % 60
    ensures h * 3600 + m * 60 + s == n
    ensures h > 0 <==> n >= 3600
  {
    var minutes := n / 60;
    assert n == minutes * 60 + n % 60;
    assert minutes == (minutes / 60) * 60 + minutes % 60;
  }

  // ---------------------------------------------------------------------
  // Properties
  // ---------------------------------------------------------------------

  /** The "unknown" word appears exactly for a missing or zero duration. */
  lemma FormatDurationUnknown(duration: Option<real>)
    ensures FormatDuration(duration) == Unknown <==> duration.None? || duration.value == 0.0
  {
    if duration.Some? && duration.value != 0.0 {
      var s := FormatDuration(duration);
      var n := Truncate(duration.value);
      var minutes := n / 60;
      var p := Pad2(minutes % 60);
      Pad2Nat(minutes % 60);
      if minutes / 60 > 0 {
        var q := Pad2(minutes / 60);
        assert s == q + ":" + p + ":" + Pad2(n % 60);
        assert s[|q|] == ':';
      } else {
        assert s == p + ":" + Pad2(n % 60);
        assert s[|p|] == ':';
      }
      assert ':' in s;
      assert ':' !in Unknown;
    }
  }

  /** A clock with an hours field reads back as its total of seconds. */
  lemma ParseLongClock(h: nat, m: nat, s: nat, total: nat)
    requires h > 0 && m < 60 && s < 60 && total == h * 3600 + m * 60 + s
    ensures ParseClock(Pad2(h) + ":" + Pad2(m) + ":" + Pad2(s)) == Some(total)
    ensures |SplitOn(Pad2(h) + ":" + Pad2(m) + ":" + Pad2(s), ':')| == 3
  {
    Pad2Nat(h);
    Pad2Nat(m);
    Pad2Nat(s);
    var parts := [Pad2(h), Pad2(m), Pad2(s)];
    JoinThree(Pad2(h), Pad2(m), Pad2(s));
    SplitJoin(parts, ':');
  }

  /** A clock without an hours field reads back as its total of seconds. */
  lemma ParseShortClock(m: nat, s: nat, total: nat)
    requires m < 60 && s < 60 && total == m * 60 + s
    ensures ParseClock(Pad2(m) + ":" + Pad2(s)) == Some(total)
    ensures |SplitOn(Pad2(m) + ":" + Pad2(s), ':')| == 2
  {
    Pad2Nat(m);
    Pad2Nat(s);
    var parts := [Pad2(m), Pad2(s)];
    JoinTwo(Pad2(m), Pad2(s));
    SplitJoin(parts, ':');
  }

  /** The clock of a whole number of seconds reads back as that number, with hours exactly from one hour on. */
  lemma ClockRoundTrip(n: nat)
    ensures ParseClock(Clock(n)) == Some(n)
    ensures |SplitOn(Clock(n), ':')| == (if n >= 3600 then 3 else 2)
  {
    var h, m, s := n / 60 / 60, n / 60 % 60, n % 60;
    ClockArithmetic(n, h, m, s);
    if h > 0 {
      assert Clock(n) == Pad2(h) + ":" + Pad2(m) + ":" + Pad2(s);
      ParseLongClock(h, m, s, n);
    } else {
      assert Clock(n) == Pad2(m) + ":" + Pad2(s);
      ParseShortClock(m, s, n);
    }
  }

  /**
   * A non-negative duration is shown as a clock that reads back as its
   * whole number of seconds, with an hours field exactly when it reaches an
   * hour.
   */
  lemma FormatDurationRoundTrip(d: real)
    requires d >= 0.0 && d != 0.0
    ensures ParseClock(FormatDuration(Some(d))) == Some(Truncate(d))
    ensures |SplitOn(FormatDuration(Some(d)), ':')| == (if Truncate(d) >= 3600 then 3 else 2)
  {
    ClockRoundTrip(Truncate(d));
  }

  /**
   * A negative duration never shows an hours field: the flooring `divmod`
   * makes the hour count negative (or zero), so only minutes and seconds are
   * printed, and they read back as the truncated seconds modulo one hour.
   */
  lemma NegativeDurationHasNoHours(d: real)
    requires d < 0.0
    ensures |SplitOn(FormatDuration(Some(d)), ':')| == 2
    ensures ParseClock(FormatDuration(Some(d))) == Some(Truncate(d) % 3600)
  {
    var t := Truncate(d);
    assert t <= 0;
    var m := t / 60 % 60;
    var s := t % 60;
    assert t / 60 / 60 <= 0;
    assert t == (t / 60) * 60 + s;
    assert t / 60 == (t / 60 / 60) * 60 + m;
    assert t == (t / 60 / 60) * 3600 + (m * 60 + s);
    assert 0 <= m * 60 + s < 3600;
    assert t % 3600 == m * 60 + s;
    ParseShortClock(m, s, m * 60 + s);
  }

  /**
   * A negative duration never shows hours: Python's flooring `divmod` turns
   * -5 seconds into -1 hour, 59 minutes and 55 seconds, and only the last two
   * are printed.
   */
  lemma NegativeDurationExample()
    ensures FormatDuration(Some(-5.0)) == "59:55"
  {
    assert Truncate(-5.0) == -5;
    assert -5 / 60 == -1 && -5 % 60 == 55;
    assert -1 / 60 == -1 && -1 % 60 == 59;
    assert NatToString(59) == "59";
    assert NatToString(55) == "55";
  }
}
