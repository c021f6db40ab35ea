/** Wall-clock time as the server uses it: the night-mode predicate behind
    `is_night` and the "time since" text of `format_last_update_time`. The
    clock is an integer count of microseconds (the resolution of Python's
    `datetime`) in local time; the caller passes the current instant in. */
module Clock {
  import opened Py

  /** Local wall-clock time, in microseconds since the epoch. */
  type Instant = int

  const MicrosPerSecond: nat := 1_000_000
  const SecondsPerDay: nat := 86_400
  const MicrosPerDay: nat := 86_400_000_000

  /** `datetime.now().time()`: microseconds since local midnight. */
  function TimeOfDay(now: Instant): (t: nat)
    ensures t < MicrosPerDay
  {
    now % MicrosPerDay
  }

  /** The time of day `hh:mm:00.000000`. */
  function At(hh: nat, mm: nat): (t: nat)
    requires hh < 24 && mm < 60
    ensures t < MicrosPerDay
  {
    (hh * 3600 + mm * 60) * MicrosPerSecond
  }

  /** Hour (0-23) and minute of the local time of day. */
  function Hour(now: Instant): (h: nat)
    ensures h < 24
  {
    TimeOfDay(now) / (3600 * MicrosPerSecond)
  }

  function Minute(now: Instant): (m: nat)
    ensures m < 60
  {
    (TimeOfDay(now) / (60 * MicrosPerSecond)) % 60
  }

  /** `is_night()`: strictly after 22:00 or strictly before 06:05. */
  predicate IsNight(now: Instant)
  {
    var t := TimeOfDay(now);
    t > At(22, 0) || t < At(6, 5)
  }

  /** The instant `t` (a time of day) on day `day`. */
  function OnDay(day: int, t: nat): Instant
  {
    day * MicrosPerDay + t
  }

  lemma TimeOfDayOnDay(day: int, t: nat)
    requires t < MicrosPerDay
    ensures TimeOfDay(OnDay(day, t)) == t
  {
    DivMod(OnDay(day, t), MicrosPerDay, day, t);
  }

  /** Both boundaries are daytime and the instants one microsecond beyond
      them are night: the comparisons are strict on the night side. The
      examples 23:00 and 05:00 are night, 10:00 is day. */
  lemma NightBoundaries(day: int)
    ensures !IsNight(OnDay(day, At(22, 0))) && IsNight(OnDay(day, At(22, 0) + 1))
    ensures !IsNight(OnDay(day, At(6, 5))) && IsNight(OnDay(day, At(6, 5) - 1))
    ensures IsNight(OnDay(day, At(23, 0))) && IsNight(OnDay(day, At(5, 0)))
    ensures !IsNight(OnDay(day, At(10, 0)))
  {
    TimeOfDayOnDay(day, At(22, 0));
    TimeOfDayOnDay(day, At(22, 0) + 1);
    TimeOfDayOnDay(day, At(6, 5));
    TimeOfDayOnDay(day, At(6, 5) - 1);
    TimeOfDayOnDay(day, At(23, 0));
    TimeOfDayOnDay(day, At(5, 0));
    TimeOfDayOnDay(day, At(10, 0));
  }

  /** Daytime is exactly the closed window from 06:05 to 22:00. */
  lemma DaytimeWindow(now: Instant)
    ensures !IsNight(now) <==> At(6, 5) <= TimeOfDay(now) <= At(22, 0)
  {
  }

  // ---------------------------------------------------------------------------
  // format_last_update_time

  /** `str(timedelta(days=days, seconds=secs))`: `H:MM:SS`, preceded by
      `N day, ` or `N days, ` when the day count is not zero. */
  function TimedeltaText(days: int, secs: nat): string
    requires secs < SecondsPerDay
  {
    if days == 0 then ClockText(secs)
    else IntToString(days) + " day" + (if days == 1 || days == -1 then "" else "s") + ", " + ClockText(secs)
  }

  /** `H:MM:SS` for a number of seconds below one day. */
  function ClockText(secs: nat): string
    requires secs < SecondsPerDay
  {
    IntToString(secs / 3600) + ":" + Pad2((secs / 60) % 60) + ":" + Pad2(secs % 60)
  }

  /** The clock text names the hours, then the minutes and seconds padded to
      two digits. */
  lemma ClockTextOf(secs: nat, h: nat, m: nat, s: nat)
    requires h < 24 && m < 60 && s < 60 && secs == h * 3600 + m * 60 + s
    ensures secs < SecondsPerDay
    ensures ClockText(secs) == IntToString(h) + ":" + Pad2(m) + ":" + Pad2(s)
  {
    DivMod(secs, 3600, h, m * 60 + s);
    DivMod(secs, 60, h * 60 + m, s);
    DivMod(h * 60 + m, 60, h, m);
  }

  /** `format_last_update_time(last_update)` evaluated at `now`: "never"
      without a timestamp, otherwise the elapsed time rebuilt from its days
      and seconds (dropping the microseconds) followed by " ago". */
  function FormatLastUpdateTime(last: Option<Instant>, now: Instant): (r: string)
    ensures r == "never" <==> last.None?
  {
    if last.None? then "never" else SinceText(now - last.value)
  }

  /** The text for `since` microseconds elapsed: `timedelta(days=since.days,
      seconds=since.seconds)` followed by " ago". */
  function SinceText(since: int): (r: string)
    ensures |r| >= 4 && r[|r| - 4..] == " ago"
  {
    var days := since / MicrosPerDay;
    var seconds := (since % MicrosPerDay) / MicrosPerSecond;
    TimedeltaText(days, seconds) + " ago"
  }

  /** The text for a number of whole seconds elapsed (possibly negative). */
  function WholeSecondsText(elapsed: int): string
  {
    TimedeltaText(elapsed / SecondsPerDay, elapsed % SecondsPerDay)
  }

  /** Floor division is unique. */
  lemma DivMod(x: int, d: nat, q: int, r: nat)
    requires d > 0 && r < d && x == q * d + r
    ensures x / d == q && x % d == r
  {
    var q', r' := x / d, x % d;
    assert (q - q') * d == r' - r;
    if q > q' {
      MulAtLeast(q - q', d);
    } else if q < q' {
      MulAtLeast(q' - q, d);
    }
  }

  lemma MulAtLeast(k: int, d: nat)
    requires k >= 1
    ensures k * d >= d
  {
    assert k * d == (k - 1) * d + d;
  }

  /** The text only depends on the elapsed time `since` truncated (towards
      minus infinity) to whole seconds, and always ends in " ago". */
  lemma FormatTruncatesToSeconds(t: Instant, now: Instant, since: int)
    requires since == now - t
    ensures FormatLastUpdateTime(Some(t), now) == WholeSecondsText(since / MicrosPerSecond) + " ago"
  {
    SinceTextSeconds(since);
  }

  /** The elapsed-time text depends only on the whole seconds elapsed. */
  lemma SinceTextSeconds(since: int)
    ensures SinceText(since) == WholeSecondsText(since / MicrosPerSecond) + " ago"
  {
    FloorSplit(since);
  }

  /** Splitting microseconds into days and seconds of the day goes through
      whole seconds. */
  lemma FloorSplit(since: int)
    ensures since / MicrosPerDay == (since / MicrosPerSecond) / SecondsPerDay
    ensures (since % MicrosPerDay) / MicrosPerSecond == (since / MicrosPerSecond) % SecondsPerDay
  {
    var s := since / MicrosPerSecond;
    var r1 := since % MicrosPerSecond;
    var d := s / SecondsPerDay;
    var r2 := s % SecondsPerDay;
    assert since == d * MicrosPerDay + (r2 * MicrosPerSecond + r1);
    DivMod(since, MicrosPerDay, d, r2 * MicrosPerSecond + r1);
    DivMod(r2 * MicrosPerSecond + r1, MicrosPerSecond, r2, r1);
  }

  /** Two elapsed times that agree in whole seconds get the same text. */
  lemma SinceTextIgnoresMicroseconds(since: int, since': int)
    requires since / MicrosPerSecond == since' / MicrosPerSecond
    ensures SinceText(since) == SinceText(since')
  {
    SinceTextSeconds(since);
    SinceTextSeconds(since');
  }

  /** Reads the elapsed seconds back from a text `H:MM:SS ago`. */
  function ElapsedSeconds(text: string): nat
  {
    if |text| < 11 then 0
    else
      var n := |text|;
      ParseNat(text[..n - 10]) * 3600 + ParseNat(text[n - 9..n - 7]) * 60 + ParseNat(text[n - 6..n - 4])
  }

  /** Below one day the text names the elapsed whole seconds exactly. */
  lemma SinceTextWithinADay(since: int)
    requires 0 <= since < MicrosPerDay
    ensures ElapsedSeconds(SinceText(since)) == since / MicrosPerSecond
  {
    SinceTextSeconds(since);
    var s: nat := since / MicrosPerSecond;
    assert s < SecondsPerDay;
    DivMod(s, SecondsPerDay, 0, s);
    assert WholeSecondsText(s) == TimedeltaText(0, s);
    ClockTextParses(s);
  }

  lemma ClockTextParses(s: nat)
    requires s < SecondsPerDay
    ensures ElapsedSeconds(TimedeltaText(0, s) + " ago") == s
  {
    var hh, mm, ss := s / 3600, (s / 60) % 60, s % 60;
    assert s == hh * 3600 + mm * 60 + ss by {
      assert s == (s / 60) * 60 + ss;
      assert s / 60 == hh * 60 + mm by {
        DivMod(s, 3600, hh, s % 3600);
        DivMod(s / 60, 60, (s / 60) / 60, mm);
        DivMod(s, 3600, (s / 60) / 60, (s / 60) % 60 * 60 + ss);
      }
    }
    ClockTextOf(s, hh, mm, ss);
    var h := IntToString(hh);
    var text := h + ":" + Pad2(mm) + ":" + Pad2(ss) + " ago";
    assert TimedeltaText(0, s) + " ago" == text;
    var n := |text|;
    assert n == |h| + 10;
    assert text[..n - 10] == h;
    assert text[n - 9..n - 7] == Pad2(mm);
    assert text[n - 6..n - 4] == Pad2(ss);
    ParseDigits(hh);
  }

  /** 90.5 seconds ago reads as whole seconds; a missing timestamp reads
      "never". */
  lemma FormatMinuteExample()
    ensures FormatLastUpdateTime(None, 0) == "never"
    ensures FormatLastUpdateTime(Some(0), 90_500_000) == "0:01:30 ago"
  {
    FormatTruncatesToSeconds(0, 90_500_000, 90_500_000);
    assert 90_500_000 / MicrosPerSecond == 90;
    NinetySeconds();
  }

  lemma NinetySeconds()
    ensures WholeSecondsText(90) == "0:01:30"
  {
    assert 90 / SecondsPerDay == 0 && 90 % SecondsPerDay == 90;
    ClockTextOf(90, 0, 1, 30);
    assert Pad2(1) == "01" && Pad2(30) == "30" && IntToString(0) == "0";
  }

  /** A timestamp taken at the current instant reads as zero time ago. */
  lemma FormatJustNow(t: Instant)
    ensures FormatLastUpdateTime(Some(t), t) == "0:00:00 ago"
  {
    assert (t - t) / MicrosPerDay == 0 && ((t - t) % MicrosPerDay) / MicrosPerSecond == 0;
    MidnightClock();
  }

  /** A reading taken less than a second after the timestamp reads zero
      time ago. */
  lemma FormatWithinASecond(t: Instant, now: Instant)
    requires t <= now < t + MicrosPerSecond
    ensures FormatLastUpdateTime(Some(t), now) == "0:00:00 ago"
  {
    SinceWithinASecond(now - t);
  }

  lemma SinceWithinASecond(since: int)
    requires 0 <= since < MicrosPerSecond
    ensures SinceText(since) == "0:00:00 ago"
  {
    assert since / MicrosPerDay == 0 && (since % MicrosPerDay) / MicrosPerSecond == 0;
    MidnightClock();
  }

  lemma MidnightClock()
    ensures ClockText(0) == "0:00:00"
  {
    ClockTextOf(0, 0, 0, 0);
    assert Pad2(0) == "00" && IntToString(0) == "0";
  }

  /** A day count is written with singular "day" for one and plural
      "days" otherwise. */
  lemma DayCountExamples()
    ensures WholeSecondsText(86_401) == "1 day, 0:00:01"
    ensures WholeSecondsText(172_800) == "2 days, 0:00:00"
  {
    OneDayOneSecond();
    TwoDays();
  }

  lemma OneDayOneSecond()
    ensures WholeSecondsText(86_401) == "1 day, 0:00:01"
  {
    assert 86_401 / SecondsPerDay == 1 && 86_401 % SecondsPerDay == 1;
    FirstSecondOfDay();
    assert IntToString(1) == "1";
  }

  lemma FirstSecondOfDay()
    ensures ClockText(1) == "0:00:01"
  {
    ClockTextOf(1, 0, 0, 1);
    assert Pad2(0) == "00" && Pad2(1) == "01" && IntToString(0) == "0";
  }

  lemma TwoDays()
    ensures WholeSecondsText(172_800) == "2 days, 0:00:00"
  {
    assert 172_800 / SecondsPerDay == 2 && 172_800 % SecondsPerDay == 0;
    MidnightClock();
    assert IntToString(2) == "2";
  }

  /** A timestamp in the future (the clock went back by a second or less)
      reads as minus one day and almost a full day. */
  lemma ClockSkewExample()
    ensures WholeSecondsText(-1) == "-1 day, 23:59:59"
  {
    assert -1 / SecondsPerDay == -1 && -1 % SecondsPerDay == 86_399;
    MinusOneDay(86_399);
    LastSecondOfDay();
  }

  lemma MinusOneDay(secs: nat)
    requires secs < SecondsPerDay
    ensures TimedeltaText(-1, secs) == "-1 day, " + ClockText(secs)
  {
    assert IntToString(-1) == "-1";
  }

  lemma LastSecondOfDay()
    ensures ClockText(86_399) == "23:59:59"
  {
    ClockTextOf(86_399, 23, 59, 59);
    assert IntToString(23) == "23" by { assert Digits(23) == Digits(2) + [DigitChar(3)]; }
    assert Pad2(59) == "59";
  }
}
