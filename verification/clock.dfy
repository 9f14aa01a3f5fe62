/**
 * Sunrise and sunset as the weather window prints them: the UTC epoch
 * second t moved to India Standard Time (UTC+5:30, a fixed 19800 s) and printed on a
 * zero-padded 12-hour clock with seconds and the C-locale AM/PM marker
 * (the %I, %M, %S and %p conversions of ISO C11 section 7.27.3.5).
 */
module Clock {
  import opened Decimal

  /** UTC+5:30, the one offset the program knows. */
  const IstOffset: int := 19800
  const SecondsPerDay: int := 86400
  const Noon: int := 43200

  /** Seconds since IST midnight: gmtime(t + 19800) read as hh:mm:ss (gmtime floors for negative t). */
  function SecondOfDay(t: int): (s: nat)
    ensures s < SecondsPerDay
    ensures (t + IstOffset - s) % SecondsPerDay == 0
  {
    (t + IstOffset) % SecondsPerDay
  }

  /** %I: hour 0 and hour 12 both read 12. */
  function Hour12(h: nat): (r: nat)
    requires h < 24
    ensures 1 <= r <= 12
    ensures r % 12 == h % 12
  {
    if h % 12 == 0 then 12 else h % 12
  }

  /** A zero-padded two-digit field (%I, %M, %S). */
  function TwoDigits(n: nat): (s: string)
    requires n < 100
    ensures |s| == 2 && AllDigits(s) && ParseDigits(s) == n
  {
    var s := [DigitChar(n / 10), DigitChar(n % 10)];
    assert s[..1] == [s[0]] && s[..1][..0] == [];
    assert ParseDigits(s[..1]) == n / 10;
    assert ParseDigits(s) == n / 10 * 10 + n % 10;
    s
  }

  /** %p in the C locale. */
  function Meridiem(h: nat): string
    requires h < 24
  {
    if h < 12 then "AM" else "PM"
  }

  /** "%I:%M:%S %p" of the time of day that is sod seconds after midnight. */
  function ClockText(sod: nat): string
    requires sod < SecondsPerDay
  {
    var h := sod / 3600;
    TwoDigits(Hour12(h)) + ":" + TwoDigits(sod / 60 % 60) + ":" + TwoDigits(sod % 60) + " " + Meridiem(h)
  }

  /** The IST wall-clock text of the UTC epoch second t, as "hh:mm:ss AM" or "hh:mm:ss PM". */
  function FormatClock(t: int): string {
    ClockText(SecondOfDay(t))
  }

  /** The seconds of the day a clock text names: the inverse of FormatClock within a day. */
  function ReadClock(s: string): nat
    requires |s| == 11
    requires AllDigits(s[..2]) && AllDigits(s[3..5]) && AllDigits(s[6..8])
  {
    var h := ParseDigits(s[..2]) % 12 + (if s[9] == 'P' then 12 else 0);
    h * 3600 + ParseDigits(s[3..5]) * 60 + ParseDigits(s[6..8])
  }

  /** The shape of every clock text: "hh:mm:ss AM" with hour 01-12, minute and second 00-59. */
  predicate WellFormedClock(s: string) {
    && |s| == 11
    && s[2] == ':' && s[5] == ':' && s[8] == ' ' && s[10] == 'M'
    && (s[9] == 'A' || s[9] == 'P')
    && AllDigits(s[..2]) && AllDigits(s[3..5]) && AllDigits(s[6..8])
    && 1 <= ParseDigits(s[..2]) <= 12
    && ParseDigits(s[3..5]) < 60
    && ParseDigits(s[6..8]) < 60
  }

  lemma ClockParts(sod: nat)
    requires sod < SecondsPerDay
    ensures var s := ClockText(sod);
      && |s| == 11
      && s[..2] == TwoDigits(Hour12(sod / 3600))
      && s[3..5] == TwoDigits(sod / 60 % 60)
      && s[6..8] == TwoDigits(sod % 60)
      && s[2] == ':' && s[5] == ':' && s[8] == ' '
      && s[9..] == Meridiem(sod / 3600)
  {
    var hh, mm, ss, p := TwoDigits(Hour12(sod / 3600)), TwoDigits(sod / 60 % 60), TwoDigits(sod % 60), Meridiem(sod / 3600);
    var s := ClockText(sod);
    assert s == hh + ":" + mm + ":" + ss + " " + p;
    assert s[0] == hh[0] && s[1] == hh[1];
    assert s[3] == mm[0] && s[4] == mm[1];
    assert s[6] == ss[0] && s[7] == ss[1];
    assert s[9] == p[0] && s[10] == p[1];
  }

  /**
   * Every clock text is well formed, and its marker is AM exactly when the IST
   * second of the day is before noon.
   */
  lemma ClockFields(t: int)
    ensures WellFormedClock(FormatClock(t))
    ensures FormatClock(t)[9] == 'A' <==> SecondOfDay(t) < Noon
  {
    ClockParts(SecondOfDay(t));
    var s := FormatClock(t);
    assert s[9] == s[9..][0] && s[10] == s[9..][1];
  }

  /** A clock text never breaks a line. */
  lemma ClockNoLineBreak(t: int)
    ensures '\n' !in FormatClock(t)
  {
    ClockFields(t);
    ClockParts(SecondOfDay(t));
  }

  /** A second of the day is its hours, minutes and seconds. */
  lemma DaySplit(sod: nat)
    requires sod < SecondsPerDay
    ensures sod == sod / 3600 * 3600 + sod / 60 % 60 * 60 + sod % 60
  {
    var m := sod / 60;
    assert sod == m * 60 + sod % 60;
    assert m == m / 60 * 60 + m % 60;
    assert m / 60 == sod / 3600;
  }

  lemma ClockTextRoundTrip(sod: nat)
    requires sod < SecondsPerDay
    ensures ReadClock(ClockText(sod)) == sod
  {
    ClockParts(sod);
    var s := ClockText(sod);
    var h := sod / 3600;
    assert h < 24;
    assert s[9] == Meridiem(h)[0];
    assert ParseDigits(s[..2]) % 12 + (if s[9] == 'P' then 12 else 0) == h;
    DaySplit(sod);
  }

  /** Reading the printed clock back gives the IST second of the day. */
  lemma ClockRoundTrip(t: int)
    ensures WellFormedClock(FormatClock(t))
    ensures ReadClock(FormatClock(t)) == SecondOfDay(t)
  {
    ClockFields(t);
    ClockTextRoundTrip(SecondOfDay(t));
  }

  /** A whole day later the clock reads the same. */
  lemma ClockPeriodic(t: int)
    ensures FormatClock(t + SecondsPerDay) == FormatClock(t)
  {
    assert SecondOfDay(t + SecondsPerDay) == SecondOfDay(t);
  }

  /** Two instants share the IST second of the day exactly when they are whole days apart. */
  lemma SameSecondOfDay(t1: int, t2: int)
    ensures SecondOfDay(t1) == SecondOfDay(t2) <==> (t1 - t2) % SecondsPerDay == 0
  {
    var r1: int, r2: int := SecondOfDay(t1), SecondOfDay(t2);
    var q1, q2 := (t1 + IstOffset) / SecondsPerDay, (t2 + IstOffset) / SecondsPerDay;
    assert t1 + IstOffset == q1 * SecondsPerDay + r1;
    assert t2 + IstOffset == q2 * SecondsPerDay + r2;
    var d := q1 - q2;
    assert t1 - t2 == d * SecondsPerDay + (r1 - r2);
    if r1 == r2 {
      assert (t1 - t2) % SecondsPerDay == (d * SecondsPerDay) % SecondsPerDay == 0;
    } else if r1 > r2 {
      assert (t1 - t2) % SecondsPerDay == r1 - r2;
    } else {
      assert t1 - t2 == (d - 1) * SecondsPerDay + (SecondsPerDay + r1 - r2);
      assert (t1 - t2) % SecondsPerDay == SecondsPerDay + r1 - r2;
    }
  }

  /** Two instants print the same clock text exactly when they are a whole number of days apart. */
  lemma ClockSameIff(t1: int, t2: int)
    ensures FormatClock(t1) == FormatClock(t2) <==> (t1 - t2) % SecondsPerDay == 0
  {
    ClockRoundTrip(t1);
    ClockRoundTrip(t2);
    SameSecondOfDay(t1, t2);
  }

  lemma MidnightText()
    ensures ClockText(0) == "12:00:00 AM"
  {
    assert Hour12(0) == 12;
    assert TwoDigits(12) == "12";
    assert TwoDigits(0) == "00";
  }

  lemma NoonText()
    ensures ClockText(Noon) == "12:00:00 PM"
  {
    assert Hour12(12) == 12;
    assert TwoDigits(12) == "12";
    assert TwoDigits(0) == "00";
  }

  /** IST midnight prints as 12 AM and IST noon as 12 PM. */
  lemma MidnightAndNoon(t: int)
    ensures SecondOfDay(t) == 0 ==> FormatClock(t) == "12:00:00 AM"
    ensures SecondOfDay(t) == Noon ==> FormatClock(t) == "12:00:00 PM"
  {
    MidnightText();
    NoonText();
  }

  /** The sunrise 1700000000 (2023-11-14 22:13:20 UTC) prints as 03:43:20 AM IST. */
  lemma SunriseExample()
    ensures FormatClock(1700000000) == "03:43:20 AM"
  {
    assert SecondOfDay(1700000000) == 13400;
    assert 13400 / 3600 == 3 && 13400 / 60 % 60 == 43 && 13400 % 60 == 20;
    assert Hour12(3) == 3;
    assert TwoDigits(3) == "03";
    assert TwoDigits(43) == "43";
    assert TwoDigits(20) == "20";
  }
}
