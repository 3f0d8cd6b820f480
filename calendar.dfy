/** Wall-clock arithmetic on whole Unix seconds: the proleptic Gregorian date
    of a day number and Go's "2006-01-02" and "15:04" layouts. A local wall
    time is a Unix time shifted by the zone's offset in seconds. */
module Calendar {
  import opened Text

  const SecondsPerDay := 86400
  const SecondsPerHour := 3600

  datatype Date = Date(year: int, month: int, day: int)

  predicate ValidDate(d: Date) { 1 <= d.month <= 12 && 1 <= d.day <= 31 }

  /** The day (counted from 1970-01-01) that contains wall time `t`. */
  function DayNumber(t: int): int { t / SecondsPerDay }

  /** Seconds since midnight of the wall time `t`. */
  function SecondOfDay(t: int): (r: int)
    ensures 0 <= r < SecondsPerDay
    ensures t == DayNumber(t) * SecondsPerDay + r
  {
    t % SecondsPerDay
  }

  /** `t.Hour()`: the hour of the wall time `t`. */
  function HourOf(t: int): (h: int)
    ensures 0 <= h < 24
    ensures h * SecondsPerHour <= SecondOfDay(t) < (h + 1) * SecondsPerHour
  {
    SecondOfDay(t) / SecondsPerHour
  }

  /** Gregorian leap years: every fourth year, except whole centuries not
      divisible by 400. */
  predicate IsLeap(y: int) { y % 4 == 0 && (y % 100 != 0 || y % 400 == 0) }

  /** The number of days of month `m` (1-12) of year `y`. */
  function DaysInMonth(y: int, m: int): int
  {
    if m == 2 then (if IsLeap(y) then 29 else 28)
    else if m == 4 || m == 6 || m == 9 || m == 11 then 30
    else 31
  }

  /** The length of the month `mp` months after March (0 is March, 11 is
      February), February taken as 29 days. */
  function MarchMonthLength(mp: int): int
  {
    if mp == 11 then 29
    else if mp == 1 || mp == 3 || mp == 6 || mp == 8 then 30
    else 31
  }

  /** Day `doy` of a March-based year falls in month `(5 * doy + 2) / 153`
      at a day within that month's length; only the year's last day is
      February 29. */
  lemma {:induction false} MarchDayOfYear(doy: int)
    requires 0 <= doy <= 365
    ensures var mp := (5 * doy + 2) / 153;
      var day := doy - (153 * mp + 2) / 5 + 1;
      0 <= mp <= 11 && 1 <= day <= MarchMonthLength(mp)
      && (mp == 11 && day == 29 ==> doy == 365)
  {
    var mp := (5 * doy + 2) / 153;
    assert 153 * mp <= 5 * doy + 2 < 153 * mp + 153;
    assert 0 <= mp <= 11;
    if mp == 0 { assert doy <= 30; }
    else if mp == 1 { assert 31 <= doy <= 60; }
    else if mp == 2 { assert 61 <= doy <= 91; }
    else if mp == 3 { assert 92 <= doy <= 121; }
    else if mp == 4 { assert 122 <= doy <= 152; }
    else if mp == 5 { assert 153 <= doy <= 183; }
    else if mp == 6 { assert 184 <= doy <= 213; }
    else if mp == 7 { assert 214 <= doy <= 244; }
    else if mp == 8 { assert 245 <= doy <= 274; }
    else if mp == 9 { assert 275 <= doy <= 305; }
    else if mp == 10 { assert 306 <= doy <= 336; }
    else { assert 337 <= doy; }
  }

  /** The last day (`doq == 1460`) of four-year cycle `q` of century `c`
      of era `era` falls in a leap year: the 25th cycle of a century only
      exists in the era's last century, whose end is divisible by 400. */
  lemma {:induction false} CycleEndIsLeap(era: int, c: int, q: int, doq: int)
    requires 0 <= c <= 3 && 0 <= q <= 24
    requires q == 24 && doq == 1460 ==> c == 3
    ensures doq == 1460 ==> IsLeap(era * 400 + c * 100 + q * 4 + 4)
  {
    var y := era * 400 + c * 100 + q * 4 + 4;
    if doq != 1460 {
    } else if q == 24 {
      assert y == (era + 1) * 400;
    } else {
      assert y == 4 * (era * 100 + c * 25 + q + 1);
      assert y == 100 * (era * 4 + c) + 4 * (q + 1) && 4 <= 4 * (q + 1) < 100;
    }
  }

  /** The civil date of day number `z`: whole 400-, 100-, 4- and 1-year
      cycles counted from 0000-03-01, as Go's time package does. */
  function CivilFromDays(z: int): (d: Date)
    ensures ValidDate(d)
    ensures d.day <= DaysInMonth(d.year, d.month)
  {
    var n := z + 719468;
    var era := n / 146097;
    var doe := n % 146097;
    var c := if doe / 36524 > 3 then 3 else doe / 36524;
    var doc := doe - c * 36524;
    var q := doc / 1461;
    var doq := doc % 1461;
    var y1 := if doq / 365 > 3 then 3 else doq / 365;
    var doy := doq - y1 * 365;
    assert 0 <= doy <= 365;
    var mp := (5 * doy + 2) / 153;
    MarchDayOfYear(doy);
    var day := doy - (153 * mp + 2) / 5 + 1;
    var month := if mp < 10 then mp + 3 else mp - 9;
    assert month == 2 && day == 29 ==> doq == 1460 && y1 == 3;
    CycleEndIsLeap(era, c, q, doq);
    Date(era * 400 + c * 100 + q * 4 + y1 + (if month <= 2 then 1 else 0), month, day)
  }

  lemma UnixEpochIsNewYear1970()
    ensures CivilFromDays(0) == Date(1970, 1, 1)
  {
    assert 719468 / 146097 == 4 && 719468 % 146097 == 135080;
    assert 135080 / 36524 == 3 && 25508 / 1461 == 17 && 25508 % 1461 == 671;
    assert 671 / 365 == 1 && (5 * 306 + 2) / 153 == 10 && (153 * 10 + 2) / 5 == 306;
  }

  /** Day 1 of the Unix epoch is 1970-01-02. */
  lemma SecondOfJanuary1970()
    ensures CivilFromDays(1) == Date(1970, 1, 2)
  {
    assert 719469 / 146097 == 4 && 719469 % 146097 == 135081;
    assert 135081 / 36524 == 3 && 25509 / 1461 == 17 && 25509 % 1461 == 672;
    assert 672 / 365 == 1 && (5 * 307 + 2) / 153 == 10 && (153 * 10 + 2) / 5 == 306;
  }

  /** Go's four-digit year: a minus sign for negative years, then at least four digits. */
  function FormatYear(y: int): (s: string)
    ensures |s| >= 4
  {
    if y < 0 then "-" + ZeroPad(-y, 4) else ZeroPad(y, 4)
  }

  /** The "2006-01-02" layout. */
  function FormatDate(d: Date): (s: string)
    requires ValidDate(d)
    ensures |s| >= 10
  {
    ZeroPadTwo(d.month);
    ZeroPadTwo(d.day);
    FormatYear(d.year) + "-" + ZeroPad(d.month, 2) + "-" + ZeroPad(d.day, 2)
  }

  /** The local calendar day of wall time `t` in the "2006-01-02" layout. */
  function DateString(t: int): (s: string)
    ensures |s| >= 10
  {
    FormatDate(CivilFromDays(DayNumber(t)))
  }

  /** The "15:04" layout of wall time `t`: zero-padded hour and minute. */
  function ClockString(t: int): (s: string)
  {
    var sod := SecondOfDay(t);
    ZeroPad(sod / SecondsPerHour, 2) + ":" + ZeroPad(sod % SecondsPerHour / 60, 2)
  }

  /** The clock text always has the shape DD:DD and reads back as the hour and
      minute of the wall time. */
  lemma ClockStringShape(t: int)
    ensures var s := ClockString(t);
      |s| == 5 && s[2] == ':' && AllDigits(s[..2]) && AllDigits(s[3..])
      && Value(s[..2]) == SecondOfDay(t) / SecondsPerHour
      && Value(s[3..]) == SecondOfDay(t) % SecondsPerHour / 60
  {
    var sod := SecondOfDay(t);
    var h, m := sod / SecondsPerHour, sod % SecondsPerHour / 60;
    ZeroPadTwo(h);
    ZeroPadTwo(m);
    ValueOfZeroPad(h, 2);
    ValueOfZeroPad(m, 2);
    var s := ClockString(t);
    assert s[..2] == ZeroPad(h, 2);
    assert s[3..] == ZeroPad(m, 2);
  }

  /** An RFC 3339 (section 5.6) full-date: four-digit year, two-digit month
      01-12 and two-digit day 01-31, joined by '-'. */
  predicate IsFullDate(s: string)
  {
    |s| == 10 && s[4] == '-' && s[7] == '-'
    && AllDigits(s[..4]) && AllDigits(s[5..7]) && AllDigits(s[8..])
    && 1 <= Value(s[5..7]) <= 12 && 1 <= Value(s[8..]) <= 31
  }

  /** Dates of years 0 to 9999 print as RFC 3339 full-dates that read back as
      the same month and day. */
  lemma FormatDateIsFullDate(d: Date)
    requires ValidDate(d) && 0 <= d.year <= 9999
    ensures IsFullDate(FormatDate(d))
    ensures Value(FormatDate(d)[..4]) == d.year
    ensures Value(FormatDate(d)[5..7]) == d.month && Value(FormatDate(d)[8..]) == d.day
  {
    var y, mo, dd := ZeroPad(d.year, 4), ZeroPad(d.month, 2), ZeroPad(d.day, 2);
    assert |Itoa(d.year)| <= 4 by { ItoaAtMostFour(d.year); }
    ZeroPadTwo(d.month);
    ZeroPadTwo(d.day);
    ValueOfZeroPad(d.year, 4);
    ValueOfZeroPad(d.month, 2);
    ValueOfZeroPad(d.day, 2);
    var s := FormatDate(d);
    assert s == y + "-" + mo + "-" + dd;
    assert s[..4] == y && s[5..7] == mo && s[8..] == dd;
  }

  /** A date of years 0 to 9999 prints as exactly ten characters. */
  lemma FormatDateLength(d: Date)
    requires ValidDate(d) && 0 <= d.year <= 9999
    ensures |FormatDate(d)| == 10
  {
    FormatDateIsFullDate(d);
  }

  lemma ItoaAtMostFour(n: nat)
    requires n <= 9999
    ensures |Itoa(n)| <= 4
  {
    if n >= 10 {
      assert |Itoa(n / 10)| <= 3 by {
        if n / 10 >= 10 {
          assert |Itoa(n / 100)| <= 2 by {
            if n / 100 >= 10 { assert |Itoa(n / 1000)| == 1; }
          }
        }
      }
    }
  }

  /** A date printed for a year that is not negative holds exactly two '-'
      separators, so splitting "<date>-<suffix>" on '-' gives the year, month,
      day and then the pieces of the suffix. */
  lemma SplitDateKey(d: Date, suffix: string)
    requires ValidDate(d) && d.year >= 0
    ensures var y, m, dd := ZeroPad(d.year, 4), ZeroPad(d.month, 2), ZeroPad(d.day, 2);
      FormatDate(d) == y + "-" + m + "-" + dd
      && Split(FormatDate(d) + "-" + suffix, '-') == [y, m, dd] + Split(suffix, '-')
      && Join([y, m, dd], '-') == FormatDate(d)
  {
    var y, m, dd := ZeroPad(d.year, 4), ZeroPad(d.month, 2), ZeroPad(d.day, 2);
    NoDashInDigits(y);
    NoDashInDigits(m);
    NoDashInDigits(dd);
    var s := FormatDate(d) + "-" + suffix;
    assert s == y + ['-'] + (m + ['-'] + (dd + ['-'] + suffix));
    SplitAfter(dd, '-', suffix);
    SplitAfter(m, '-', dd + ['-'] + suffix);
    SplitAfter(y, '-', m + ['-'] + (dd + ['-'] + suffix));
    assert Join([dd], '-') == dd;
    assert Join([m, dd], '-') == m + ['-'] + dd by { assert [m, dd][1..] == [dd]; }
    assert Join([y, m, dd], '-') == y + ['-'] + (m + ['-'] + dd) by { assert [y, m, dd][1..] == [m, dd]; }
  }

  lemma NoDashInDigits(s: string)
    requires AllDigits(s)
    ensures '-' !in s
  {
  }
}
