/**
 Calendar arithmetic of src/std/time/sys/stub.rs: `time_to_tm` counts years and months off in loops, `tm_to_time` is a
 closed form. They invert each other, and agree with "Seconds Since the Epoch", section 4.16 of the Base Definitions of
 POSIX.1-2017.
 */
module Calendar {
  import opened Common

  // Rust's `/` and `%` round toward zero.

  function TruncDiv(a: int, b: int): int
    requires b > 0
  {
    if a >= 0 then a / b else -((-a) / b)
  }

  function TruncMod(a: int, b: int): int
    requires b > 0
  {
    a - b * TruncDiv(a, b)
  }

  datatype Tm = Tm(sec: int, min: int, hour: int, mday: int, mon: int, year: int, wday: int, yday: int, isdst: int)

  const I32_MAX: int := 0x7FFF_FFFF
  const I32_MIN: int := -0x8000_0000
  const I32_VALUES: int := 0x1_0000_0000

  /** The cast `as i32` of an i64 keeps the low 32 bits. */
  function AsI32(n: int): (r: int)
    ensures I32_MIN <= r <= I32_MAX
    ensures r == n <==> I32_MIN <= n <= I32_MAX
  {
    (n - I32_MIN) % I32_VALUES + I32_MIN
  }

  predicate Leap(year: int) {
    year % 4 == 0 && (year % 100 != 0 || year % 400 == 0)
  }

  function YearSize(year: int): int { if Leap(year) then 366 else 365 }

  const COMMON_YEAR: seq<int> := [31, 28, 31, 30, 31, 30, 31, 31, 30, 31, 30, 31]
  const LEAP_YEAR: seq<int> := [31, 29, 31, 30, 31, 30, 31, 31, 30, 31, 30, 31]

  /** `YTAB`. */
  function MonthSize(leap: bool, mon: int): (n: int)
    requires 0 <= mon < 12
    ensures n >= 28
  {
    if leap then LEAP_YEAR[mon] else COMMON_YEAR[mon]
  }

  // ---------------------------------------------------------------- counting days

  /** Days from the start of 1970 to the start of a year, year by year. */
  function DaysBefore(year: int): (n: int)
    requires year >= 1970
    ensures n >= 0
  {
    if year == 1970 then 0 else DaysBefore(year - 1) + YearSize(year - 1)
  }

  /** Days from the start of the year to the start of a month, month by month. */
  function DaysBeforeMonth(leap: bool, mon: int): (n: int)
    requires 0 <= mon <= 12
    ensures n >= 0
  {
    if mon == 0 then 0 else DaysBeforeMonth(leap, mon - 1) + MonthSize(leap, mon - 1)
  }

  /** Leap years up to and including a year. */
  function Leaps(year: int): int { year / 4 - year / 100 + year / 400 }

  lemma FourthYears(y: int)
    requires y > 0
    ensures y / 4 == (y - 1) / 4 + if y % 4 == 0 then 1 else 0
    ensures (y + 1968) / 4 == y / 4 + 492
  {
  }

  lemma CenturyYears(y: int)
    requires y > 0
    ensures y / 100 == (y - 1) / 100 + if y % 100 == 0 then 1 else 0
    ensures (y + 1900) / 100 == y / 100 + 19
    ensures y % 100 == 0 ==> y % 4 == 0
  {
    if y % 100 == 0 { assert y == 4 * (25 * (y / 100)); }
  }

  lemma FourthCenturies(y: int)
    requires y > 0
    ensures y / 400 == (y - 1) / 400 + if y % 400 == 0 then 1 else 0
    ensures (y + 1600) / 400 == y / 400 + 4
    ensures y % 400 == 0 ==> y % 100 == 0
  {
    if y % 400 == 0 { assert y == 100 * (4 * (y / 400)); }
  }

  lemma LeapsStep(year: int)
    requires year > 0
    ensures Leaps(year) == Leaps(year - 1) + if Leap(year) then 1 else 0
  {
    FourthYears(year);
    CenturyYears(year);
    FourthCenturies(year);
  }

  /** The year loop, summed up. */
  lemma {:induction false} DaysBeforeClosed(year: int)
    requires year >= 1970
    ensures DaysBefore(year) == 365 * (year - 1970) + Leaps(year - 1) - 477
  {
    if year > 1970 {
      DaysBeforeClosed(year - 1);
      LeapsStep(year - 1);
    }
  }

  lemma {:induction false} DaysGrow(a: int, b: int)
    requires 1970 <= a <= b
    ensures DaysBefore(a) + 365 * (b - a) <= DaysBefore(b)
  {
    if a < b { DaysGrow(a, b - 1); }
  }

  lemma {:induction false} MonthsGrow(leap: bool, a: int, b: int)
    requires 0 <= a <= b <= 12
    ensures DaysBeforeMonth(leap, a) <= DaysBeforeMonth(leap, b)
  {
    if a < b { MonthsGrow(leap, a, b - 1); }
  }

  lemma MonthTable(leap: bool, mon: int)
    requires 0 <= mon <= 12
    ensures mon < 2 ==> DaysBeforeMonth(leap, mon) == 3 * (mon + 14) / 5 + 30 * (mon + 13) - 398
    ensures 2 <= mon < 12 ==>
        DaysBeforeMonth(leap, mon) == 3 * (mon + 2) / 5 + 30 * (mon + 1) - 33 + if leap then 1 else 0
    ensures mon == 12 ==> DaysBeforeMonth(leap, mon) == if leap then 366 else 365
  {
    if mon >= 5 {
      FirstMonths(leap);
      if mon >= 9 { MidMonths(leap); }
    }
  }

  lemma FirstMonths(leap: bool)
    ensures DaysBeforeMonth(leap, 4) == 120 + if leap then 1 else 0
    ensures DaysBeforeMonth(leap, 6) == 181 + if leap then 1 else 0
  {
    assert DaysBeforeMonth(leap, 1) == 31;
    assert DaysBeforeMonth(leap, 2) == 59 + if leap then 1 else 0;
    assert DaysBeforeMonth(leap, 3) == 90 + if leap then 1 else 0;
  }

  lemma MidMonths(leap: bool)
    ensures DaysBeforeMonth(leap, 8) == 243 + if leap then 1 else 0
    ensures DaysBeforeMonth(leap, 10) == 304 + if leap then 1 else 0
  {
    FirstMonths(leap);
    assert DaysBeforeMonth(leap, 7) == 212 + if leap then 1 else 0;
    assert DaysBeforeMonth(leap, 9) == 273 + if leap then 1 else 0;
  }

  // ---------------------------------------------------------------- dates

  /** A date and time of day that the calendar has, from 1970 on. */
  predicate ValidDate(tm: Tm) {
    && tm.year + 1900 >= 1970 && 0 <= tm.mon < 12
    && 1 <= tm.mday <= MonthSize(Leap(tm.year + 1900), tm.mon)
    && 0 <= tm.hour < 24 && 0 <= tm.min < 60 && 0 <= tm.sec < 60
  }

  function DayOfYear(tm: Tm): int
    requires ValidDate(tm)
  {
    DaysBeforeMonth(Leap(tm.year + 1900), tm.mon) + tm.mday - 1
  }

  function DayNumber(tm: Tm): int
    requires ValidDate(tm)
  {
    DaysBefore(tm.year + 1900) + DayOfYear(tm)
  }

  /** The seconds of a date, counted. */
  function Seconds(tm: Tm): int
    requires ValidDate(tm)
  {
    DayNumber(tm) * 86400 + tm.hour * 3600 + tm.min * 60 + tm.sec
  }

  /** Weekday, day of the year and the daylight flag belong to the date. */
  predicate Consistent(tm: Tm)
    requires ValidDate(tm)
  {
    tm.yday == DayOfYear(tm) && tm.wday == (DayNumber(tm) + 4) % 7 && tm.isdst == 0
  }

  lemma DayOfYearBounds(tm: Tm)
    requires ValidDate(tm)
    ensures 0 <= DayOfYear(tm) < YearSize(tm.year + 1900)
    ensures DaysBefore(tm.year + 1900) <= DayNumber(tm) < DaysBefore(tm.year + 1901)
  {
    var leap := Leap(tm.year + 1900);
    MonthsGrow(leap, tm.mon + 1, 12);
    MonthTable(leap, 12);
  }

  lemma MonthUnique(leap: bool, m: int, d: int, m': int, d': int)
    requires 0 <= m < 12 && 0 <= m' < 12 && 1 <= d <= MonthSize(leap, m) && 1 <= d' <= MonthSize(leap, m')
    requires DaysBeforeMonth(leap, m) + d == DaysBeforeMonth(leap, m') + d'
    ensures m == m' && d == d'
  {
    hide DaysBeforeMonth, MonthSize;
    NextMonth(leap, m);
    NextMonth(leap, m');
    if m < m' { MonthsGrow(leap, m + 1, m'); }
    if m' < m { MonthsGrow(leap, m' + 1, m); }
  }

  lemma NextMonth(leap: bool, m: int)
    requires 0 <= m < 12
    ensures DaysBeforeMonth(leap, m + 1) == DaysBeforeMonth(leap, m) + MonthSize(leap, m)
  {
  }

  lemma YearUnique(y: int, d: int, y': int, d': int)
    requires 1970 <= y && 1970 <= y' && 0 <= d < YearSize(y) && 0 <= d' < YearSize(y')
    requires DaysBefore(y) + d == DaysBefore(y') + d'
    ensures y == y' && d == d'
  {
    hide DaysBefore, Leap, YearSize;
    NextYear(y);
    NextYear(y');
    if y < y' { DaysGrow(y + 1, y'); }
    if y' < y { DaysGrow(y' + 1, y); }
  }

  lemma NextYear(y: int)
    requires y >= 1970
    ensures DaysBefore(y + 1) == DaysBefore(y) + YearSize(y)
  {
  }

  /** Two dates with the same day number are the same day. */
  lemma DayNumberUnique(a: Tm, b: Tm)
    requires ValidDate(a) && ValidDate(b) && DayNumber(a) == DayNumber(b)
    ensures a.year == b.year && a.mon == b.mon && a.mday == b.mday
  {
    DayOfYearBounds(a);
    DayOfYearBounds(b);
    hide DaysBefore, DaysBeforeMonth, Leap, MonthSize;
    YearUnique(a.year + 1900, DayOfYear(a), b.year + 1900, DayOfYear(b));
    MonthUnique(Leap(a.year + 1900), a.mon, a.mday, b.mon, b.mday);
  }

  lemma ClockUnique(d: int, h: int, m: int, s: int, d': int, h': int, m': int, s': int)
    requires 0 <= h < 24 && 0 <= m < 60 && 0 <= s < 60 && 0 <= h' < 24 && 0 <= m' < 60 && 0 <= s' < 60
    requires d * 86400 + h * 3600 + m * 60 + s == d' * 86400 + h' * 3600 + m' * 60 + s'
    ensures d == d' && h == h' && m == m' && s == s'
  {
  }

  /** Seconds determine the date. */
  lemma SecondsUnique(a: Tm, b: Tm)
    requires ValidDate(a) && ValidDate(b) && Consistent(a) && Consistent(b) && Seconds(a) == Seconds(b)
    ensures a == b
  {
    hide DayNumber;
    ClockUnique(DayNumber(a), a.hour, a.min, a.sec, DayNumber(b), b.hour, b.min, b.sec);
    DayNumberUnique(a, b);
  }

  // ---------------------------------------------------------------- tm_to_time

  function TmToTime(tm: Tm): int {
    var y0 := tm.year + 1900;
    var m0 := tm.mon + 1;
    var y := if m0 <= 2 then y0 - 1 else y0;
    var m := if m0 <= 2 then m0 + 12 else m0;
    var leap := TruncDiv(y, 4) - TruncDiv(y, 100) + TruncDiv(y, 400);
    (365 * y + leap + TruncDiv(3 * (m + 1), 5) + 30 * m + tm.mday - 719561) * 86400
    + 3600 * tm.hour + 60 * tm.min + tm.sec
  }

  /** The closed form counts the seconds of every valid date. */
  lemma TmToTimeCounts(tm: Tm)
    requires ValidDate(tm)
    ensures TmToTime(tm) == Seconds(tm)
  {
    var y := tm.year + 1900;
    DaysBeforeClosed(y);
    MonthTable(Leap(y), tm.mon);
    LeapsStep(y);
  }

  /** The expression of POSIX.1-2017, over the year and the day of the year. */
  function PosixSeconds(tm: Tm): int {
    tm.sec + tm.min * 60 + tm.hour * 3600 + tm.yday * 86400 + (tm.year - 70) * 31536000
    + ((tm.year - 69) / 4) * 86400 - ((tm.year - 1) / 100) * 86400 + ((tm.year + 299) / 400) * 86400
  }

  lemma PosixCounts(tm: Tm)
    requires ValidDate(tm) && tm.yday == DayOfYear(tm)
    ensures PosixSeconds(tm) == Seconds(tm)
  {
    DaysBeforeClosed(tm.year + 1900);
    PosixLeaps(tm.year + 1900);
  }

  lemma PosixLeaps(y: int)
    requires y >= 1970
    ensures Leaps(y - 1) - 477 == (y - 1969) / 4 - (y - 1901) / 100 + (y - 1601) / 400
  {
    FourthYears(y - 1969);
    CenturyYears(y - 1901);
    FourthCenturies(y - 1601);
  }

  // ---------------------------------------------------------------- time_to_tm

  /** A year size more than fits moves the day into the next year. */
  lemma LaterYear(days: int, year: int, dayno: int)
    requires 1970 <= year && days == DaysBefore(year) + dayno && dayno >= YearSize(year)
    ensures days >= DaysBefore(year + 1)
  {
  }

  lemma EarlierYear(days: int, year: int, dayno: int)
    requires 1970 <= year <= I32_MAX && days == DaysBefore(year) + dayno && dayno < YearSize(year)
    ensures days < DaysBefore(I32_MAX + 1)
  {
    NextYear(year);
    DaysGrow(year + 1, I32_MAX + 1);
  }

  /**
   The year loop: years are counted off until the day falls into one; a day before the epoch stays as it is. The year is
   an i32, so the loop overflows exactly when the day lies past the last year of that type.
   */
  method CountYears(days: int) returns (overflow: bool, year: int, dayno: int)
    ensures overflow <==> days >= DaysBefore(I32_MAX + 1)
    ensures !overflow ==> 1970 <= year <= I32_MAX && days == DaysBefore(year) + dayno && dayno < YearSize(year)
    ensures !overflow ==> if days < 0 then year == 1970 else dayno >= 0
  {
    overflow, year, dayno := false, 1970, days;
    while true
      invariant 1970 <= year <= I32_MAX && days == DaysBefore(year) + dayno
      invariant if days < 0 then year == 1970 else dayno >= 0
      decreases dayno
    {
      var yearsize := if Leap(year) then 366 else 365;
      if dayno >= yearsize {
        LaterYear(days, year, dayno);
        if year == I32_MAX {
          overflow := true;
          return;
        }
        dayno, year := dayno - yearsize, year + 1;
      } else {
        break;
      }
    }
    EarlierYear(days, year, dayno);
  }

  /** The month loop: it never leaves the table; `rest` is the day of the month, from zero. */
  method CountMonths(leap: bool, yday: int) returns (mon: int, rest: int)
    requires yday < if leap then 366 else 365
    ensures 0 <= mon < 12 && rest < MonthSize(leap, mon) && yday == DaysBeforeMonth(leap, mon) + rest
    ensures if yday < 0 then mon == 0 else rest >= 0
  {
    rest, mon := yday, 0;
    MonthTable(leap, 12);
    while rest >= MonthSize(leap, mon)
      invariant 0 <= mon < 12 && yday == DaysBeforeMonth(leap, mon) + rest
      invariant if yday < 0 then mon == 0 else rest >= 0
      decreases rest
    {
      rest, mon := rest - MonthSize(leap, mon), mon + 1;
      if mon == 12 { assert false; }
    }
  }

  lemma ClockParts(dayclock: int)
    requires 0 <= dayclock < 86400
    ensures var h, m, s := dayclock / 3600, dayclock % 3600 / 60, dayclock % 60;
      0 <= h < 24 && 0 <= m < 60 && 0 <= s < 60 && dayclock == 3600 * h + 60 * m + s
  {
    var r := dayclock % 3600;
    assert dayclock == 3600 * (dayclock / 3600) + r;
    assert r == 60 * (r / 60) + r % 60;
    assert r % 60 == dayclock % 60;
  }

  /**
   `time_to_tm` for every time, in a build that checks arithmetic: nothing comes out where an i32 overflows. The closed
   form takes the result back to the time exactly from the least i32 day to the last i32 year. From the epoch on the
   result is the date whose seconds these are.
   */
  method TimeToTm(ts: int) returns (tm: Option<Tm>)
    ensures tm.Some? && TmToTime(tm.value) == ts <==>
      I32_MIN <= TruncDiv(ts, 86400) < DaysBefore(I32_MAX + 1)
    ensures ts >= 0 ==> (tm.Some? <==> TruncDiv(ts, 86400) < DaysBefore(I32_MAX + 1))
    ensures ts >= 0 && tm.Some? ==>
      ValidDate(tm.value) && Consistent(tm.value) && Seconds(tm.value) == ts && PosixSeconds(tm.value) == ts
    ensures ts < 0 ==> tm == BeforeEpoch(ts)
  {
    hide DaysBefore, DaysBeforeMonth, Leap, TmToTime, PosixSeconds, TruncDiv, TruncMod, Seconds, Consistent, ValidDate;
    hide AsI32, BeforeEpoch;
    var dayclock := TruncMod(ts, 86400);
    var days := TruncDiv(ts, 86400);
    DaysSign(ts);
    var overflow, year, yday := CountYears(days);
    if overflow {
      LastYearIsLate();
      return None;
    }
    YearSizes(year);
    var mon, rest := CountMonths(Leap(year), yday);
    if AsI32(rest) == I32_MAX {
      tm := None;
    } else {
      tm := Some(Tm(TruncMod(dayclock, 60), TruncDiv(TruncMod(dayclock, 3600), 60), TruncDiv(dayclock, 3600),
                    AsI32(rest) + 1, mon, year - 1900, TruncMod(days + 4, 7), AsI32(yday), 0));
    }
    if ts >= 0 {
      SmallDays(Leap(year), mon, rest, yday);
      SinceEpoch(ts, year, yday, mon, rest + 1);
      TmToTimeCounts(tm.value);
      PosixCounts(tm.value);
    } else {
      DayBeforeEpoch(days, year, yday, mon, rest + 1);
      BeforeEpochIs(ts);
      RoundTripBeforeEpoch(ts);
    }
  }

  lemma LastYearIsLate()
    ensures DaysBefore(I32_MAX + 1) > 0
  {
    DaysGrow(1970, I32_MAX + 1);
  }

  lemma YearSizes(year: int)
    ensures YearSize(year) == if Leap(year) then 366 else 365
  {
  }

  /** The casts change nothing from the epoch on. */
  lemma SmallDays(leap: bool, mon: int, rest: int, yday: int)
    requires 0 <= mon < 12 && 0 <= rest < MonthSize(leap, mon) && 0 <= yday < 366
    ensures AsI32(rest) == rest && AsI32(yday) == yday && rest < I32_MAX
  {
  }

  lemma SinceEpoch(ts: int, year: int, yday: int, mon: int, mday: int)
    requires ts >= 0 && 1970 <= year && TruncDiv(ts, 86400) == DaysBefore(year) + yday && 0 <= yday
    requires 0 <= mon < 12 && 1 <= mday <= MonthSize(Leap(year), mon)
    requires yday == DaysBeforeMonth(Leap(year), mon) + mday - 1
    ensures var c, d := TruncMod(ts, 86400), TruncDiv(ts, 86400);
      var tm := Tm(TruncMod(c, 60), TruncDiv(TruncMod(c, 3600), 60), TruncDiv(c, 3600), mday, mon, year - 1900,
                   TruncMod(d + 4, 7), yday, 0);
      ValidDate(tm) && Consistent(tm) && Seconds(tm) == ts
  {
    PositiveParts(ts, ts % 86400, TruncDiv(ts, 86400));
    hide DaysBefore, DaysBeforeMonth, Leap, MonthSize, TruncDiv, TruncMod;
    ClockParts(ts % 86400);
  }

  lemma PositiveParts(ts: int, c: int, d: int)
    requires ts >= 0 && 0 <= c < 86400 && d >= 0
    ensures TruncDiv(ts, 86400) == ts / 86400 && TruncMod(ts, 86400) == ts % 86400
    ensures TruncDiv(c, 3600) == c / 3600 && TruncMod(c, 60) == c % 60 && TruncMod(d + 4, 7) == (d + 4) % 7
    ensures TruncDiv(TruncMod(c, 3600), 60) == c % 3600 / 60
    ensures ts == ts / 86400 * 86400 + ts % 86400
  {
    assert TruncMod(c, 3600) == c % 3600;
  }

  lemma DaysSign(ts: int)
    ensures ts >= 0 ==> TruncDiv(ts, 86400) >= 0
    ensures ts < 0 ==> TruncDiv(ts, 86400) <= 0
  {
  }

  lemma DayBeforeEpoch(days: int, year: int, yday: int, mon: int, mday: int)
    requires days <= 0 && 1970 <= year && days == DaysBefore(year) + yday && yday < YearSize(year)
    requires 0 <= mon < 12 && mday <= MonthSize(Leap(year), mon) && yday == DaysBeforeMonth(Leap(year), mon) + mday - 1
    requires if days < 0 then year == 1970 else yday >= 0
    requires if yday < 0 then mon == 0 else mday >= 1
    ensures year == 1970 && yday == days && mon == 0 && mday == days + 1
  {
    assert DaysBefore(1970) == 0 && DaysBeforeMonth(Leap(year), 0) == 0;
    if days == 0 {
      YearUnique(1970, 0, year, yday);
      MonthUnique(Leap(year), 0, 1, mon, mday);
    }
  }

  /** Every valid date from 1970 on is recovered from its seconds. */
  method DateRoundTrip(tm: Tm) returns (back: Option<Tm>)
    requires ValidDate(tm) && Consistent(tm) && tm.year + 1900 <= I32_MAX
    ensures back == Some(tm)
  {
    TmToTimeCounts(tm);
    DayOfYearBounds(tm);
    DaysGrow(tm.year + 1901, I32_MAX + 1);
    SecondsInDay(tm);
    assert TruncDiv(TmToTime(tm), 86400) == DayNumber(tm);
    back := TimeToTm(TmToTime(tm));
    SecondsUnique(back.value, tm);
  }

  lemma SecondsInDay(tm: Tm)
    requires ValidDate(tm)
    ensures Seconds(tm) / 86400 == DayNumber(tm) && Seconds(tm) >= 0
  {
    DayOfYearBounds(tm);
    hide DayNumber;
    var c := tm.hour * 3600 + tm.min * 60 + tm.sec;
    assert 0 <= c < 86400;
  }

  // ---------------------------------------------------------------- before the epoch

  /** The fields for a time before the epoch with a given day of the month. */
  function JanuaryTm(ts: int, mday: int): Tm {
    var dayclock, dayno := TruncMod(ts, 86400), TruncDiv(ts, 86400);
    Tm(TruncMod(dayclock, 60), TruncDiv(TruncMod(dayclock, 3600), 60), TruncDiv(dayclock, 3600), mday, 0, 70,
       TruncMod(dayno + 4, 7), AsI32(dayno), 0)
  }

  /**
   Before the epoch neither loop runs, so the year stays 1970, the month January, and the day is zero or negative. It is
   cast to an i32, and adding one to the cast overflows where the cast yields the greatest i32.
   */
  function BeforeEpoch(ts: int): Option<Tm>
    requires ts < 0
  {
    var day := AsI32(TruncDiv(ts, 86400));
    if day == I32_MAX then None else Some(JanuaryTm(ts, day + 1))
  }

  lemma BeforeEpochIs(ts: int)
    requires ts < 0
    ensures var c, d := TruncMod(ts, 86400), TruncDiv(ts, 86400);
      BeforeEpoch(ts) == if AsI32(d) == I32_MAX then None else
        Some(Tm(TruncMod(c, 60), TruncDiv(TruncMod(c, 3600), 60), TruncDiv(c, 3600), AsI32(d) + 1, 0, 70,
                TruncMod(d + 4, 7), AsI32(d), 0))
  {
  }

  /** The clock of a time before the epoch, with its sign. */
  lemma NegativeClock(ts: int)
    requires ts < 0
    ensures var c, d := TruncMod(ts, 86400), TruncDiv(ts, 86400);
      && 3600 * TruncDiv(c, 3600) + 60 * TruncDiv(TruncMod(c, 3600), 60) + TruncMod(c, 60) == c
      && ts == d * 86400 + c && d <= 0 && c <= 0
  {
    var n := -ts;
    var c := n % 86400;
    ClockParts(c);
    assert n == n / 86400 * 86400 + c;
    assert TruncMod(ts, 86400) == -c && TruncDiv(ts, 86400) == -(n / 86400);
    NegativeParts(c);
  }

  /** The closed form gives the time back exactly if the day of the month is the day number plus one. */
  lemma JanuaryRoundTrip(ts: int, mday: int)
    requires ts < 0
    ensures TmToTime(JanuaryTm(ts, mday)) == ts + (mday - 1 - TruncDiv(ts, 86400)) * 86400
    ensures TmToTime(JanuaryTm(ts, mday)) == ts <==> mday == TruncDiv(ts, 86400) + 1
    ensures mday == TruncDiv(ts, 86400) + 1 ==> !ValidDate(JanuaryTm(ts, mday))
  {
    JanuaryBase(JanuaryTm(ts, mday));
    NegativeClock(ts);
    hide TmToTime, TruncDiv, TruncMod, AsI32;
  }

  lemma JanuaryBase(tm: Tm)
    requires tm.mon == 0 && tm.year == 70
    ensures TmToTime(tm) == (tm.mday - 1) * 86400 + 3600 * tm.hour + 60 * tm.min + tm.sec
  {
    assert TruncDiv(1969, 4) == 492 && TruncDiv(1969, 100) == 19 && TruncDiv(1969, 400) == 4 && TruncDiv(42, 5) == 8;
  }

  lemma NegativeParts(c: int)
    requires 0 <= c < 86400
    ensures TruncDiv(-c, 3600) == -(c / 3600) && TruncMod(-c, 60) == -(c % 60)
    ensures TruncDiv(TruncMod(-c, 3600), 60) == -(c % 3600 / 60)
  {
    assert TruncMod(-c, 3600) == -(c % 3600);
  }

  /** Before the epoch the round trip holds if and only if the day number fits an i32; then the fields are no date. */
  lemma RoundTripBeforeEpoch(ts: int)
    requires ts < 0
    ensures BeforeEpoch(ts).Some? && TmToTime(BeforeEpoch(ts).value) == ts <==> TruncDiv(ts, 86400) >= I32_MIN
    ensures BeforeEpoch(ts) == None <==> AsI32(TruncDiv(ts, 86400)) == I32_MAX
    ensures TruncDiv(ts, 86400) >= I32_MIN ==> !ValidDate(BeforeEpoch(ts).value)
  {
    var d := TruncDiv(ts, 86400);
    DaysSign(ts);
    JanuaryRoundTrip(ts, AsI32(d) + 1);
    hide TmToTime, JanuaryTm, ValidDate, TruncDiv;
  }

  /**
   A build that does not check arithmetic wraps the sum instead. The round trip then reaches one day further: the day
   whose cast is the greatest i32 comes back by the second wrap.
   */
  lemma WrappingBeforeEpoch(ts: int)
    requires ts < 0
    ensures var mday := AsI32(AsI32(TruncDiv(ts, 86400)) + 1);
      TmToTime(JanuaryTm(ts, mday)) == ts <==> TruncDiv(ts, 86400) >= I32_MIN - 1
  {
    var d := TruncDiv(ts, 86400);
    DaysSign(ts);
    CastOfSum(d);
    JanuaryRoundTrip(ts, AsI32(d + 1));
  }

  lemma CastOfSum(d: int)
    ensures AsI32(AsI32(d) + 1) == AsI32(d + 1)
  {
    var x := d - I32_MIN;
    assert (x % I32_VALUES + 1) % I32_VALUES == (x + 1) % I32_VALUES by {
      var q := x / I32_VALUES;
      assert x == q * I32_VALUES + x % I32_VALUES;
    }
  }

  /** A time of the i64 range that does not come back: its day is cast to a positive one. */
  lemma FarPastIsLost()
    ensures var ts := -300_000_000_000_000;
      && TruncDiv(ts, 86400) == -3472222222 && AsI32(TruncDiv(ts, 86400)) == 822745074
      && BeforeEpoch(ts).Some? && TmToTime(BeforeEpoch(ts).value) != ts
  {
    hide TmToTime, BeforeEpoch, ValidDate;
    RoundTripBeforeEpoch(-300_000_000_000_000);
  }

  /** The time of the first overflow: the day before the least i32 day is cast to the greatest i32. */
  lemma DayBeforeLeastOverflows()
    ensures var ts := (I32_MIN - 1) * 86400; TruncDiv(ts, 86400) == I32_MIN - 1 && BeforeEpoch(ts) == None
  {
    hide TmToTime, BeforeEpoch, ValidDate;
    RoundTripBeforeEpoch((I32_MIN - 1) * 86400);
  }
}
