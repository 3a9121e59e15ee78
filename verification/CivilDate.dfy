/** Days and seconds since 1970-01-01 from a calendar date, against counting days one by one. */
module CivilDate {
  /** Integer division as in C: towards zero. */
  function TruncDiv(a: int, b: int): int
    requires b > 0
  {
    if a >= 0 then a / b else -((-a) / b)
  }

  /** The days-from-civil part of `utc_tm_to_epoch_s`; months count from 1. */
  function DaysFromCivil(year: int, m: int, d: int): int {
    var y := if m <= 2 then year - 1 else year;
    var era := TruncDiv(if y >= 0 then y else y - 399, 400);
    var yoe := y - era * 400;
    var doy := TruncDiv(153 * (m + if m > 2 then -3 else 9) + 2, 5) + d - 1;
    var doe := yoe * 365 + TruncDiv(yoe, 4) - TruncDiv(yoe, 100) + doy;
    era * 146097 + doe - 719468
  }

  /** `utc_tm_to_epoch_s` on the broken-down time: years from 1900, months from 0. */
  function EpochSeconds(tmYear: int, tmMon: int, tmDay: int, hour: int, minute: int, second: int): int {
    DaysFromCivil(tmYear + 1900, tmMon + 1, tmDay) * 86400 + hour * 3600 + minute * 60 + second
  }

  // ----- The proleptic Gregorian calendar

  predicate Leap(y: int) {
    y % 4 == 0 && (y % 100 != 0 || y % 400 == 0)
  }

  function YearLength(y: int): int {
    if Leap(y) then 366 else 365
  }

  function MonthLength(y: int, m: int): int {
    if m == 2 then (if Leap(y) then 29 else 28)
    else if m == 4 || m == 6 || m == 9 || m == 11 then 30
    else 31
  }

  datatype Date = Date(year: int, month: int, day: int)

  predicate Valid(a: Date) {
    1 <= a.month <= 12 && 1 <= a.day <= MonthLength(a.year, a.month)
  }

  function Tomorrow(a: Date): Date {
    if a.day < MonthLength(a.year, a.month) then a.(day := a.day + 1)
    else if a.month < 12 then Date(a.year, a.month + 1, 1)
    else Date(a.year + 1, 1, 1)
  }

  // ----- Counting days

  /** Days from 1970-01-01 to the first of January, year by year. */
  function YearStart(y: int): int
    decreases if y >= 1970 then y - 1970 else 1970 - y
  {
    if y == 1970 then 0
    else if y > 1970 then YearStart(y - 1) + YearLength(y - 1)
    else YearStart(y + 1) - YearLength(y)
  }

  /** Days of the year before a month, month by month. */
  function MonthStart(y: int, m: int): int
    requires m >= 1
    decreases m
  {
    if m == 1 then 0 else MonthStart(y, m - 1) + MonthLength(y, m - 1)
  }

  function Counted(a: Date): int
    requires a.month >= 1
  {
    YearStart(a.year) + MonthStart(a.year, a.month) + a.day - 1
  }

  // ----- The era arithmetic in closed form

  lemma {:induction false} EraForm(y: int)
    ensures var era := TruncDiv(if y >= 0 then y else y - 399, 400);
      var yoe := y - era * 400;
      && era == y / 400 && 0 <= yoe < 400
      && era * 146097 + yoe * 365 + TruncDiv(yoe, 4) - TruncDiv(yoe, 100) == 365 * y + Leaps(y)
  {
    var era := y / 400;
    var yoe := y % 400;
    assert y == 400 * era + yoe;
    assert y / 4 == 100 * era + yoe / 4;
    assert y / 100 == 4 * era + yoe / 100;
  }

  /** Leap years up to and including `y`, counted from year 1. */
  function Leaps(y: int): int {
    y / 4 - y / 100 + y / 400
  }

  lemma {:induction false} Multiples(y: int)
    ensures y / 4 == (y - 1) / 4 + if y % 4 == 0 then 1 else 0
    ensures y / 100 == (y - 1) / 100 + if y % 100 == 0 then 1 else 0
    ensures y / 400 == (y - 1) / 400 + if y % 400 == 0 then 1 else 0
  {
  }

  lemma {:induction false} Nested(y: int)
    ensures y % 100 == 0 ==> y % 4 == 0
    ensures y % 400 == 0 ==> y % 100 == 0
  {
  }

  lemma {:induction false} LeapDays(y: int)
    ensures Leaps(y) == Leaps(y - 1) + if Leap(y) then 1 else 0
  {
    Multiples(y);
    Nested(y);
  }

  lemma {:induction false} YearStartForm(y: int)
    ensures YearStart(y) == 365 * (y - 1) + Leaps(y - 1) - 719162
    decreases if y >= 1970 then y - 1970 else 1970 - y
  {
    if y > 1970 {
      YearStartForm(y - 1);
      LeapDays(y - 1);
    } else if y < 1970 {
      YearStartForm(y + 1);
      LeapDays(y);
    }
  }

  /** Days from the first of March to a month, and the days before that month in the year. */
  lemma {:induction false} MonthTable(y: int, m: int)
    requires 1 <= m <= 12
    ensures m > 2 ==> MonthStart(y, m) == TruncDiv(153 * (m - 3) + 2, 5) + 59 + if Leap(y) then 1 else 0
    ensures m <= 2 ==> MonthStart(y, m) == TruncDiv(153 * (m + 9) + 2, 5) - 306
  {
    if m > 3 {
      MonthTable(y, m - 1);
    } else if m == 3 {
      assert MonthStart(y, 3) == MonthStart(y, 2) + MonthLength(y, 2);
      assert MonthStart(y, 2) == MonthStart(y, 1) + MonthLength(y, 1);
    }
  }

  lemma {:induction false} CivilForm(year: int, m: int, d: int)
    ensures var y := if m <= 2 then year - 1 else year;
      DaysFromCivil(year, m, d) == 365 * y + Leaps(y) + TruncDiv(153 * (m + if m > 2 then -3 else 9) + 2, 5)
        + d - 1 - 719468
  {
    EraForm(if m <= 2 then year - 1 else year);
  }

  /** The closed formula counts days, for every date of every year. */
  lemma {:induction false} CivilIsCounted(a: Date)
    requires Valid(a)
    ensures DaysFromCivil(a.year, a.month, a.day) == Counted(a)
  {
    CivilForm(a.year, a.month, a.day);
    YearStartForm(a.year);
    LeapDays(a.year);
    MonthTable(a.year, a.month);
  }

  lemma {:induction false} CountedTomorrow(a: Date)
    requires Valid(a)
    ensures Valid(Tomorrow(a)) && Counted(Tomorrow(a)) == Counted(a) + 1
  {
    YearEnds(a.year);
  }

  /** Every date is one day after the previous one, and day zero is 1970-01-01. */
  lemma {:induction false} TomorrowIsNext(a: Date)
    requires Valid(a)
    ensures Valid(Tomorrow(a))
    ensures DaysFromCivil(Tomorrow(a).year, Tomorrow(a).month, Tomorrow(a).day)
            == DaysFromCivil(a.year, a.month, a.day) + 1
    ensures DaysFromCivil(1970, 1, 1) == 0
  {
    CountedTomorrow(a);
    CivilIsCounted(a);
    CivilIsCounted(Tomorrow(a));
    CivilIsCounted(Date(1970, 1, 1));
  }

  lemma {:induction false} YearEnds(y: int)
    ensures YearStart(y + 1) == YearStart(y) + YearLength(y)
    ensures MonthStart(y, 12) + 31 == YearLength(y)
  {
    YearStartForm(y);
    YearStartForm(y + 1);
    LeapDays(y);
    MonthTable(y, 12);
  }

  // ----- Seconds since the Epoch

  /** The expression of section 4.16 of POSIX.1-2017, with years from 1900 and days of the year from 0. */
  function PosixSeconds(tmYear: int, yday: int, hour: int, minute: int, second: int): int {
    second + minute * 60 + hour * 3600 + yday * 86400 + (tmYear - 70) * 31536000
    + ((tmYear - 69) / 4) * 86400 - ((tmYear - 1) / 100) * 86400 + ((tmYear + 299) / 400) * 86400
  }

  /** From 1970 on the result is the one POSIX defines. */
  lemma {:induction false} AgreesWithPosix(tmYear: int, tmMon: int, tmDay: int, hour: int, minute: int, second: int)
    requires tmYear >= 70 && Valid(Date(tmYear + 1900, tmMon + 1, tmDay))
    ensures EpochSeconds(tmYear, tmMon, tmDay, hour, minute, second) ==
            PosixSeconds(tmYear, MonthStart(tmYear + 1900, tmMon + 1) + tmDay - 1, hour, minute, second)
  {
    var y := tmYear + 1900;
    CivilIsCounted(Date(y, tmMon + 1, tmDay));
    YearStartForm(y);
    assert (y - 1) / 4 == (tmYear - 69) / 4 + 492;
    assert (y - 1) / 100 == (tmYear - 1) / 100 + 19;
    assert (y - 1) / 400 == (tmYear + 299) / 400 + 4;
  }
}
