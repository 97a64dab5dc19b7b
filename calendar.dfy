/** The proleptic Gregorian calendar as JavaScript's `Date` uses it, reduced
    to whole days and milliseconds within a day: leap years, month lengths,
    the normalisation `new Date(y, m - 1, d)` applies to an overlong day,
    `setFullYear`, and a day count that orders dates. Time zones and
    daylight-saving shifts are not part of it: every day has 86 400 000 ms. */
module Calendar {

  const MsPerDay := 86400000

  predicate IsLeap(y: int) {
    y % 4 == 0 && (y % 100 != 0 || y % 400 == 0)
  }

  function DaysInMonth(y: int, m: int): (r: int)
    requires 1 <= m <= 12
    ensures 28 <= r <= 31
    ensures r == 29 <==> m == 2 && IsLeap(y)
  {
    if m == 2 then (if IsLeap(y) then 29 else 28)
    else if m == 4 || m == 6 || m == 9 || m == 11 then 30
    else 31
  }

  predicate IsRealDate(y: int, m: int, d: int) {
    1 <= m <= 12 && 1 <= d <= DaysInMonth(y, m)
  }

  /** A calendar date: year, month from 1, day of the month from 1. */
  datatype Date = Date(year: int, month: int, day: int)

  /** `new Date(y, m - 1, d)` for a month in range and a day from 1 to 31:
      a day beyond the end of the month rolls into the next month, and
      beyond December into January of the next year. */
  function MakeDate(y: int, m: int, d: int): (r: Date)
    requires 1 <= m <= 12 && 1 <= d <= 31
    ensures IsRealDate(r.year, r.month, r.day)
    ensures r == Date(y, m, d) <==> d <= DaysInMonth(y, m)
  {
    if d <= DaysInMonth(y, m) then Date(y, m, d)
    else if m < 12 then Date(y, m + 1, d - DaysInMonth(y, m))
    else Date(y + 1, 1, d - DaysInMonth(y, m))
  }

  function YearLength(y: int): int {
    if IsLeap(y) then 366 else 365
  }

  /** Days in the months of year `y` before month `m`. */
  function DaysBeforeMonth(y: int, m: int): int
    requires 1 <= m <= 13
  {
    if m == 1 then 0 else DaysBeforeMonth(y, m - 1) + DaysInMonth(y, m - 1)
  }

  /** Days in the years from 0 to `y - 1`. */
  function DaysBeforeYear(y: nat): nat {
    if y == 0 then 0 else DaysBeforeYear(y - 1) + YearLength(y - 1)
  }

  /** Days from 1 January of year 0 to the date. */
  function DayNumber(y: nat, m: int, d: int): int
    requires IsRealDate(y, m, d)
  {
    DaysBeforeYear(y) + DaysBeforeMonth(y, m) + d - 1
  }

  /** The whole year is the twelve months. */
  lemma YearOfMonths(y: int)
    ensures DaysBeforeMonth(y, 13) == YearLength(y)
  {
    var feb := DaysInMonth(y, 2);
    assert DaysBeforeMonth(y, 2) == 31;
    assert DaysBeforeMonth(y, 3) == 31 + feb;
    assert DaysBeforeMonth(y, 4) == 62 + feb;
    assert DaysBeforeMonth(y, 5) == 92 + feb;
    assert DaysBeforeMonth(y, 6) == 123 + feb;
    assert DaysBeforeMonth(y, 7) == 153 + feb;
    assert DaysBeforeMonth(y, 8) == 184 + feb;
    assert DaysBeforeMonth(y, 9) == 215 + feb;
    assert DaysBeforeMonth(y, 10) == 245 + feb;
    assert DaysBeforeMonth(y, 11) == 276 + feb;
    assert DaysBeforeMonth(y, 12) == 306 + feb;
    assert DaysBeforeMonth(y, 13) == 337 + feb;
  }

  lemma {:induction false} DaysBeforeMonthMonotone(y: int, m: int, m2: int)
    requires 1 <= m <= m2 <= 13
    ensures DaysBeforeMonth(y, m) <= DaysBeforeMonth(y, m2)
    decreases m2 - m
  {
    if m < m2 {
      DaysBeforeMonthMonotone(y, m, m2 - 1);
    }
  }

  lemma {:induction false} DaysBeforeYearMonotone(y: nat, y2: nat)
    requires y <= y2
    ensures DaysBeforeYear(y) <= DaysBeforeYear(y2)
    decreases y2 - y
  {
    if y < y2 {
      DaysBeforeYearMonotone(y, y2 - 1);
    }
  }

  predicate Before(a: Date, b: Date) {
    a.year < b.year
    || (a.year == b.year && (a.month < b.month || (a.month == b.month && a.day < b.day)))
  }

  /** The day count follows calendar order, so comparing the `Date` values
      the source builds compares calendar dates. */
  lemma DayNumberOrder(a: Date, b: Date)
    requires a.year >= 0 && b.year >= 0
    requires IsRealDate(a.year, a.month, a.day) && IsRealDate(b.year, b.month, b.day)
    requires Before(a, b)
    ensures DayNumber(a.year, a.month, a.day) < DayNumber(b.year, b.month, b.day)
  {
    if a.year < b.year {
      DaysBeforeMonthMonotone(a.year, a.month + 1, 13);
      YearOfMonths(a.year);
      assert DaysBeforeYear(a.year + 1) == DaysBeforeYear(a.year) + YearLength(a.year);
      DaysBeforeYearMonotone(a.year + 1, b.year);
      assert DayNumber(a.year, a.month, a.day) < DaysBeforeYear(a.year + 1);
      DaysBeforeMonthMonotone(b.year, 1, b.month);
    } else if a.month < b.month {
      DaysBeforeMonthMonotone(a.year, a.month + 1, b.month);
    }
  }

  /** A moment: a date and the milliseconds elapsed since its midnight. */
  datatype Clock = Clock(year: int, month: int, day: int, ms: int)

  predicate ValidClock(c: Clock) {
    c.year >= 0 && IsRealDate(c.year, c.month, c.day) && 0 <= c.ms < MsPerDay
  }

  /** `d.setFullYear(d.getFullYear() + k)`: the same month, day and time in
      another year, with 29 February rolling over to 1 March when that year
      is not a leap year. */
  function ShiftYears(c: Clock, k: int): (r: Clock)
    requires ValidClock(c) && c.year + k >= 0
    ensures ValidClock(r) && r.year == c.year + k && r.ms == c.ms
    ensures r.month == c.month && r.day == c.day <==> !(c.month == 2 && c.day == 29 && !IsLeap(c.year + k))
  {
    if c.month == 2 && c.day == 29 && !IsLeap(c.year + k) then Clock(c.year + k, 3, 1, c.ms)
    else Clock(c.year + k, c.month, c.day, c.ms)
  }

  /** `getTime()`, counted from year 0 instead of 1970. */
  function Timestamp(c: Clock): int
    requires ValidClock(c)
  {
    DayNumber(c.year, c.month, c.day) * MsPerDay + c.ms
  }

  /** Moments compare by day first, then by time of day. */
  lemma TimestampOrder(a: Clock, b: Clock)
    requires ValidClock(a) && ValidClock(b)
    ensures Timestamp(a) <= Timestamp(b) <==>
      DayNumber(a.year, a.month, a.day) < DayNumber(b.year, b.month, b.day)
      || (DayNumber(a.year, a.month, a.day) == DayNumber(b.year, b.month, b.day) && a.ms <= b.ms)
  {
    var da := DayNumber(a.year, a.month, a.day);
    var db := DayNumber(b.year, b.month, b.day);
    if da < db {
      assert (db - da) * MsPerDay >= MsPerDay;
      assert db * MsPerDay == da * MsPerDay + (db - da) * MsPerDay;
    } else if da > db {
      assert (da - db) * MsPerDay >= MsPerDay;
      assert da * MsPerDay == db * MsPerDay + (da - db) * MsPerDay;
    }
  }
}
