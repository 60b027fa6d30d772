/** Calendar dates as Python's `datetime.date` holds them, and the arithmetic
    behind `(date1 - date2).days`: each date becomes its proleptic Gregorian
    ordinal (day 1 is 0001-01-01) and the result is the difference of the two
    ordinals. */
module Dates {

  datatype Date = Date(year: int, month: int, day: int)

  const MinYear := 1
  const MaxYear := 9999

  /** The last date `datetime.date` can represent. */
  const MaxDate := Date(MaxYear, 12, 31)

  predicate IsLeapYear(y: int) {
    y % 4 == 0 && (y % 100 != 0 || y % 400 == 0)
  }

  function DaysInMonth(y: int, m: int): (n: int)
    requires 1 <= m <= 12
    ensures 28 <= n <= 31
    ensures n == 29 <==> m == 2 && IsLeapYear(y)
  {
    if m == 2 then (if IsLeapYear(y) then 29 else 28)
    else if m == 4 || m == 6 || m == 9 || m == 11 then 30
    else 31
  }

  function DaysInYear(y: int): int {
    if IsLeapYear(y) then 366 else 365
  }

  /** A date `datetime.date` accepts: year 1..9999, month 1..12, and a day
      that exists in that month of that year. */
  predicate ValidDate(d: Date) {
    && MinYear <= d.year <= MaxYear
    && 1 <= d.month <= 12
    && 1 <= d.day <= DaysInMonth(d.year, d.month)
  }

  /** Strict chronological order: year, then month, then day. */
  predicate Before(a: Date, b: Date) {
    || a.year < b.year
    || (a.year == b.year && a.month < b.month)
    || (a.year == b.year && a.month == b.month && a.day < b.day)
  }

  /** Days in the years before year `y` (the closed form Python uses). */
  function DaysBeforeYear(y: int): int
    requires y >= 1
  {
    var p := y - 1;
    p * 365 + p / 4 - p / 100 + p / 400
  }

  /** Days in the months of year `y` that come before month `m`. */
  function DaysBeforeMonth(y: int, m: int): int
    requires 1 <= m <= 12
  {
    [0, 31, 59, 90, 120, 151, 181, 212, 243, 273, 304, 334][m - 1]
      + (if m > 2 && IsLeapYear(y) then 1 else 0)
  }

  /** The ordinal of the last representable date (Python's `MAXORDINAL`). */
  const MaxOrdinal := 3652059

  /** The proleptic Gregorian ordinal of a date (`date.toordinal()`): it
      runs from 1 for 0001-01-01 up to `MaxOrdinal`. */
  function DayNumber(d: Date): (n: int)
    requires ValidDate(d)
    ensures 1 <= n <= MaxOrdinal
  {
    DayOfYearBounds(d);
    DaysBeforeYearMonotone(d.year, MaxYear + 1);
    DaysBeforeYear(d.year) + DaysBeforeMonth(d.year, d.month) + d.day
  }

  /** `(today - start).days`: negative when `start` lies after `today`, and
      never as far apart as the whole representable range. */
  function Elapsed(today: Date, start: Date): (e: int)
    requires ValidDate(today) && ValidDate(start)
    ensures -MaxOrdinal < e < MaxOrdinal
  {
    DayNumber(today) - DayNumber(start)
  }

  /** The calendar day after `d`. */
  function NextDay(d: Date): (r: Date)
    requires ValidDate(d) && d != MaxDate
    ensures ValidDate(r) && Before(d, r)
  {
    if d.day < DaysInMonth(d.year, d.month) then Date(d.year, d.month, d.day + 1)
    else if d.month < 12 then Date(d.year, d.month + 1, 1)
    else Date(d.year + 1, 1, 1)
  }

  /** The date `k` days after `d` (`d + timedelta(days=k)`), within the
      representable range. */
  function AddDays(d: Date, k: nat): (r: Date)
    requires ValidDate(d) && DayNumber(d) + k <= DayNumber(MaxDate)
    ensures ValidDate(r) && DayNumber(r) == DayNumber(d) + k
    decreases k
  {
    if k == 0 then d
    else
      NextDayNumber(d);
      AddDays(NextDay(d), k - 1)
  }

  lemma DaysBeforeYearStep(y: int)
    requires y >= 1
    ensures DaysBeforeYear(y + 1) == DaysBeforeYear(y) + DaysInYear(y)
  {
    var p := y - 1;
    QuotientStep4(y);
    QuotientStep100(y);
    QuotientStep400(y);
    DivisorChain(y);
    assert DaysBeforeYear(y + 1) - DaysBeforeYear(y)
      == 365 + (y / 4 - p / 4) - (y / 100 - p / 100) + (y / 400 - p / 400);
  }

  /** A multiple of 400 is a multiple of 100, and one of 100 a multiple of 4. */
  lemma DivisorChain(y: int)
    ensures y % 400 == 0 ==> y % 100 == 0
    ensures y % 100 == 0 ==> y % 4 == 0
  {
    if y % 400 == 0 {
      var m := 4 * (y / 400);
      assert y == 100 * m;
    }
    if y % 100 == 0 {
      var m := 25 * (y / 100);
      assert y == 4 * m;
    }
  }

  lemma QuotientStep4(y: int)
    requires y >= 1
    ensures y / 4 == (y - 1) / 4 + (if y % 4 == 0 then 1 else 0)
  {
  }

  lemma QuotientStep100(y: int)
    requires y >= 1
    ensures y / 100 == (y - 1) / 100 + (if y % 100 == 0 then 1 else 0)
  {
  }

  lemma QuotientStep400(y: int)
    requires y >= 1
    ensures y / 400 == (y - 1) / 400 + (if y % 400 == 0 then 1 else 0)
  {
  }

  lemma {:induction false} DaysBeforeYearMonotone(y1: int, y2: int)
    requires 1 <= y1 < y2
    ensures DaysBeforeYear(y1) + DaysInYear(y1) <= DaysBeforeYear(y2)
    decreases y2 - y1
  {
    DaysBeforeYearStep(y1);
    if y1 + 1 < y2 {
      DaysBeforeYearMonotone(y1 + 1, y2);
    }
  }

  lemma DaysBeforeMonthStep(y: int, m: int)
    requires 1 <= m < 12
    ensures DaysBeforeMonth(y, m + 1) == DaysBeforeMonth(y, m) + DaysInMonth(y, m)
  {
  }

  lemma {:induction false} DaysBeforeMonthMonotone(y: int, m1: int, m2: int)
    requires 1 <= m1 < m2 <= 12
    ensures DaysBeforeMonth(y, m1) + DaysInMonth(y, m1) <= DaysBeforeMonth(y, m2)
    decreases m2 - m1
  {
    DaysBeforeMonthStep(y, m1);
    if m1 + 1 < m2 {
      DaysBeforeMonthMonotone(y, m1 + 1, m2);
    }
  }

  /** Every valid date falls on a day of its own year. */
  lemma DayOfYearBounds(d: Date)
    requires ValidDate(d)
    ensures 1 <= DaysBeforeMonth(d.year, d.month) + d.day <= DaysInYear(d.year)
  {
    if d.month < 12 {
      DaysBeforeMonthMonotone(d.year, d.month, 12);
    }
  }

  /** Ordinals follow the calendar: an earlier date has a smaller ordinal. */
  lemma DayNumberMonotone(a: Date, b: Date)
    requires ValidDate(a) && ValidDate(b) && Before(a, b)
    ensures DayNumber(a) < DayNumber(b)
  {
    DayOfYearBounds(a);
    DayOfYearBounds(b);
    if a.year < b.year {
      DaysBeforeYearMonotone(a.year, b.year);
    } else if a.month < b.month {
      DaysBeforeMonthMonotone(a.year, a.month, b.month);
    }
  }

  /** Distinct valid dates have distinct ordinals. */
  lemma DayNumberInjective(a: Date, b: Date)
    requires ValidDate(a) && ValidDate(b) && DayNumber(a) == DayNumber(b)
    ensures a == b
  {
    if Before(a, b) {
      DayNumberMonotone(a, b);
    } else if Before(b, a) {
      DayNumberMonotone(b, a);
    }
  }

  lemma NextDayNumber(d: Date)
    requires ValidDate(d) && d != MaxDate
    ensures DayNumber(NextDay(d)) == DayNumber(d) + 1
  {
    if d.day == DaysInMonth(d.year, d.month) {
      if d.month < 12 {
        DaysBeforeMonthStep(d.year, d.month);
      } else {
        DaysBeforeYearStep(d.year);
      }
    }
  }

  /** The elapsed day count is zero exactly when the two dates coincide. */
  lemma ElapsedZeroIffSameDay(today: Date, start: Date)
    requires ValidDate(today) && ValidDate(start)
    ensures Elapsed(today, start) == 0 <==> today == start
  {
    if Elapsed(today, start) == 0 {
      DayNumberInjective(today, start);
    }
  }

  /** The elapsed day count is negative exactly when `start` is after `today`. */
  lemma ElapsedNegativeIffFuture(today: Date, start: Date)
    requires ValidDate(today) && ValidDate(start)
    ensures Elapsed(today, start) < 0 <==> Before(today, start)
  {
    if Before(today, start) {
      DayNumberMonotone(today, start);
    } else if today != start {
      DayNumberMonotone(start, today);
    }
  }
}
