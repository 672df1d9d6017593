/** The proleptic Gregorian calendar as numpy's datetime64 and Python's
    datetime use it: leap years, day-of-year, and day numbers counted from
    1970-01-01 (numpy's epoch). Years are unbounded integers. */
module Calendar {

  const SecondsPerDay: int := 86400
  const SecondsPerHour: int := 3600
  const EpochYear: int := 1970

  /** The Gregorian leap-year rule, written as the scripts write it:
      `y % 4 == 0 and (y % 100 != 0 or y % 400 == 0)`. */
  predicate IsLeap(y: int) {
    y % 4 == 0 && (y % 100 != 0 || y % 400 == 0)
  }

  function DaysInYear(y: int): (n: int)
    ensures n == 365 || n == 366
    ensures n == 366 <==> IsLeap(y)
  {
    if IsLeap(y) then 366 else 365
  }

  function DaysInMonth(y: int, m: int): (n: int)
    requires 1 <= m <= 12
    ensures 28 <= n <= 31
  {
    if m == 2 then (if IsLeap(y) then 29 else 28)
    else if m == 4 || m == 6 || m == 9 || m == 11 then 30
    else 31
  }

  /** Number of days of year `y` before the first of month `m`. */
  function DaysBeforeMonth(y: int, m: int): (n: int)
    requires 1 <= m <= 12
    ensures 0 <= n <= 335
  {
    [0, 31, 59, 90, 120, 151, 181, 212, 243, 273, 304, 334][m - 1]
      + (if m > 2 && IsLeap(y) then 1 else 0)
  }

  lemma DaysBeforeNextMonth(y: int, m: int)
    requires 1 <= m < 12
    ensures DaysBeforeMonth(y, m + 1) == DaysBeforeMonth(y, m) + DaysInMonth(y, m)
  {
  }

  lemma DaysBeforeDecember(y: int)
    ensures DaysBeforeMonth(y, 12) + DaysInMonth(y, 12) == DaysInYear(y)
  {
  }

  datatype Date = Date(year: int, month: int, day: int)

  predicate ValidDate(d: Date) {
    1 <= d.month <= 12 && 1 <= d.day <= DaysInMonth(d.year, d.month)
  }

  /** 1-based day-of-year (`Date.dayofyear`, `%j`). */
  function DayOfYear(d: Date): (n: int)
    requires ValidDate(d)
    ensures 1 <= n <= DaysInYear(d.year)
  {
    DayOfYearInRange(d);
    DaysBeforeMonth(d.year, d.month) + d.day
  }

  lemma DayOfYearInRange(d: Date)
    requires ValidDate(d)
    ensures 1 <= DaysBeforeMonth(d.year, d.month) + d.day <= DaysInYear(d.year)
  {
    DaysBeforeDecember(d.year);
    if d.month < 12 {
      DaysBeforeNextMonth(d.year, d.month);
      MonthsMonotone(d.year, d.month + 1, 12);
    }
  }

  /** Walks the months of year `y` from month `m`, `n` days into month `m`. */
  function MonthWalk(y: int, m: int, n: int): (d: Date)
    requires 1 <= m <= 12 && 1 <= n
    requires n <= DaysInYear(y) - DaysBeforeMonth(y, m)
    ensures ValidDate(d) && d.year == y && m <= d.month
    ensures DaysBeforeMonth(y, d.month) + d.day == DaysBeforeMonth(y, m) + n
    decreases 12 - m
  {
    if m == 12 then DaysBeforeDecember(y); Date(y, 12, n)
    else if n <= DaysInMonth(y, m) then Date(y, m, n)
    else
      DaysBeforeNextMonth(y, m);
      MonthWalk(y, m + 1, n - DaysInMonth(y, m))
  }

  /** The date whose day-of-year in `y` is `n` (`strptime("%Y %j")` for a
      day that exists in `y`). */
  function FromDayOfYear(y: int, n: int): (d: Date)
    requires 1 <= n <= DaysInYear(y)
    ensures ValidDate(d) && d.year == y && DayOfYear(d) == n
  {
    MonthWalk(y, 1, n)
  }

  lemma {:induction false} MonthWalkOfDay(y: int, m: int, d: Date)
    requires ValidDate(d) && d.year == y && 1 <= m <= d.month
    ensures DaysBeforeMonth(y, d.month) + d.day - DaysBeforeMonth(y, m) <= DaysInYear(y) - DaysBeforeMonth(y, m)
    ensures MonthWalk(y, m, DaysBeforeMonth(y, d.month) + d.day - DaysBeforeMonth(y, m)) == d
    decreases 12 - m
  {
    var n := DaysBeforeMonth(y, d.month) + d.day - DaysBeforeMonth(y, m);
    assert DayOfYear(d) == DaysBeforeMonth(y, d.month) + d.day;
    if m == d.month {
    } else {
      DaysBeforeNextMonth(y, m);
      assert DaysBeforeMonth(y, m + 1) <= DaysBeforeMonth(y, d.month) by {
        MonthsMonotone(y, m + 1, d.month);
      }
      assert n > DaysInMonth(y, m);
      MonthWalkOfDay(y, m + 1, d);
    }
  }

  lemma {:induction false} MonthsMonotone(y: int, m1: int, m2: int)
    requires 1 <= m1 <= m2 <= 12
    ensures DaysBeforeMonth(y, m1) <= DaysBeforeMonth(y, m2)
    decreases m2 - m1
  {
    if m1 < m2 {
      DaysBeforeNextMonth(y, m1);
      MonthsMonotone(y, m1 + 1, m2);
    }
  }

  /** Day-of-year determines the date within a year. */
  lemma FromDayOfYearOfDate(d: Date)
    requires ValidDate(d)
    ensures FromDayOfYear(d.year, DayOfYear(d)) == d
  {
    MonthWalkOfDay(d.year, 1, d);
  }

  /** The date `k` days after January 1 of year `y` (numpy
      `datetime64("y-01-01") + timedelta64(k)`); `k` may be negative. */
  function JanFirstPlus(y: int, k: int): (d: Date)
    ensures ValidDate(d)
    decreases if k < 0 then 367 - k else k
  {
    if 0 <= k < DaysInYear(y) then FromDayOfYear(y, k + 1)
    else if k >= DaysInYear(y) then JanFirstPlus(y + 1, k - DaysInYear(y))
    else JanFirstPlus(y - 1, k + DaysInYear(y - 1))
  }

  /** Day number of January 1 of year `y`, counted from 1970-01-01. */
  function YearStart(y: int): int
    decreases if y >= EpochYear then y - EpochYear else EpochYear - y
  {
    if y == EpochYear then 0
    else if y > EpochYear then YearStart(y - 1) + DaysInYear(y - 1)
    else YearStart(y + 1) - DaysInYear(y)
  }

  lemma {:induction false} YearStartStep(y: int)
    ensures YearStart(y + 1) == YearStart(y) + DaysInYear(y)
  {
  }

  lemma {:induction false} YearStartMonotone(y1: int, y2: int)
    requires y1 < y2
    ensures YearStart(y1) + DaysInYear(y1) <= YearStart(y2)
    decreases y2 - y1
  {
    YearStartStep(y1);
    if y1 + 1 < y2 {
      YearStartMonotone(y1 + 1, y2);
    }
  }

  /** The days since 1970-01-01 of a date (negative before the epoch). */
  function DayNumber(d: Date): int
    requires ValidDate(d)
  {
    YearStart(d.year) + DayOfYear(d) - 1
  }

  /** The date of a day number. */
  function DateOf(n: int): (d: Date)
    ensures ValidDate(d)
  {
    JanFirstPlus(EpochYear, n)
  }

  lemma {:induction false} JanFirstPlusNumber(y: int, k: int)
    ensures DayNumber(JanFirstPlus(y, k)) == YearStart(y) + k
    decreases if k < 0 then 367 - k else k
  {
    if 0 <= k < DaysInYear(y) {
    } else if k >= DaysInYear(y) {
      YearStartStep(y);
      JanFirstPlusNumber(y + 1, k - DaysInYear(y));
    } else {
      YearStartStep(y - 1);
      JanFirstPlusNumber(y - 1, k + DaysInYear(y - 1));
    }
  }

  /** Different valid dates have different day numbers. */
  lemma DayNumberInjective(d1: Date, d2: Date)
    requires ValidDate(d1) && ValidDate(d2)
    requires DayNumber(d1) == DayNumber(d2)
    ensures d1 == d2
  {
    if d1.year < d2.year {
      YearStartMonotone(d1.year, d2.year);
      assert false;
    } else if d2.year < d1.year {
      YearStartMonotone(d2.year, d1.year);
      assert false;
    } else {
      FromDayOfYearOfDate(d1);
      FromDayOfYearOfDate(d2);
    }
  }

  /** `DateOf` and `DayNumber` are inverse. */
  lemma DateOfDayNumber(d: Date)
    requires ValidDate(d)
    ensures DateOf(DayNumber(d)) == d
  {
    JanFirstPlusNumber(EpochYear, DayNumber(d));
    DayNumberInjective(DateOf(DayNumber(d)), d);
  }

  lemma DayNumberOfDateOf(n: int)
    ensures DayNumber(DateOf(n)) == n
  {
    JanFirstPlusNumber(EpochYear, n);
  }

  /** January 1 of `y` plus `k` days is the day `YearStart(y) + k`. */
  lemma JanFirstPlusIsDateOf(y: int, k: int)
    ensures JanFirstPlus(y, k) == DateOf(YearStart(y) + k)
  {
    var n := YearStart(y) + k;
    var d1 := JanFirstPlus(y, k);
    var d2 := DateOf(n);
    JanFirstPlusNumber(y, k);
    DayNumberOfDateOf(n);
    assert DayNumber(d1) == n == DayNumber(d2);
    DayNumberInjective(d1, d2);
  }

  /** The calendar day of a timestamp in seconds since the epoch. */
  function DayOfTimestamp(t: int): int {
    t / SecondsPerDay
  }

  /** The last second of day `n` (`"...T23:59:59"`). */
  function EndOfDay(n: int): (t: int)
    ensures DayOfTimestamp(t) == n
  {
    n * SecondsPerDay + SecondsPerDay - 1
  }
  /** Chronological order of dates (`<` on datetime64 days). */
  predicate Before(a: Date, b: Date) {
    a.year < b.year || (a.year == b.year && (a.month < b.month || (a.month == b.month && a.day < b.day)))
  }

  /** `Before` agrees with the order of day numbers. */
  lemma BeforeIsDayOrder(a: Date, b: Date)
    requires ValidDate(a) && ValidDate(b)
    ensures Before(a, b) <==> DayNumber(a) < DayNumber(b)
  {
    if a.year < b.year {
      YearStartMonotone(a.year, b.year);
    } else if b.year < a.year {
      YearStartMonotone(b.year, a.year);
    } else if a.month < b.month {
      MonthsMonotone(a.year, a.month + 1, b.month);
      DaysBeforeNextMonth(a.year, a.month);
    } else if b.month < a.month {
      MonthsMonotone(a.year, b.month + 1, a.month);
      DaysBeforeNextMonth(a.year, b.month);
    }
  }
}
