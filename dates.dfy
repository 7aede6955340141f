/**
 * Proleptic Gregorian calendar dates, as the chrono crate's `NaiveDate` provides them
 * to the calendar and date-picker demos: (year, month, day) triples, month lengths,
 * a day number counted from 0001-01-01, the successor of a day, adding whole days,
 * the ISO weekday numbered from Monday, and the chronological order.
 */
module Dates {

  datatype Date = Date(year: int, month: int, day: int)

  predicate IsLeapYear(y: int) {
    y % 4 == 0 && (y % 100 != 0 || y % 400 == 0)
  }

  function DaysInYear(y: int): (n: int)
    ensures n == 365 || n == 366
    ensures n == 366 <==> IsLeapYear(y)
  {
    if IsLeapYear(y) then 366 else 365
  }

  /** Length of month `m` of year `y`; February has 29 days exactly in leap years. */
  function DaysInMonth(y: int, m: int): (n: int)
    requires 1 <= m <= 12
    ensures 28 <= n <= 31
    ensures m == 2 ==> (n == 29 <==> IsLeapYear(y))
    ensures m != 2 ==> (n == 30 <==> m in {4, 6, 9, 11})
  {
    if m == 2 then (if IsLeapYear(y) then 29 else 28)
    else if m == 4 || m == 6 || m == 9 || m == 11 then 30
    else 31
  }

  /** A date that exists on the calendar. */
  predicate Valid(d: Date) {
    1 <= d.month <= 12 && 1 <= d.day <= DaysInMonth(d.year, d.month)
  }

  /** Number of days in year `y` before the first day of month `m` (m = 13 means the whole year). */
  function DaysBeforeMonth(y: int, m: int): int
    requires 1 <= m <= 13
    decreases m
  {
    if m == 1 then 0 else DaysBeforeMonth(y, m - 1) + DaysInMonth(y, m - 1)
  }

  /** Number of days from 0001-01-01 to the first day of year `y` (negative before year 1). */
  function DaysBeforeYear(y: int): int {
    365 * (y - 1) + LeapDaysThrough(y - 1)
  }

  /** Number of leap years among years 1 to `p` (negated, counting back, for `p` below 0). */
  function LeapDaysThrough(p: int): int {
    p / 4 - p / 100 + p / 400
  }

  /** Days elapsed since 0001-01-01, which is day 0. */
  function DayNumber(d: Date): int
    requires 1 <= d.month <= 12
  {
    DaysBeforeYear(d.year) + DaysBeforeMonth(d.year, d.month) + d.day - 1
  }

  /** ISO weekday numbered from Monday: Monday is 1, Sunday is 7 (chrono's `number_from_monday`). */
  function Weekday(d: Date): (w: int)
    requires 1 <= d.month <= 12
    ensures 1 <= w <= 7
  {
    DayNumber(d) % 7 + 1
  }

  /** The day after `d`. */
  function NextDay(d: Date): (e: Date)
    requires Valid(d)
    ensures Valid(e)
  {
    if d.day < DaysInMonth(d.year, d.month) then Date(d.year, d.month, d.day + 1)
    else if d.month < 12 then Date(d.year, d.month + 1, 1)
    else Date(d.year + 1, 1, 1)
  }

  /** `d` plus `n` days (chrono's `checked_add_days` / `+ Duration::days`, without its year limit). */
  function AddDays(d: Date, n: nat): (e: Date)
    requires Valid(d)
    ensures Valid(e)
    decreases n
  {
    if n == 0 then d else AddDays(NextDay(d), n - 1)
  }

  /** Chronological order, as `NaiveDate`'s `<`: lexicographic on (year, month, day). */
  predicate Before(a: Date, b: Date): (r: bool)
    ensures r ==> a != b && a.year <= b.year
  {
    a.year < b.year
    || (a.year == b.year && a.month < b.month)
    || (a.year == b.year && a.month == b.month && a.day < b.day)
  }

  // ---------------------------------------------------------------------------
  // Lemmas

  /**
   * The whole month-length table: February has 29 days in leap years and 28 otherwise, April,
   * June, September and November 30, and the other seven months 31.
   */
  lemma DaysInMonthExact(y: int, m: int)
    requires 1 <= m <= 12
    ensures m == 2 ==> DaysInMonth(y, m) == (if IsLeapYear(y) then 29 else 28)
    ensures m in {4, 6, 9, 11} ==> DaysInMonth(y, m) == 30
    ensures m in {1, 3, 5, 7, 8, 10, 12} ==> DaysInMonth(y, m) == 31
  {
  }

  lemma DaysBeforeMonthWholeYear(y: int)
    ensures DaysBeforeMonth(y, 13) == DaysInYear(y)
  {
  }

  lemma {:induction false} DaysBeforeMonthStrict(y: int, m: int, k: int)
    requires 1 <= m < k <= 13
    ensures DaysBeforeMonth(y, m) + DaysInMonth(y, m) <= DaysBeforeMonth(y, k)
    decreases k - m
  {
    if k > m + 1 {
      DaysBeforeMonthStrict(y, m, k - 1);
    }
  }

  /** Floor division by 4, 100 and 400 steps up by one exactly at multiples. */
  lemma DivStep4(y: int)
    ensures y / 4 - (y - 1) / 4 == (if y % 4 == 0 then 1 else 0)
  {
    var a := (y - 1) / 4;
    assert y - 1 == 4 * a + (y - 1) % 4;
    if (y - 1) % 4 == 3 { assert y == 4 * (a + 1); } else { assert y == 4 * a + ((y - 1) % 4 + 1); }
  }

  lemma DivStep100(y: int)
    ensures y / 100 - (y - 1) / 100 == (if y % 100 == 0 then 1 else 0)
  {
    var a := (y - 1) / 100;
    assert y - 1 == 100 * a + (y - 1) % 100;
    if (y - 1) % 100 == 99 { assert y == 100 * (a + 1); } else { assert y == 100 * a + ((y - 1) % 100 + 1); }
  }

  lemma DivStep400(y: int)
    ensures y / 400 - (y - 1) / 400 == (if y % 400 == 0 then 1 else 0)
  {
    var a := (y - 1) / 400;
    assert y - 1 == 400 * a + (y - 1) % 400;
    if (y - 1) % 400 == 399 { assert y == 400 * (a + 1); } else { assert y == 400 * a + ((y - 1) % 400 + 1); }
  }

  lemma Mod100Mod4(y: int)
    ensures y % 100 == 0 ==> y % 4 == 0
  {
    if y % 100 == 0 {
      var k := y / 100;
      assert y == 4 * (25 * k);
    }
  }

  lemma Mod400Mod100(y: int)
    ensures y % 400 == 0 ==> y % 100 == 0
  {
    if y % 400 == 0 {
      var k := y / 400;
      assert y == 100 * (4 * k);
    }
  }

  /** Year `y` adds one leap day to the count exactly when it is a leap year. */
  lemma LeapDaysStep(y: int)
    ensures LeapDaysThrough(y) == LeapDaysThrough(y - 1) + (if IsLeapYear(y) then 1 else 0)
  {
    DivStep4(y);
    DivStep100(y);
    DivStep400(y);
    Mod100Mod4(y);
    Mod400Mod100(y);
    var b4, b100, b400 := y % 4 == 0, y % 100 == 0, y % 400 == 0;
    assert IsLeapYear(y) == (b4 && (!b100 || b400));
    assert LeapDaysThrough(y) - LeapDaysThrough(y - 1)
        == (if b4 then 1 else 0) - (if b100 then 1 else 0) + (if b400 then 1 else 0);
  }

  /** A year's span of day numbers has the length of the year. */
  lemma DaysBeforeNextYear(y: int)
    ensures DaysBeforeYear(y + 1) == DaysBeforeYear(y) + DaysInYear(y)
  {
    LeapDaysStep(y);
    assert DaysBeforeYear(y + 1) == 365 * y + LeapDaysThrough(y);
  }

  lemma {:induction false} DaysBeforeYearMonotone(y: int, z: int)
    requires y < z
    ensures DaysBeforeYear(y) + DaysInYear(y) <= DaysBeforeYear(z)
    decreases z - y
  {
    DaysBeforeNextYear(y);
    if y + 1 < z {
      DaysBeforeYearMonotone(y + 1, z);
    }
  }

  /** The day number of a valid date lies within its year's span of day numbers. */
  lemma DayNumberInYear(d: Date)
    requires Valid(d)
    ensures DaysBeforeYear(d.year) <= DayNumber(d) < DaysBeforeYear(d.year) + DaysInYear(d.year)
  {
    DaysBeforeMonthStrict(d.year, d.month, 13);
    DaysBeforeMonthWholeYear(d.year);
  }

  /** The day after `d` has the next day number. */
  lemma NextDayNumber(d: Date)
    requires Valid(d)
    ensures DayNumber(NextDay(d)) == DayNumber(d) + 1
  {
    if d.day == DaysInMonth(d.year, d.month) && d.month == 12 {
      DaysBeforeNextYear(d.year);
      DaysBeforeMonthWholeYear(d.year);
    }
  }

  /** Adding `n` days adds `n` to the day number. */
  lemma {:induction false} AddDaysNumber(d: Date, n: nat)
    requires Valid(d)
    ensures DayNumber(AddDays(d, n)) == DayNumber(d) + n
    decreases n
  {
    if n > 0 {
      NextDayNumber(d);
      AddDaysNumber(NextDay(d), n - 1);
    }
  }

  /** Adding days in two steps is adding their sum. */
  lemma {:induction false} AddDaysAdd(d: Date, m: nat, n: nat)
    requires Valid(d)
    ensures AddDays(AddDays(d, m), n) == AddDays(d, m + n)
    decreases m
  {
    if m > 0 {
      AddDaysAdd(NextDay(d), m - 1, n);
    }
  }

  /** The chronological order on valid dates is the order of their day numbers. */
  lemma BeforeIsDayOrder(a: Date, b: Date)
    requires Valid(a) && Valid(b)
    ensures Before(a, b) <==> DayNumber(a) < DayNumber(b)
  {
    DayNumberInYear(a);
    DayNumberInYear(b);
    if a.year < b.year {
      DaysBeforeYearMonotone(a.year, b.year);
    } else if b.year < a.year {
      DaysBeforeYearMonotone(b.year, a.year);
    } else if a.month < b.month {
      DaysBeforeMonthStrict(a.year, a.month, b.month);
    } else if b.month < a.month {
      DaysBeforeMonthStrict(b.year, b.month, a.month);
    }
  }

  /** Distinct valid dates have distinct day numbers. */
  lemma DayNumberInjective(a: Date, b: Date)
    requires Valid(a) && Valid(b)
    requires DayNumber(a) == DayNumber(b)
    ensures a == b
  {
    BeforeIsDayOrder(a, b);
    BeforeIsDayOrder(b, a);
  }

  /** Residues modulo 7 add. */
  lemma Mod7Add(a: int, n: nat)
    ensures (a + n) % 7 == (a % 7 + n) % 7
  {
    var q := a / 7;
    assert a == 7 * q + a % 7;
    assert a + n == 7 * q + (a % 7 + n);
    var r := (a % 7 + n) / 7;
    assert a % 7 + n == 7 * r + (a % 7 + n) % 7;
    assert a + n == 7 * (q + r) + (a % 7 + n) % 7;
  }

  /** Adding different numbers of days gives different dates. */
  lemma AddDaysDistinct(d: Date, i: nat, j: nat)
    requires Valid(d) && i != j
    ensures AddDays(d, i) != AddDays(d, j)
  {
    AddDaysNumber(d, i);
    AddDaysNumber(d, j);
  }

  /** The weekday advances by one, cyclically, from one day to the next. */
  lemma NextDayWeekday(d: Date)
    requires Valid(d)
    ensures Weekday(NextDay(d)) == Weekday(d) % 7 + 1
  {
    NextDayNumber(d);
    Mod7Add(DayNumber(d), 1);
  }

  /** The weekday `n` days after weekday `w`. */
  function WeekdayAfter(w: int, n: int): int {
    (w - 1 + n) % 7 + 1
  }

  /** The weekday `n` days later. */
  lemma AddDaysWeekday(d: Date, n: nat)
    requires Valid(d)
    ensures Weekday(AddDays(d, n)) == WeekdayAfter(Weekday(d), n)
  {
    AddDaysNumber(d, n);
    Mod7Add(DayNumber(d), n);
  }

  /** 2024-01-01 was a Monday, which fixes the weekday numbering. */
  lemma NewYear2024IsMonday()
    ensures Weekday(Date(2024, 1, 1)) == 1
  {
  }
}
