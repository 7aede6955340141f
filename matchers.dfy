/**
 * The custom disabled-date predicates that the calendar and date-picker demos hand to
 * `Matcher::custom`. Each closure is one constructor of `Rule`; `Disables` is what the
 * closure returns for a date, with "today" (a clock read in the source) as a parameter.
 */
module Matchers {
  import opened Dates

  datatype Rule =
    | FirstFiveDays            // `date.day0() < 5`
    | Mondays                  // `date.weekday() == Weekday::Mon`
    | PastDates                // `*date < today`
    | Weekends                 // `matches!(date.weekday(), Weekday::Sat | Weekday::Sun)`
    | PastOrWeekend            // `*date < today || matches!(date.weekday(), Sat | Sun)`
    | InSet(dates: set<Date>)  // `set.contains(date)` over a `HashSet<NaiveDate>`

  /** chrono's `day0`: the day of the month counted from zero. */
  function Day0(d: Date): int {
    d.day - 1
  }

  predicate IsWeekend(d: Date)
    requires Valid(d)
  {
    Weekday(d) == 6 || Weekday(d) == 7
  }

  /** On valid dates, `Before` is the order of day numbers. */
  lemma DayOrderIfValid(a: Date, b: Date)
    requires Valid(a)
    ensures Valid(b) ==> (Before(a, b) <==> DayNumber(a) < DayNumber(b))
  {
    if Valid(b) {
      BeforeIsDayOrder(a, b);
    }
  }

  /**
   * Whether `rule` disables the date `d` when the clock reads `today`. The first-five rule
   * disables days 1 to 5; on a valid `today` the past-date rules disable exactly the days with a
   * smaller day number, and the combined rule adds the weekend days to those.
   */
  predicate Disables(rule: Rule, today: Date, d: Date): (r: bool)
    requires Valid(d)
    ensures rule.FirstFiveDays? ==> (r <==> d.day <= 5)
    ensures Valid(today) && rule.PastDates? ==> (r <==> DayNumber(d) < DayNumber(today))
    ensures Valid(today) && rule.PastOrWeekend? ==> (r <==> DayNumber(d) < DayNumber(today) || IsWeekend(d))
  {
    DayOrderIfValid(d, today);
    match rule
    case FirstFiveDays => Day0(d) < 5
    case Mondays => Weekday(d) == 1
    case PastDates => Before(d, today)
    case Weekends => IsWeekend(d)
    case PastOrWeekend => Before(d, today) || IsWeekend(d)
    case InSet(dates) => d in dates
  }

  /** The first-five rule disables exactly days 1 to 5 of every month. */
  lemma FirstFiveDaysExact(today: Date, d: Date)
    requires Valid(d)
    ensures Disables(FirstFiveDays, today, d) <==> 1 <= d.day <= 5
  {
  }

  /** Of any seven consecutive days the Monday rule disables exactly one, the Monday among them. */
  lemma {:induction false} MondaysOncePerWeek(today: Date, d: Date, k: nat)
    requires Valid(d) && k < 7
    ensures Disables(Mondays, today, AddDays(d, k)) <==> k == (8 - Weekday(d)) % 7
  {
    AddDaysWeekday(d, k);
    ShiftHitsMonday(Weekday(d), k);
  }

  lemma ShiftHitsMonday(w: int, k: int)
    requires 1 <= w <= 7 && 0 <= k < 7
    ensures WeekdayAfter(w, k) == 1 <==> k == (8 - w) % 7
  {
  }

  lemma ShiftHitsWeekend(w: int, k: int)
    requires 1 <= w <= 7 && 0 <= k < 7
    ensures WeekdayAfter(w, k) >= 6 <==> k == (13 - w) % 7 || k == (14 - w) % 7
  {
  }

  /** Of any seven consecutive days the weekend rule disables exactly two, a Saturday and the Sunday after it. */
  lemma {:induction false} WeekendsTwicePerWeek(today: Date, d: Date, k: nat)
    requires Valid(d) && k < 7
    ensures Disables(Weekends, today, AddDays(d, k)) <==> k == (13 - Weekday(d)) % 7 || k == (14 - Weekday(d)) % 7
  {
    AddDaysWeekday(d, k);
    ShiftHitsWeekend(Weekday(d), k);
  }

  /** The past-date rule disables exactly the days strictly before today; today and every later day stay enabled. */
  lemma PastDatesExact(today: Date, d: Date)
    requires Valid(today) && Valid(d)
    ensures Disables(PastDates, today, d) <==> DayNumber(d) < DayNumber(today)
    ensures !Disables(PastDates, today, today)
  {
    BeforeIsDayOrder(d, today);
  }

  /** The past-date rule never disables today or a day after it. */
  lemma PastDatesSparesFuture(today: Date, n: nat)
    requires Valid(today)
    ensures !Disables(PastDates, today, AddDays(today, n))
  {
    AddDaysNumber(today, n);
    PastDatesExact(today, AddDays(today, n));
  }

  /**
   * The event-planning rule is the union of the past-date and weekend rules: what stays
   * enabled is exactly the Monday-to-Friday days from today on.
   */
  lemma PastOrWeekendExact(today: Date, d: Date)
    requires Valid(today) && Valid(d)
    ensures Disables(PastOrWeekend, today, d) <==> Disables(PastDates, today, d) || Disables(Weekends, today, d)
    ensures !Disables(PastOrWeekend, today, d) <==> DayNumber(today) <= DayNumber(d) && Weekday(d) <= 5
  {
    BeforeIsDayOrder(d, today);
  }
}
