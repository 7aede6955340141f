/**
 * The date logic of the calendar demo (`CalendarComponent`): the custom disabled-date
 * matchers of its demos, the holiday and availability sets, and the initial selection of
 * the date-range calendar. "Today" is a parameter.
 */
module Calendar {
  import opened Wrappers
  import opened Dates
  import opened Matchers

  /** The holiday calendar's set: New Year, Independence Day and Christmas of 2024. */
  function Holidays(): set<Date> {
    {Date(2024, 1, 1), Date(2024, 7, 4), Date(2024, 12, 25)}
  }

  /** The availability calendar's unavailable days: two, five and ten days after today. */
  function Unavailable(today: Date): set<Date>
    requires Valid(today)
  {
    {AddDays(today, 2), AddDays(today, 5), AddDays(today, 10)}
  }

  /** The three calendars of "Custom Disabled Dates": first five days, Mondays, past dates. */
  const CustomDisabledDates: seq<Rule> := [FirstFiveDays, Mondays, PastDates]

  /** "Business Days Only Calendar". */
  const BusinessDaysOnly: Rule := Weekends

  /** "Holiday Calendar". */
  function HolidayCalendar(): Rule {
    InSet(Holidays())
  }

  /** "Event Planning Calendar": past dates and weekends. */
  const EventPlanning: Rule := PastOrWeekend

  /** "Availability Calendar". */
  function AvailabilityCalendar(today: Date): Rule
    requires Valid(today)
  {
    InSet(Unavailable(today))
  }

  /**
   * The date-range calendar starts with `Date::Range(Some(today), today.checked_add_days(7))`.
   * Both ends are optional in the source; with no upper year limit the addition always yields
   * a date, which is a week after today.
   */
  function DateRangeInitial(today: Date): (range: (Option<Date>, Option<Date>))
    requires Valid(today)
    ensures range.0 == Some(today) && range.1.Some? && Valid(range.1.value)
    ensures DayNumber(range.1.value) == DayNumber(today) + 7
    ensures Before(today, range.1.value)
  {
    AddDaysNumber(today, 7);
    BeforeIsDayOrder(today, AddDays(today, 7));
    (Some(today), Some(AddDays(today, 7)))
  }

  /** The custom-disabled-dates calendars disable days 1 to 5, Mondays, and days before today. */
  lemma CustomDisabledDatesExact(today: Date, d: Date)
    requires Valid(today) && Valid(d)
    ensures |CustomDisabledDates| == 3
    ensures Disables(CustomDisabledDates[0], today, d) <==> 1 <= d.day <= 5
    ensures Disables(CustomDisabledDates[1], today, d) <==> Weekday(d) == 1
    ensures Disables(CustomDisabledDates[2], today, d) <==> DayNumber(d) < DayNumber(today)
  {
    PastDatesExact(today, d);
  }

  /** The business-days calendar disables exactly Saturdays and Sundays. */
  lemma BusinessDaysOnlyExact(today: Date, d: Date)
    requires Valid(d)
    ensures Disables(BusinessDaysOnly, today, d) <==> Weekday(d) >= 6
  {
  }

  /** The holiday calendar disables exactly the three holidays, which are real dates. */
  lemma HolidayCalendarExact(today: Date, d: Date)
    requires Valid(d)
    ensures Disables(HolidayCalendar(), today, d) <==> d == Date(2024, 1, 1) || d == Date(2024, 7, 4) || d == Date(2024, 12, 25)
    ensures |Holidays()| == 3
    ensures forall h | h in Holidays() :: Valid(h)
  {
  }

  /** Independence Day 2024 fell on a Thursday. */
  lemma IndependenceDayWeekday()
    ensures Weekday(Date(2024, 7, 4)) == 4
  {
    assert DaysBeforeMonth(2024, 7) == 182;
    DaysInto2024(Date(2024, 7, 4), 185);
  }

  /** Christmas 2024 fell on a Wednesday. */
  lemma ChristmasWeekday()
    ensures Weekday(Date(2024, 12, 25)) == 3
  {
    assert DaysBeforeMonth(2024, 12) == 335;
    DaysInto2024(Date(2024, 12, 25), 359);
  }

  lemma DaysInto2024(d: Date, n: nat)
    requires Valid(d) && d.year == 2024
    requires DaysBeforeMonth(2024, d.month) + d.day - 1 == n
    ensures Weekday(d) == n % 7 + 1
  {
    assert LeapDaysThrough(2023) == 490;
    assert DaysBeforeYear(2024) == 7 * 105555;
    assert DayNumber(d) == 7 * 105555 + n;
  }

  /** The event-planning calendar leaves enabled exactly the weekdays from today on. */
  lemma EventPlanningExact(today: Date, d: Date)
    requires Valid(today) && Valid(d)
    ensures Disables(EventPlanning, today, d) <==> DayNumber(d) < DayNumber(today) || Weekday(d) >= 6
  {
    PastOrWeekendExact(today, d);
  }

  /** The three unavailable days are distinct and none of them is today. */
  lemma UnavailableDistinct(today: Date)
    requires Valid(today)
    ensures |Unavailable(today)| == 3
    ensures today !in Unavailable(today)
  {
    AddDaysDistinct(today, 2, 5);
    AddDaysDistinct(today, 5, 10);
    AddDaysDistinct(today, 2, 10);
    AddDaysDistinct(today, 0, 2);
    AddDaysDistinct(today, 0, 5);
    AddDaysDistinct(today, 0, 10);
    assert AddDays(today, 0) == today;
    CardThree(AddDays(today, 2), AddDays(today, 5), AddDays(today, 10));
  }

  lemma CardThree(a: Date, b: Date, c: Date)
    requires a != b && b != c && a != c
    ensures |{a, b, c}| == 3
  {
    assert |{a, b}| == 2;
    assert {a, b, c} == {a, b} + {c};
  }

  /**
   * The availability calendar disables exactly the days two, five and ten days after today:
   * three distinct days, none of them today.
   */
  lemma AvailabilityCalendarExact(today: Date, d: Date)
    requires Valid(today) && Valid(d)
    ensures Disables(AvailabilityCalendar(today), today, d) <==> DayNumber(d) - DayNumber(today) in {2, 5, 10}
    ensures |Unavailable(today)| == 3
    ensures !Disables(AvailabilityCalendar(today), today, today)
  {
    assert Disables(AvailabilityCalendar(today), today, d) <==> d in Unavailable(today);
    assert Disables(AvailabilityCalendar(today), today, today) <==> today in Unavailable(today);
    AddDaysNumber(today, 2);
    AddDaysNumber(today, 5);
    AddDaysNumber(today, 10);
    if DayNumber(d) == DayNumber(today) + 2 { DayNumberInjective(d, AddDays(today, 2)); }
    if DayNumber(d) == DayNumber(today) + 5 { DayNumberInjective(d, AddDays(today, 5)); }
    if DayNumber(d) == DayNumber(today) + 10 { DayNumberInjective(d, AddDays(today, 10)); }
    UnavailableDistinct(today);
  }
}
