/**
 * The date logic of the date-picker demo (`DatePickerComponentView`): quarter boundaries,
 * the quarterly and booking presets, and the custom disabled-date matchers of its pickers.
 * "Today" is a parameter.
 */
module DatePicker {
  import opened Dates
  import opened Matchers

  /** `DateRangePreset::range(label, start, end)`. */
  datatype Preset = Preset(name: string, start: Date, end: Date)

  /** Whether `d` lies in the preset's inclusive range. */
  predicate InPreset(p: Preset, d: Date) {
    !Before(d, p.start) && !Before(p.end, d)
  }

  /**
   * `quarter_start(year, quarter)`: the first day of the quarter's first month. The source
   * panics unless 1 <= quarter <= 4 (0 underflows the unsigned subtraction, 5 and above name
   * a month that does not exist and `unwrap` fails).
   */
  function QuarterStart(year: int, quarter: int): (d: Date)
    requires 1 <= quarter <= 4
    ensures Valid(d) && d.year == year && d.day == 1
    ensures d.month == 3 * quarter - 2
  {
    Date(year, (quarter - 1) * 3 + 1, 1)
  }

  /**
   * `quarter_end(year, quarter)`: the last day of the quarter's last month. The day after
   * it is the first day of the next quarter, or New Year's Day of the next year.
   */
  function QuarterEnd(year: int, quarter: int): (d: Date)
    requires 1 <= quarter <= 4
    ensures Valid(d) && d.year == year && d.month == 3 * quarter
    ensures NextDay(d) == if quarter < 4 then QuarterStart(year, quarter + 1) else Date(year + 1, 1, 1)
  {
    var month := quarter * 3;
    var start := Date(year, month, 1);
    Date(year, month, DaysInMonth(start.year, start.month))
  }

  /** `((month - 1) / 3) + 1`: the quarter a month belongs to. */
  function QuarterOfMonth(month: int): (q: int)
    requires 1 <= month <= 12
    ensures 1 <= q <= 4
    ensures 3 * q - 2 <= month <= 3 * q
  {
    (month - 1) / 3 + 1
  }

  /** `(5 - weekday.number_from_monday() + 7) % 7`: days from a weekday to the next Friday. */
  function DaysToWeekend(weekdayFromMonday: int): (n: int)
    requires 1 <= weekdayFromMonday <= 7
    ensures 0 <= n <= 6
    ensures (weekdayFromMonday + n) % 7 == 5
  {
    (5 - weekdayFromMonday + 7) % 7
  }

  /**
   * The "Q1" .. "Q4" presets of the quarter and financial-period pickers for `year`: four
   * presets, each from a valid date of `year` to a valid date of `year`.
   */
  function QuarterPresets(year: int): (r: seq<Preset>)
    ensures |r| == 4
    ensures forall i | 0 <= i < 4 :: Valid(r[i].start) && Valid(r[i].end) && r[i].start.year == year && r[i].end.year == year
  {
    [ Preset("Q1", QuarterStart(year, 1), QuarterEnd(year, 1)),
      Preset("Q2", QuarterStart(year, 2), QuarterEnd(year, 2)),
      Preset("Q3", QuarterStart(year, 3), QuarterEnd(year, 3)),
      Preset("Q4", QuarterStart(year, 4), QuarterEnd(year, 4)) ]
  }

  /**
   * The booking picker's presets "This Weekend", "Next Week" and "This Month", as the source
   * computes them: three presets between valid dates, the last one `ThisMonthAsWritten`.
   */
  function BookingPresets(today: Date): (r: seq<Preset>)
    requires Valid(today)
    ensures |r| == 3 && r[2] == ThisMonthAsWritten(today)
    ensures forall i | 0 <= i < 3 :: Valid(r[i].start) && Valid(r[i].end)
  {
    var daysToWeekend := DaysToWeekend(Weekday(today));
    var thisWeekendStart := if daysToWeekend == 0 then today else AddDays(today, daysToWeekend);
    var thisWeekendEnd := AddDays(thisWeekendStart, 1);
    var nextWeekStart := AddDays(thisWeekendEnd, 1);
    var nextWeekEnd := AddDays(nextWeekStart, 6);
    [ Preset("This Weekend", thisWeekendStart, thisWeekendEnd),
      Preset("Next Week", nextWeekStart, nextWeekEnd),
      ThisMonthAsWritten(today) ]
  }

  /**
   * The booking presets as evidently intended: the same weekend and next-week presets, and the
   * corrected "This Month" range.
   */
  function IntendedBookingPresets(today: Date): (r: seq<Preset>)
    requires Valid(today)
    ensures |r| == 3 && r[..2] == BookingPresets(today)[..2] && r[2] == ThisMonthRange(today)
  {
    BookingPresets(today)[..2] + [ThisMonthRange(today)]
  }

  /**
   * The "This Month" preset as the source computes it: from the first day of today's month to
   * the end of today's quarter.
   */
  function ThisMonthAsWritten(today: Date): (p: Preset)
    requires Valid(today)
    ensures p.name == "This Month" && Valid(p.start) && Valid(p.end)
    ensures p.start.year == today.year && p.start.month == today.month && p.start.day == 1
  {
    var thisMonthStart := Date(today.year, today.month, 1);
    var thisMonthEnd := QuarterEnd(today.year, (today.month - 1) / 3 + 1);
    Preset("This Month", thisMonthStart, thisMonthEnd)
  }

  /** The "This Month" range as evidently intended: the first to the last day of today's month. */
  function ThisMonthRange(today: Date): (p: Preset)
    requires Valid(today)
    ensures p.name == "This Month" && Valid(p.start) && Valid(p.end)
    ensures forall d | Valid(d) :: InPreset(p, d) <==> d.year == today.year && d.month == today.month
  {
    Preset("This Month", Date(today.year, today.month, 1),
           Date(today.year, today.month, DaysInMonth(today.year, today.month)))
  }

  /**
   * The range picker's initial selection `(now, now.checked_add_days(7).unwrap())`: from today
   * to the valid date a week later, in order.
   */
  function InitialRange(today: Date): (r: (Date, Date))
    requires Valid(today)
    ensures r.0 == today && Valid(r.1)
    ensures DayNumber(r.1) == DayNumber(today) + 7
    ensures Before(r.0, r.1)
  {
    AddDaysNumber(today, 7);
    BeforeIsDayOrder(today, AddDays(today, 7));
    (today, AddDays(today, 7))
  }

  /** The pickers of "Custom Disabled Dates": first five days of the month, and Mondays. */
  const CustomDisabledPickers: seq<Rule> := [FirstFiveDays, Mondays]

  /** "Business Days Only". */
  const BusinessDaysPicker: Rule := Weekends

  /** The event date picker, which disables past dates. */
  const EventDatePicker: Rule := PastDates

  // ---------------------------------------------------------------------------
  // Quarters

  /** The last days of the four quarters are March 31, June 30, September 30 and December 31. */
  lemma QuarterEndDates(year: int)
    ensures QuarterEnd(year, 1) == Date(year, 3, 31)
    ensures QuarterEnd(year, 2) == Date(year, 6, 30)
    ensures QuarterEnd(year, 3) == Date(year, 9, 30)
    ensures QuarterEnd(year, 4) == Date(year, 12, 31)
  {
  }

  /** A date of `year` lies in quarter `q`'s range exactly when its month belongs to quarter `q`. */
  lemma QuarterRangeExact(year: int, q: int, d: Date)
    requires 1 <= q <= 4 && Valid(d) && d.year == year
    ensures !Before(d, QuarterStart(year, q)) && !Before(QuarterEnd(year, q), d) <==> QuarterOfMonth(d.month) == q
  {
  }

  /** Each quarter's start is no later than its end. */
  lemma QuarterStartBeforeEnd(year: int, q: int)
    requires 1 <= q <= 4
    ensures Before(QuarterStart(year, q), QuarterEnd(year, q))
  {
  }

  /**
   * The four quarterly presets tile the year: Q1 starts on January 1, Q4 ends on December 31,
   * each preset starts the day after the previous one ends, and every date of the year lies in
   * exactly one of them, while no date of another year lies in any.
   */
  lemma QuarterPresetsTile(year: int, d: Date)
    requires Valid(d)
    ensures |QuarterPresets(year)| == 4
    ensures QuarterPresets(year)[0].start == Date(year, 1, 1)
    ensures QuarterPresets(year)[3].end == Date(year, 12, 31)
    ensures forall i | 0 <= i < 3 :: NextDay(QuarterPresets(year)[i].end) == QuarterPresets(year)[i + 1].start
    ensures forall i | 0 <= i < 4 :: InPreset(QuarterPresets(year)[i], d) <==> d.year == year && i == QuarterOfMonth(d.month) - 1
  {
    var ps := QuarterPresets(year);
    forall i | 0 <= i < 4
      ensures InPreset(ps[i], d) <==> d.year == year && i == QuarterOfMonth(d.month) - 1
    {
      if d.year == year {
        QuarterRangeExact(year, i + 1, d);
      }
    }
  }

  // ---------------------------------------------------------------------------
  // Booking presets

  /**
   * "This Weekend" starts on the first Friday on or after today (today itself when today is a
   * Friday) and ends on the Saturday after it.
   */
  lemma ThisWeekendPreset(today: Date)
    requires Valid(today)
    ensures var p := BookingPresets(today)[0];
      && p.name == "This Weekend"
      && Weekday(p.start) == 5
      && 0 <= DayNumber(p.start) - DayNumber(today) <= 6
      && (forall k: nat | k < DayNumber(p.start) - DayNumber(today) :: Weekday(AddDays(today, k)) != 5)
      && Weekday(p.end) == 6
      && DayNumber(p.end) == DayNumber(p.start) + 1
  {
    var w := Weekday(today);
    var n := DaysToWeekend(w);
    var start := BookingPresets(today)[0].start;
    assert start == AddDays(today, n);
    AddDaysNumber(today, n);
    AddDaysWeekday(today, n);
    FridayShift(w);
    AddDaysNumber(start, 1);
    AddDaysWeekday(start, 1);
    forall k: nat | k < n
      ensures Weekday(AddDays(today, k)) != 5
    {
      AddDaysWeekday(today, k);
    }
  }

  /** From weekday `w`, `DaysToWeekend(w)` days reach a Friday and no fewer do. */
  lemma FridayShift(w: int)
    requires 1 <= w <= 7
    ensures WeekdayAfter(w, DaysToWeekend(w)) == 5
    ensures forall k: int | 0 <= k < DaysToWeekend(w) :: WeekdayAfter(w, k) != 5
  {
  }

  /**
   * "Next Week" starts two days after "This Weekend" starts, on a Sunday, and ends six days
   * later, on a Saturday: seven days in all.
   */
  lemma NextWeekPreset(today: Date)
    requires Valid(today)
    ensures var w := BookingPresets(today)[0];
      var p := BookingPresets(today)[1];
      && p.name == "Next Week"
      && p.start == AddDays(w.start, 2)
      && p.end == AddDays(w.start, 8)
      && DayNumber(p.end) - DayNumber(p.start) + 1 == 7
      && Weekday(p.start) == 7
      && Weekday(p.end) == 6
  {
    var w := BookingPresets(today)[0];
    var p := BookingPresets(today)[1];
    ThisWeekendPreset(today);
    AddDaysAdd(w.start, 1, 1);
    AddDaysAdd(w.start, 2, 6);
    AddDaysNumber(w.start, 2);
    AddDaysNumber(w.start, 8);
    AddDaysWeekday(w.start, 2);
    AddDaysWeekday(w.start, 8);
  }

  /**
   * "This Month", as written, runs from the first day of today's month to the last day of
   * today's quarter; today lies in it.
   */
  lemma ThisMonthAsWrittenPreset(today: Date)
    requires Valid(today)
    ensures var p := ThisMonthAsWritten(today);
      && p.name == "This Month"
      && p.start == Date(today.year, today.month, 1)
      && p.end == QuarterEnd(today.year, QuarterOfMonth(today.month))
      && !Before(p.end, p.start)
      && InPreset(p, today)
  {
  }

  /** On 2024-01-15 the as-written "This Month" ends on 2024-03-31, two months past the end of January. */
  lemma ThisMonthOverrunsMonth()
    ensures Valid(Date(2024, 1, 15))
    ensures ThisMonthAsWritten(Date(2024, 1, 15)).end == Date(2024, 3, 31)
    ensures InPreset(ThisMonthAsWritten(Date(2024, 1, 15)), Date(2024, 2, 1))
    ensures !InPreset(ThisMonthRange(Date(2024, 1, 15)), Date(2024, 2, 1))
  {
  }

  /**
   * The intended "This Month" preset starts on the same 1st as the source's, contains today,
   * and lies within the as-written one.
   */
  lemma ThisMonthPreset(today: Date)
    requires Valid(today)
    ensures var p := IntendedBookingPresets(today)[2];
      && p == ThisMonthRange(today)
      && p.start == ThisMonthAsWritten(today).start
      && InPreset(p, today)
      && (forall d | Valid(d) && InPreset(p, d) :: InPreset(ThisMonthAsWritten(today), d))
  {
    var p := ThisMonthRange(today);
    var q := ThisMonthAsWritten(today);
    forall d | Valid(d) && InPreset(p, d)
      ensures InPreset(q, d)
    {
      QuarterRangeExact(today.year, QuarterOfMonth(today.month), d);
    }
  }

  // ---------------------------------------------------------------------------
  // Disabled-date pickers

  /**
   * The custom pickers disable exactly days 1 to 5 and exactly Mondays; the business-days picker
   * exactly Saturdays and Sundays; the event picker exactly the days before today.
   */
  lemma PickerRulesExact(today: Date, d: Date)
    requires Valid(today) && Valid(d)
    ensures |CustomDisabledPickers| == 2
    ensures Disables(CustomDisabledPickers[0], today, d) <==> 1 <= d.day <= 5
    ensures Disables(CustomDisabledPickers[1], today, d) <==> Weekday(d) == 1
    ensures Disables(BusinessDaysPicker, today, d) <==> Weekday(d) >= 6
    ensures Disables(EventDatePicker, today, d) <==> DayNumber(d) < DayNumber(today)
  {
    PastDatesExact(today, d);
  }
}
