# GPUI component showcase — navigator, chart buffer and calendar logic

The program is a desktop showcase of the `gpui-component` widget library. A sidebar lists
the demo components. Picking one shows it in the main page: a header (title, description,
documentation link) above a demo view. Nearly all of the program hands builder chains to the
external toolkit. This model covers the parts that are sequential logic of the program's own:

- **The navigator.**
  - `MainPage` is either the welcome screen or a showcase entity.
  - `ComponentShowcase` is the selected kind plus a demo view. The view is created lazily on
    the first render and cached; it is re-created on every selection.
  - `Components` is the registry: 13 kinds in sidebar order, with name, parse, description,
    link and view factory.
- **The chart demo's state.**
  - The inclusive text range filter over date-keyed points.
  - The bounded real-time buffer (`add_data_point`) and the timer tick that extends it.
  - The guard that starts the update loop.
  - The every-fifth-point sampling of a generated 1000-point series.
- **Calendar and date-picker date logic.**
  - Quarter boundaries.
  - The quarterly and booking presets.
  - The custom disabled-date predicates, the holiday and availability sets, and the initial
    range selection.

Modules, one per concern:

| file | module | models |
|---|---|---|
| `wrappers.dfy` | `Wrappers` | `Option` |
| `dates.dfy` | `Dates` | proleptic Gregorian dates (year, month, day); day number from 0001-01-01 (a Monday); weekday 1 (Monday) .. 7 (Sunday); adding days; date order. These stand in for chrono's `NaiveDate`. |
| `decimal.dfy` | `Decimal` | `format!("{}")` and zero-padded formatting of a natural number, and reading digits back |
| `chart.dfy` | `Chart` | `ChartComponentView` (a class with the source's fields), `TimeRange::contains`, `filtered_data`, `add_data_point`, the tick, `real_time_updates`' guard, `large_datasets` |
| `matchers.dfy` | `Matchers` | the `Matcher::custom` closures as a `Rule` datatype, and what each disables |
| `calendar.dfy` | `Calendar` | the calendar demo's matchers, holiday set, availability set and initial range |
| `date_picker.dfy` | `DatePicker` | `quarter_start`, `quarter_end`, quarterly presets, booking presets, the pickers' matchers |
| `registry.dfy` | `Registry` | `Components`: its 13 active variants (src/models/components.rs:75-112), `Display`/`EnumString`/`EnumIter`, `description`, `link`, `create_view` |
| `toolkit.dfy` | `Toolkit` | the identities of the demo-view entities that `create_view` allocates with `cx.new`, as a counter |
| `showcase.dfy` | `Showcase` | `ComponentShowcase`: a class plus the functional state it is proved against |
| `main_page.dfy` | `MainPageView` | `MainPage`: a class plus the functional state it is proved against |

Each stateful source object (`MainPage`, `ComponentShowcase`, `ChartComponentView`) is a
`class` with the source's fields. Its methods update those fields in place. Each method's
`ensures` ties the new state to a function of the old state (`ShowComponentState`,
`SetComponentState`, `RenderState`, `TickState`, `Slide`). The lemmas then prove the source's
promises about those functions.

The `AnyView` handles of demo views (the `cx.new` calls of `create_view`) are entity identities
drawn from `Toolkit.EntityIds`. The showcase entity that `show_component` creates with `cx.new`
is a Dafny object (`new ComponentShowcase(c)`); its identity is object identity, and it draws
no number from the counter.
A demo view is `View(id, kind, state)`: the entity, the kind it was created for, and the state
its object started in. Clock reads (`Local::now()`) are a `today` parameter. The chart tick's
computed value is a parameter too.

## Model

| member | source | states |
|---|---|---|
| Registry.AllEnumerates | src/models/components.rs:73-125 | `Components::iter()` yields all 13 active variants exactly once, in declaration order (the sidebar order) |
| Registry.AllDistinct | src/models/components.rs:74-112 | no variant is listed twice |
| Registry.Parse | src/models/components.rs:73 | `EnumString`: a parsed variant's display name is the input string |
| Registry.ParseName | src/models/components.rs:73 | `parse(to_string(c)) == c` for every variant |
| Registry.ParseExact | src/models/components.rs:73 | a string parses iff it is the display name of some variant |
| Registry.Name | src/models/components.rs:73-112 | `Display` gives every variant a non-empty name (its identifier) |
| Registry.Description | src/models/components.rs:185-238 | `description()` is total: every kind has a non-empty description, its view's `DESCRIPTION` text |
| Registry.Link | src/models/components.rs:240-293 | `link()` is total: every kind's link is the documentation root followed by a non-empty page name |
| Registry.NameInjective | src/models/components.rs:73 | distinct variants have distinct display names |
| Registry.DocPageInjective | src/models/components.rs:240-293 | distinct variants have distinct documentation page names |
| Registry.LinkInjective | src/models/components.rs:240-293 | distinct variants have distinct links; every link is the documentation root followed by the page name |
| Registry.CreateView | src/models/components.rs:130-183 | `create_view(k)` yields a view with the allocated entity, of kind `k`, whose state belongs to kind `k` |
| Registry.InitialState | src/models/components.rs:130-183 | the state each kind's view starts in; a chart view starts valid with its loop guard armed |
| Registry.InitialStateKind | src/models/components.rs:130-183 | the factory is total and every kind's initial state is of that kind |
| Registry.InitialStates | src/models/components.rs:130-183 | Skeleton starts loading; Popover and Collapsible start closed; Checkbox starts with all three flags off; the chart starts valid with its start guard armed |
| Showcase.HeaderDescribesKind | src/views/component_showcase.rs:33-35 | the header title parses back to the selected kind and the link is that kind's documentation page |
| Showcase.HeaderTitlesDistinct | src/views/component_showcase.rs:33 | different kinds get different header titles |
| Showcase.NewShowcaseEmpty | src/views/component_showcase.rs:11-16 | `new(c)` selects `c`, has no view, and satisfies the invariant |
| Showcase.SetComponentFresh | src/views/component_showcase.rs:24-26 | `set_component(c)` selects `c` and installs a new view of kind `c` in its initial state. The view differs from any previously cached one, even when `c` was already selected. The invariant is kept. |
| Showcase.RenderCreatesWhenEmpty | src/views/component_showcase.rs:40-44 | rendering without a cached view creates exactly one view, the next entity, of the selected kind, and caches it |
| Showcase.RenderReusesCache | src/views/component_showcase.rs:38-39 | rendering with a cached view allocates nothing, changes nothing and shows the cached view |
| Showcase.RenderPreservesInvariant | src/views/component_showcase.rs:37-44 | after a render, a cached view is of the selected kind and an issued entity |
| Showcase.RenderIdempotent | src/views/component_showcase.rs:37-44 | a second render creates nothing and shows the same view as the first |
| Showcase.ComponentShowcase.constructor | src/views/component_showcase.rs:11-16 | the new object's state is `NewShowcase(c)` |
| Showcase.ComponentShowcase.SetComponent | src/views/component_showcase.rs:18-28 | fields become `SetComponentState(old, c, next entity)`; one entity is allocated |
| Showcase.ComponentShowcase.HeaderFields | src/views/component_showcase.rs:33-35 | the title parses to the selected kind, the description is its description, the link its documentation page |
| Showcase.ComponentShowcase.Render | src/views/component_showcase.rs:37-44 | fields and shown view follow `RenderState`; at most one entity is allocated, only when nothing was cached; the invariant is kept |
| MainPageView.NewPageShowsWelcome | src/views/main_page.rs:10-12 | a new page has no showcase and renders "Welcome to GPUI Component Demo" / "Select a component from the sidebar to view its demo" |
| MainPageView.RenderShowsWelcomeIffEmpty | src/views/main_page.rs:33-54 | the welcome screen is shown iff there is no showcase; otherwise the showcase is shown |
| MainPageView.ShowFromEmpty | src/views/main_page.rs:19-21 | from the empty state, `show_component(c)` creates a showcase for `c` with no view and allocates no view |
| MainPageView.ShowWhenPresent | src/views/main_page.rs:15-18 | with a showcase present, `show_component(c)` delegates to `set_component(c)`, which builds a view of `c` at once |
| MainPageView.ShowComponentSelects | src/views/main_page.rs:14-23 | from either state, afterwards a showcase is present, its component is `c`, and the invariant holds |
| MainPageView.ShowWelcomeIdempotent | src/views/main_page.rs:25-28 | `show_welcome` always empties the page and is idempotent |
| MainPageView.WelcomeDropsCachedView | src/views/main_page.rs:19-27 | after `show_welcome`, the next `show_component(c)` builds a brand-new showcase with no cached view |
| MainPageView.ReselectRebuildsView | src/views/main_page.rs:15-18 | after a render cached a view for `c`, picking `c` again caches a different view entity of the same kind |
| MainPageView.MainPage.constructor | src/views/main_page.rs:10-12 | a new page is empty |
| MainPageView.MainPage.ShowComponent | src/views/main_page.rs:14-23 | state becomes `ShowComponentState(old, c, next)`. An existing showcase object is kept (same object). Otherwise a fresh one is created. |
| MainPageView.MainPage.ShowWelcome | src/views/main_page.rs:25-28 | the showcase field is cleared |
| MainPageView.MainPage.Render | src/views/main_page.rs:32-55 | the welcome screen iff there is no showcase; the screen is `RenderPage` of the state |
| Chart.LexLe | src/models/chart_component.rs:1184 | Rust's `<=` on `&str`: the empty string is below every string, and `a <= b` forces `a`'s first character to be at most `b`'s |
| Chart.LexLeReflexive | src/models/chart_component.rs:1184 | the `&str` order used by `contains` is reflexive |
| Chart.LexLeAntisymmetric | src/models/chart_component.rs:1184 | ... antisymmetric |
| Chart.LexLeTransitive | src/models/chart_component.rs:1184 | ... transitive |
| Chart.LexLeTotal | src/models/chart_component.rs:1184 | ... total |
| Chart.LexLeCommonPrefix | src/models/chart_component.rs:1184 | a common prefix (such as `"2023-"`) does not affect the order |
| Chart.LexLeDigits | src/models/chart_component.rs:1184 | on digit strings of equal length, the text order is the numeric order |
| Chart.Contains | src/models/chart_component.rs:1183-1185 | `contains` includes both ends of an ordered range, and holds of nothing unless `start <= end` |
| Chart.EmptyRange | src/models/chart_component.rs:1183-1185 | a range whose start is after its end contains nothing |
| Chart.MonthRangeIsInterval | src/models/chart_component.rs:1183-1185 | for `"YYYY-MM"` keys of one year, `contains` is exactly `first <= month <= last` (both ends inclusive) |
| Chart.Filter | src/models/chart_component.rs:59-65 | `filtered_data` keeps exactly the points of `date_data` inside the range, and no more points than it had |
| Chart.FilterIsSubsequence | src/models/chart_component.rs:59-65 | the filter keeps the original order (the result is a subsequence) |
| Chart.FilterAppend | src/models/chart_component.rs:59-65 | filtering a concatenation is the concatenation of the filtered parts |
| Chart.FilterAllInside | src/models/chart_component.rs:59-65 | a series wholly inside the range is returned unchanged |
| Chart.InitialFilterKeepsAll | src/models/chart_component.rs:21-39 | on the initial data and range, `filtered_data` returns all three points |
| Chart.Slide | src/models/chart_component.rs:67-72 | after `add_data_point(p)` the length stays within `max_points`, and `p` is the last element |
| Chart.SlideCases | src/models/chart_component.rs:68-70 | below capacity the result is `old ++ [p]`; at capacity it is `old[1..] ++ [p]`, still of length `max_points`. At most one point is removed. |
| Chart.SlideAllKeepsRecent | src/models/chart_component.rs:67-71 | after any run of `add_data_point`, the buffer is the most recent `max_points` points of everything added |
| Chart.TickState | src/models/chart_component.rs:90-95 | a tick adds the point labelled with the decimal text of `counter`, then increments `counter`; nothing else changes |
| Chart.InitialChart | src/models/chart_component.rs:19-57 | `ChartComponentView::new()`: a valid state with the counter at 3 |
| Chart.ShouldStartAutoUpdate | src/models/chart_component.rs:1045 | the update loop's start guard holds exactly while the counter is at its initial value |
| Chart.InitialChartValid | src/models/chart_component.rs:19-57 | the initial state keeps the invariant (capacity 20, 3 points, counter 3), and the start guard holds there |
| Chart.TickPreservesValid | src/models/chart_component.rs:1045-1046 | a tick keeps the invariant, and after it the `counter == 3` start guard is false |
| Chart.TickAllEffect | src/models/chart_component.rs:84-95 | after `n` ticks the counter has grown by `n` and the buffer is the most recent `max_points` of the old points followed by the new ones; the start guard is then false |
| Chart.TickTimestampsDistinct | src/models/chart_component.rs:91 | the ticks label their points with pairwise distinct timestamps |
| Chart.ChartComponentView.constructor | src/models/chart_component.rs:19-57 | `new()` builds exactly the initial state, which is valid |
| Chart.ChartComponentView.FilteredData | src/models/chart_component.rs:59-65 | the result holds exactly the view's points whose dates lie in its range |
| Chart.ChartComponentView.AddDataPoint | src/models/chart_component.rs:67-72 | the buffer field becomes `Slide(old, p, max_points)` |
| Chart.ChartComponentView.Tick | src/models/chart_component.rs:84-95 | the fields become `TickState(old, value)`; the invariant is kept |
| Chart.ChartComponentView.RealTimeUpdates | src/models/chart_component.rs:1043-1062 | the loop is started iff the start guard holds; the chart shows the buffer |
| Chart.StepBy | src/models/chart_component.rs:998-1002 | `step_by` is no longer than its input and empty only on empty input |
| Chart.StepByElements | src/models/chart_component.rs:998-1002 | `step_by(n)` keeps ceil(len / n) elements, the k-th being element `n*k` |
| Chart.StepByLength | src/models/chart_component.rs:998-1002 | `step_by(n)` keeps ceil(len / n) elements |
| Chart.StepByIndex | src/models/chart_component.rs:998-1002 | the k-th element of `step_by(n)` is element `n*k` of the input |
| Chart.LargeDatasets | src/models/chart_component.rs:990-1002 | sampling the 1000 generated points keeps 200, the k-th being generated point `5k` |
| Chart.GeneratedDatesDistinct | src/models/chart_component.rs:993 | the generated dates (year 2023 and a three-digit zero-padded day) are pairwise distinct |
| Decimal.DecimalText | src/models/chart_component.rs:91 | `format!("{}", n)` is a non-empty digit string without a leading zero |
| Decimal.ParseDecimalText | src/models/chart_component.rs:91 | reading the decimal text back gives `n` |
| Decimal.DecimalTextInjective | src/models/chart_component.rs:91 | distinct counters give distinct texts |
| Decimal.ZeroPadRoundTrip | src/models/chart_component.rs:993 | zero padding does not change the value read back |
| Decimal.ZeroPadWidth | src/models/chart_component.rs:993 | numbers below 10^w are padded to exactly `w` characters |
| Dates.DaysInMonth | src/models/date_picker_component.rs:470 | Every month has 28 to 31 days, February has 29 exactly in leap years, and among the other months exactly April, June, September and November have 30. |
| Dates.DaysInMonthExact | src/models/date_picker_component.rs:470 | the whole table: February 29 in leap years and 28 otherwise; April, June, September and November 30; the other seven months 31 |
| Dates.Weekday | src/models/date_picker_component.rs:419 | `weekday().number_from_monday()` is in 1..7 (anchored by `NewYear2024IsMonday`) |
| Dates.Before | src/models/calendar_component.rs:243 | `NaiveDate`'s `<`: strict, and never backwards in the year (`BeforeIsDayOrder` gives the full order) |
| Dates.NextDayNumber | src/models/date_picker_component.rs:425-427 | the next day is a valid date one day number later |
| Dates.AddDays | src/models/calendar_component.rs:108 | `checked_add_days` / `+ Duration::days` on a valid date gives a valid date (year range unbounded) |
| Dates.AddDaysNumber | src/models/date_picker_component.rs:423-427 | adding `n` days gives a valid date `n` day numbers later |
| Dates.AddDaysAdd | src/models/date_picker_component.rs:425-427 | adding `m` then `n` days is adding `m + n` |
| Dates.BeforeIsDayOrder | src/models/calendar_component.rs:243 | `NaiveDate`'s `<` is the day-number order |
| Dates.DayNumberInjective | src/models/calendar_component.rs:323 | distinct valid dates have distinct day numbers |
| Dates.AddDaysDistinct | src/models/calendar_component.rs:431-449 | different offsets give different dates |
| Dates.AddDaysWeekday | src/models/date_picker_component.rs:419 | `n` days later the weekday has advanced by `n` modulo 7 |
| Dates.NewYear2024IsMonday | src/models/calendar_component.rs:314 | the weekday numbering agrees with the calendar: 2024-01-01 is a Monday |
| Matchers.Disables | src/models/calendar_component.rs:222-244 | the `Matcher::custom` closures: `day0() < 5` disables days 1..5; the past-date closures disable exactly the smaller day numbers, plus the weekend days in the event closure (383-386) |
| Matchers.FirstFiveDaysExact | src/models/calendar_component.rs:222-224 | `day0() < 5` disables exactly days 1..5 of every month |
| Matchers.MondaysOncePerWeek | src/models/calendar_component.rs:232-234 | of any 7 consecutive days exactly one, the Monday, is disabled |
| Matchers.WeekendsTwicePerWeek | src/models/calendar_component.rs:298-300 | of any 7 consecutive days exactly two, the Saturday and the Sunday, are disabled |
| Matchers.PastDatesExact | src/models/calendar_component.rs:242-244 | a date is disabled iff it is strictly before today; today stays enabled |
| Matchers.PastDatesSparesFuture | src/models/calendar_component.rs:242-244 | no day from today on is disabled |
| Matchers.PastOrWeekendExact | src/models/calendar_component.rs:383-386 | the event rule is the union of the past and weekend rules; exactly the weekdays from today on stay enabled |
| Calendar.DateRangeInitial | src/models/calendar_component.rs:106-108 | the initial range is (today, today + 7): valid, ordered, 7 day numbers apart |
| Calendar.CustomDisabledDatesExact | src/models/calendar_component.rs:216-250 | the three calendars disable days 1..5, Mondays, and days before today |
| Calendar.BusinessDaysOnlyExact | src/models/calendar_component.rs:298-300 | exactly Saturdays and Sundays are disabled |
| Calendar.HolidayCalendarExact | src/models/calendar_component.rs:313-323 | exactly 2024-01-01, 2024-07-04 and 2024-12-25 are disabled; the set has three valid dates |
| Calendar.IndependenceDayWeekday | src/models/calendar_component.rs:315 | 2024-07-04 is a Thursday |
| Calendar.ChristmasWeekday | src/models/calendar_component.rs:316 | 2024-12-25 is a Wednesday |
| Calendar.EventPlanningExact | src/models/calendar_component.rs:383-386 | disabled iff before today or on a weekend |
| Calendar.UnavailableDistinct | src/models/calendar_component.rs:431-449 | the unavailable set has three distinct days and does not contain today |
| Calendar.AvailabilityCalendarExact | src/models/calendar_component.rs:431-454 | a date is disabled iff it is 2, 5 or 10 days after today; today stays enabled |
| DatePicker.QuarterStart | src/models/date_picker_component.rs:462-465 | day 1 of month `3q-2` of the year, a valid date (for `1 <= q <= 4`) |
| DatePicker.QuarterEnd | src/models/date_picker_component.rs:467-471 | the last day of month `3q`; the day after it is the next quarter's start, or January 1 of the next year when `q = 4` |
| DatePicker.QuarterPresets | src/models/date_picker_component.rs:382-387 | the quarterly presets (also 446-451) are four, each between valid dates of the given year |
| DatePicker.QuarterEndDates | src/models/date_picker_component.rs:467-471 | quarters end on March 31, June 30, September 30 and December 31, in leap years too |
| DatePicker.QuarterStartBeforeEnd | src/models/date_picker_component.rs:462-471 | a quarter's start is before its end |
| DatePicker.QuarterOfMonth | src/models/date_picker_component.rs:418 | `(m-1)/3+1` is in 1..4 and that quarter contains month `m` |
| DatePicker.QuarterRangeExact | src/models/date_picker_component.rs:462-471 | a date of the year lies in quarter `q`'s range iff its month belongs to quarter `q` |
| DatePicker.QuarterPresetsTile | src/models/date_picker_component.rs:448-451 | Q1..Q4 cover the year from January 1 to December 31 with no gap and no overlap |
| DatePicker.DaysToWeekend | src/models/date_picker_component.rs:419 | `(5 - n + 7) % 7` is in 0..6 and reaches a Friday |
| DatePicker.FridayShift | src/models/date_picker_component.rs:419 | it reaches a Friday and no smaller shift does |
| DatePicker.ThisWeekendPreset | src/models/date_picker_component.rs:419-425 | "This Weekend" starts on the first Friday on or after today and ends on the Saturday after it |
| DatePicker.NextWeekPreset | src/models/date_picker_component.rs:425-427 | "Next Week" runs from weekend start + 2 (a Sunday) to weekend start + 8 (a Saturday), 7 days |
| DatePicker.BookingPresets | src/models/date_picker_component.rs:413-432 | as the source computes them: three presets between valid dates, the third the as-written "This Month" (`ThisMonthAsWritten`) |
| DatePicker.IntendedBookingPresets | src/models/date_picker_component.rs:413-432 | the booking presets as intended: the source's first two, then the corrected `ThisMonthRange` |
| DatePicker.ThisMonthAsWritten | src/models/date_picker_component.rs:417-418 | the as-written "This Month": valid ends, starting on the 1st of today's month |
| DatePicker.ThisMonthAsWrittenPreset | src/models/date_picker_component.rs:417-418 | "This Month", as written, runs from the 1st of today's month to the end of today's quarter; it contains today and is ordered |
| DatePicker.ThisMonthOverrunsMonth | src/models/date_picker_component.rs:418 | on 2024-01-15 the as-written "This Month" ends on 2024-03-31, and 2024-02-01 lies inside it but not in the corrected range |
| DatePicker.ThisMonthRange | src/models/date_picker_component.rs:417-418 | the intended range holds a date iff it is in today's month and year |
| DatePicker.ThisMonthPreset | src/models/date_picker_component.rs:417-418 | the intended presets' "This Month" (the corrected range) starts where the as-written one starts, contains today, and lies within the as-written range |
| DatePicker.InitialRange | src/models/date_picker_component.rs:103-108 | The initial range starts today and ends on the valid date 7 day numbers later, after today. |
| DatePicker.PickerRulesExact | src/models/date_picker_component.rs:225-245 | the pickers disable exactly days 1..5, Mondays, weekends (339-345) and past dates (400-403) |

## Left out

- Presentation is not modelled: every `Render`/`RenderOnce` builder chain, `subtitle`, `chart_container`, and styling and layout. These are handed to the external toolkit.
- Widget behaviour that lives inside `gpui_component` is not modelled, because that library is not part of this model. This covers badge capping, avatar-group limits, description-list spans, form columns, `Matcher::range`/`interval`, the `vec![0, 6]` weekday matchers and `year_range`.
- The asynchronous update loop (`cx.spawn`, the 800 ms timer, the exit when the view is gone) is concurrency and time. Only its single tick step is modelled.
- Floating point is not modelled. The tick's value (`sin`/`cos` delta and `clamp(50.0, 200.0)`) and the generated sample values are parameters; point values are stored, never computed with. Colour contrast and opacities are left out too.
- Clock reads are not modelled: `Local::now()` is the `today` parameter, and the year of the quarterly presets is a parameter.
- Single-flag UI toggles are left out. Each is one assignment with no invariant: checkbox, popover, collapsible and skeleton toggles; `sidebar_collapsed`; icon choice. Only their initial values are modelled (`Registry.InitialStates`).
- I/O and side effects are left out (`println!`, notifications, clipboard, dialogs, window creation, theme, key bindings), as are the other demo files' static widget configurations. `memory_optimization`'s zero-padded series is one of these: it is generated but never sampled or filtered.
- `cx.notify()` (a redraw request) is left out; it does not change the state.
- Registry: the Accordion, Alert and Calendar files implement an older `ComponentRenderer` trait instead of `ComponentMeta`. Their description and link are the strings those files return. Their views carry no state.
- Registry.Link: written as the documentation root followed by the page name. Each kind's text is exactly the `LINK` constant in its file. Comparing the long literals one kind at a time costs the verifier too much.
- Showcase.ComponentShowcase.SetComponent: takes no window argument. `main_page.rs:17` calls it without one, and view creation does not use the window.
- Showcase.ComponentShowcase.Render: the header fields are a separate function (`HeaderFields`), not results of the method. They depend only on the selected kind, and render computes them before touching the cache.
- Dates: chrono's representable year range is not modelled, so `checked_add_days(...)` always succeeds and `AddDays` is total. Where the source `unwrap`s the result (the availability set, the date picker's initial range `DatePicker.InitialRange`) the model uses the date. Where it passes the `Option` on (`Date::Range` of the calendar's initial range, calendar_component.rs:108) the model keeps the `Option`, which is always `Some`.
- Dates.DaysInMonth: its own contract does not pin February of a common year to 28 or the seven long months to 31; `Dates.DaysInMonthExact` states the whole table, kept as a lemma so that other proofs do not carry it.
- The date picker's single-date initial selection (`set_date(today)`, date_picker_component.rs:86) is one assignment of the clock reading and is not modelled.
- DatePicker.QuarterStart and DatePicker.QuarterEnd: require `1 <= quarter <= 4`. The source has no error path; it panics outside that range (unsigned underflow for 0, `unwrap` of an invalid month above 4).
- Views: the model keeps only a view's initial state. Later changes inside a view entity, such as chart ticks on a cached chart view, are `ChartComponentView`'s own business and are not tracked through the registry.

## Findings

| source | as written | input that shows it | evidently intended | confidence | as-written member | corrected member |
|---|---|---|---|---|---|---|
| src/models/date_picker_component.rs:418 | the "This Month" preset ends at `quarter_end(year, quarter of the month)` | today = 2024-01-15: the preset runs 2024-01-01 .. 2024-03-31 and contains 2024-02-01 | the preset (and the variable `this_month_end`) ends on the last day of today's month | not executed | DatePicker.ThisMonthOverrunsMonth | DatePicker.ThisMonthRange |
