/**
 * The chart demo's own state: a date-keyed series filtered by an inclusive text range, and a
 * bounded real-time series that a timer tick extends one point at a time while the oldest
 * point falls out once the buffer is full.  Point values are `f64` in the program; the model
 * only stores and compares them, never computes with them.
 */
module Chart {
  import opened Decimal

  type Value = real

  datatype DateValue = DateValue(date: string, value: Value)
  datatype TimestampValue = TimestampValue(timestamp: string, value: Value)
  datatype TimeRange = TimeRange(start: string, end: string)
  datatype ChartType = Line | Bar | Area

  // ---------------------------------------------------------------------------
  // String order

  /**
   * Rust's `<=` on `&str`: lexicographic on characters, a proper prefix coming first. This
   * code-point order equals Rust's byte order on UTF-8 `&str`.
   */
  predicate LexLe(a: string, b: string): (r: bool)
    ensures |a| == 0 ==> r
    ensures r && |a| > 0 ==> |b| > 0 && a[0] <= b[0]
    decreases |a|
  {
    |a| == 0 || (|b| > 0 && (a[0] < b[0] || (a[0] == b[0] && LexLe(a[1..], b[1..]))))
  }

  lemma {:induction false} LexLeReflexive(a: string)
    ensures LexLe(a, a)
    decreases |a|
  {
    if |a| > 0 {
      LexLeReflexive(a[1..]);
    }
  }

  lemma {:induction false} LexLeAntisymmetric(a: string, b: string)
    requires LexLe(a, b) && LexLe(b, a)
    ensures a == b
    decreases |a|
  {
    if |a| > 0 {
      LexLeAntisymmetric(a[1..], b[1..]);
      assert a == [a[0]] + a[1..] && b == [b[0]] + b[1..];
    }
  }

  lemma {:induction false} LexLeTransitive(a: string, b: string, c: string)
    requires LexLe(a, b) && LexLe(b, c)
    ensures LexLe(a, c)
    decreases |a|
  {
    if |a| > 0 && a[0] == b[0] && b[0] == c[0] {
      LexLeTransitive(a[1..], b[1..], c[1..]);
    }
  }

  lemma {:induction false} LexLeTotal(a: string, b: string)
    ensures LexLe(a, b) || LexLe(b, a)
    decreases |a|
  {
    if |a| > 0 && |b| > 0 && a[0] == b[0] {
      LexLeTotal(a[1..], b[1..]);
    }
  }

  /** A common prefix does not affect the order. */
  lemma {:induction false} LexLeCommonPrefix(p: string, a: string, b: string)
    ensures LexLe(p + a, p + b) <==> LexLe(a, b)
    decreases |p|
  {
    if |p| > 0 {
      assert (p + a)[0] == p[0] && (p + b)[0] == p[0];
      assert (p + a)[1..] == p[1..] + a;
      assert (p + b)[1..] == p[1..] + b;
      LexLeCommonPrefix(p[1..], a, b);
      assert LexLe(p + a, p + b) == LexLe(p[1..] + a, p[1..] + b);
    } else {
      assert p + a == a && p + b == b;
    }
  }

  lemma ParseFirstDigit(s: string)
    requires |s| > 0 && AllDigits(s)
    ensures ParseDecimal(s) == DigitValue(s[0]) * Pow10(|s| - 1) + ParseDecimal(s[1..])
  {
    assert s == [s[0]] + s[1..];
    ParseAppend([s[0]], s[1..]);
    assert ParseDecimal([s[0]]) == DigitValue(s[0]) by {
      assert [s[0]][..0] == [];
    }
  }

  /** A smaller leading digit gives a smaller number, whatever the lower digits. */
  lemma LeadingDigitOrder(x: nat, y: nat, restA: nat, restB: nat, p: nat)
    requires x < y && restA < p && restB < p
    ensures x * p + restA < y * p + restB
  {
    assert (x + 1) * p == x * p + p;
    assert (x + 1) * p <= y * p;
  }

  /** On digit strings of one length, the text order is the numeric order. */
  lemma {:induction false} LexLeDigits(a: string, b: string)
    requires |a| == |b| && AllDigits(a) && AllDigits(b)
    ensures LexLe(a, b) <==> ParseDecimal(a) <= ParseDecimal(b)
    decreases |a|
  {
    if |a| > 0 {
      var p := Pow10(|a| - 1);
      ParseFirstDigit(a);
      ParseFirstDigit(b);
      var ra, rb := ParseDecimal(a[1..]), ParseDecimal(b[1..]);
      ParseBound(a[1..]);
      ParseBound(b[1..]);
      var x, y := DigitValue(a[0]), DigitValue(b[0]);
      if x < y {
        LeadingDigitOrder(x, y, ra, rb, p);
        assert a[0] < b[0];
      } else if y < x {
        LeadingDigitOrder(y, x, rb, ra, p);
        assert b[0] < a[0];
      } else {
        assert a[0] == b[0];
        LexLeDigits(a[1..], b[1..]);
      }
    }
  }

  // ---------------------------------------------------------------------------
  // Range filter

  /** `TimeRange::contains`: `start <= date <= end` in text order, both ends included. */
  predicate Contains(range: TimeRange, date: string): (r: bool)
    ensures r ==> LexLe(range.start, range.end)
    ensures LexLe(range.start, range.end) && (date == range.start || date == range.end) ==> r
  {
    LexLeReflexive(date);
    if LexLe(range.start, date) && LexLe(date, range.end) then
      LexLeTransitive(range.start, date, range.end);
      true
    else
      false
  }

  /** A range with `start > end` contains nothing. */
  lemma EmptyRange(range: TimeRange, date: string)
    requires !LexLe(range.start, range.end)
    ensures !Contains(range, date)
  {
    if Contains(range, date) {
      LexLeTransitive(range.start, date, range.end);
    }
  }

  /** The text `"<prefix><nn>"` of a two-digit month. */
  function MonthText(prefix: string, month: nat): string {
    prefix + ZeroPad(month, 2)
  }

  /**
   * For the `"YYYY-MM"` keys of the demo, containment in a range between two such keys with
   * the same year is the numeric month interval.
   */
  lemma MonthRangeIsInterval(prefix: string, first: nat, last: nat, month: nat)
    requires first < 100 && last < 100 && month < 100
    ensures Contains(TimeRange(MonthText(prefix, first), MonthText(prefix, last)), MonthText(prefix, month))
      <==> first <= month <= last
  {
    ZeroPadWidth(first, 2);
    ZeroPadWidth(last, 2);
    ZeroPadWidth(month, 2);
    ZeroPadRoundTrip(first, 2);
    ZeroPadRoundTrip(last, 2);
    ZeroPadRoundTrip(month, 2);
    LexLeCommonPrefix(prefix, ZeroPad(first, 2), ZeroPad(month, 2));
    LexLeCommonPrefix(prefix, ZeroPad(month, 2), ZeroPad(last, 2));
    LexLeDigits(ZeroPad(first, 2), ZeroPad(month, 2));
    LexLeDigits(ZeroPad(month, 2), ZeroPad(last, 2));
  }

  /** `filtered_data`: the points whose date lies in the range, in their original order. */
  function Filter(data: seq<DateValue>, range: TimeRange): (r: seq<DateValue>)
    ensures |r| <= |data|
    ensures forall i | 0 <= i < |r| :: r[i] in data && Contains(range, r[i].date)
    ensures forall x | x in data && Contains(range, x.date) :: x in r
  {
    if |data| == 0 then []
    else if Contains(range, data[0].date) then [data[0]] + Filter(data[1..], range)
    else Filter(data[1..], range)
  }

  /** `small` occurs in `big` in order, possibly with gaps. */
  predicate IsSubsequence(small: seq<DateValue>, big: seq<DateValue>)
    decreases |big|
  {
    if |small| == 0 then true
    else if |big| == 0 then false
    else if small[0] == big[0] then IsSubsequence(small[1..], big[1..])
    else IsSubsequence(small, big[1..])
  }

  /** The filter keeps the original order. */
  lemma {:induction false} FilterIsSubsequence(data: seq<DateValue>, range: TimeRange)
    ensures IsSubsequence(Filter(data, range), data)
    decreases |data|
  {
    if |data| > 0 {
      FilterIsSubsequence(data[1..], range);
      var rest := Filter(data[1..], range);
      if Contains(range, data[0].date) {
        assert ([data[0]] + rest)[1..] == rest;
      }
    }
  }

  /** Filtering a concatenation filters each part. */
  lemma {:induction false} FilterAppend(a: seq<DateValue>, b: seq<DateValue>, range: TimeRange)
    ensures Filter(a + b, range) == Filter(a, range) + Filter(b, range)
    decreases |a|
  {
    if |a| > 0 {
      assert (a + b)[1..] == a[1..] + b;
      FilterAppend(a[1..], b, range);
    } else {
      assert a + b == b;
    }
  }

  /** A series lying wholly inside the range is returned unchanged. */
  lemma {:induction false} FilterAllInside(data: seq<DateValue>, range: TimeRange)
    requires forall i | 0 <= i < |data| :: Contains(range, data[i].date)
    ensures Filter(data, range) == data
    decreases |data|
  {
    if |data| > 0 {
      FilterAllInside(data[1..], range);
      assert data == [data[0]] + data[1..];
    }
  }

  // ---------------------------------------------------------------------------
  // Bounded real-time series

  /** `add_data_point`: push the point, then drop the oldest one once past `maxPoints`. */
  function Slide(series: seq<TimestampValue>, point: TimestampValue, maxPoints: nat): (r: seq<TimestampValue>)
    ensures |series| <= maxPoints ==> |r| <= maxPoints
    ensures maxPoints >= 1 ==> |r| >= 1 && r[|r| - 1] == point
  {
    var pushed := series + [point];
    if |pushed| > maxPoints then pushed[1..] else pushed
  }

  /** Below capacity nothing is removed; at capacity exactly the oldest point is. */
  lemma SlideCases(series: seq<TimestampValue>, point: TimestampValue, maxPoints: nat)
    ensures |series| < maxPoints ==> Slide(series, point, maxPoints) == series + [point]
    ensures |series| == maxPoints >= 1 ==>
      Slide(series, point, maxPoints) == series[1..] + [point] && |Slide(series, point, maxPoints)| == maxPoints
    ensures |series| <= maxPoints ==> |Slide(series, point, maxPoints)| >= |series|
  {
  }

  /** The last `n` elements of `t` (all of them when there are fewer). */
  function Recent<T>(t: seq<T>, n: nat): (r: seq<T>)
    ensures |r| == if |t| <= n then |t| else n
  {
    if |t| <= n then t else t[|t| - n..]
  }

  /** Adding a sequence of points, one `add_data_point` after another. */
  function SlideAll(series: seq<TimestampValue>, points: seq<TimestampValue>, maxPoints: nat): seq<TimestampValue>
    decreases |points|
  {
    if |points| == 0 then series
    else SlideAll(Slide(series, points[0], maxPoints), points[1..], maxPoints)
  }

  /** The buffer always holds the most recent `maxPoints` points ever added. */
  lemma {:induction false} SlideAllKeepsRecent(series: seq<TimestampValue>, points: seq<TimestampValue>, maxPoints: nat)
    requires 1 <= maxPoints && |series| <= maxPoints
    ensures SlideAll(series, points, maxPoints) == Recent(series + points, maxPoints)
    decreases |points|
  {
    if |points| == 0 {
      assert series + points == series;
    } else {
      var next := Slide(series, points[0], maxPoints);
      SlideAllKeepsRecent(next, points[1..], maxPoints);
      var all := series + points;
      var pushed := series + [points[0]];
      assert all == pushed + points[1..];
      if |pushed| > maxPoints {
        assert next == pushed[1..];
        assert next + points[1..] == all[1..];
        RecentDropFirst(all, maxPoints);
      } else {
        assert next == pushed;
        assert next + points[1..] == all;
      }
    }
  }

  /** Dropping the first element of a sequence longer than `n` leaves its last `n` in place. */
  lemma RecentDropFirst<T>(t: seq<T>, n: nat)
    requires |t| > n
    ensures Recent(t[1..], n) == Recent(t, n)
  {
    assert t[1..][|t| - 1 - n..] == t[|t| - n..];
  }

  // ---------------------------------------------------------------------------
  // Whole-view state and the timer tick

  datatype ChartState = ChartState(
    dateData: seq<DateValue>,
    chartType: ChartType,
    timeRange: TimeRange,
    timestampData: seq<TimestampValue>,
    maxPoints: nat,
    counter: nat)

  /** `ChartComponentView::new()`. */
  function InitialChart(): (r: ChartState)
    ensures ValidChart(r) && r.counter == 3
  {
    ChartState(
      [DateValue("2023-01", 200.0), DateValue("2023-02", 250.0), DateValue("2023-03", 220.0)],
      Line,
      TimeRange("2023-01", "2023-12"),
      [TimestampValue("T0", 100.0), TimestampValue("T1", 150.0), TimestampValue("T2", 120.0)],
      20,
      3)
  }

  /** What every reachable state keeps: a usable capacity, a buffer within it, a counter from 3 up. */
  predicate ValidChart(st: ChartState) {
    1 <= st.maxPoints && |st.timestampData| <= st.maxPoints && st.counter >= 3
  }

  /** The point a tick adds: labelled with the decimal text of the counter. */
  function TickPoint(counter: nat, value: Value): TimestampValue {
    TimestampValue(DecimalText(counter), value)
  }

  /** One tick of the update loop: add the point for `counter`, then advance `counter`. */
  function TickState(st: ChartState, value: Value): (r: ChartState)
    ensures r.counter == st.counter + 1
    ensures r.timestampData == Slide(st.timestampData, TickPoint(st.counter, value), st.maxPoints)
    ensures r.dateData == st.dateData && r.chartType == st.chartType && r.timeRange == st.timeRange
    ensures r.maxPoints == st.maxPoints
  {
    st.(timestampData := Slide(st.timestampData, TickPoint(st.counter, value), st.maxPoints),
        counter := st.counter + 1)
  }

  /** The guard in `real_time_updates`: the loop is started while the counter is at its initial value. */
  predicate ShouldStartAutoUpdate(st: ChartState): (r: bool)
    ensures r <==> st.counter == InitialChart().counter
  {
    st.counter == 3
  }

  /** A run of ticks, one per value. */
  function TickAll(st: ChartState, values: seq<Value>): ChartState
    decreases |values|
  {
    if |values| == 0 then st else TickAll(TickState(st, values[0]), values[1..])
  }

  /** The points a run of ticks adds, labelled `counter`, `counter + 1`, ... */
  function TickPoints(counter: nat, values: seq<Value>): (r: seq<TimestampValue>)
    ensures |r| == |values|
    ensures forall i | 0 <= i < |r| :: r[i] == TickPoint(counter + i, values[i])
    decreases |values|
  {
    if |values| == 0 then [] else [TickPoint(counter, values[0])] + TickPoints(counter + 1, values[1..])
  }

  lemma InitialChartValid()
    ensures ValidChart(InitialChart())
    ensures ShouldStartAutoUpdate(InitialChart())
  {
  }

  /** A tick keeps every invariant, and afterwards the start guard never fires again. */
  lemma TickPreservesValid(st: ChartState, value: Value)
    requires ValidChart(st)
    ensures ValidChart(TickState(st, value))
    ensures !ShouldStartAutoUpdate(TickState(st, value))
  {
  }

  /**
   * After a run of ticks the counter has advanced by their number and the buffer holds the
   * most recent `maxPoints` of the old points followed by the new ones.
   */
  lemma {:induction false} TickAllEffect(st: ChartState, values: seq<Value>)
    requires ValidChart(st)
    ensures ValidChart(TickAll(st, values))
    ensures TickAll(st, values).counter == st.counter + |values|
    ensures TickAll(st, values).timestampData == SlideAll(st.timestampData, TickPoints(st.counter, values), st.maxPoints)
    ensures TickAll(st, values).timestampData == Recent(st.timestampData + TickPoints(st.counter, values), st.maxPoints)
    ensures |values| > 0 ==> !ShouldStartAutoUpdate(TickAll(st, values))
    decreases |values|
  {
    if |values| > 0 {
      var next := TickState(st, values[0]);
      TickAllEffect(next, values[1..]);
      var points := TickPoints(st.counter, values);
      assert points[0] == TickPoint(st.counter, values[0]);
      assert points[1..] == TickPoints(st.counter + 1, values[1..]);
    }
    SlideAllKeepsRecent(st.timestampData, TickPoints(st.counter, values), st.maxPoints);
  }

  /** The ticks label their points with pairwise distinct timestamps. */
  lemma TickTimestampsDistinct(counter: nat, values: seq<Value>, i: nat, j: nat)
    requires i < j < |values|
    ensures TickPoints(counter, values)[i].timestamp != TickPoints(counter, values)[j].timestamp
  {
    if DecimalText(counter + i) == DecimalText(counter + j) {
      DecimalTextInjective(counter + i, counter + j);
    }
  }

  /** On the initial data the initial range keeps all three points. */
  lemma InitialFilterKeepsAll()
    ensures Filter(InitialChart().dateData, InitialChart().timeRange) == InitialChart().dateData
  {
    var st := InitialChart();
    assert st.timeRange == TimeRange(MonthText("2023-", 1), MonthText("2023-", 12)) by {
      assert DecimalText(1) == "1";
      assert DecimalText(12) == "12";
    }
    forall i | 0 <= i < |st.dateData|
      ensures Contains(st.timeRange, st.dateData[i].date)
    {
      assert DecimalText(i + 1) == [DigitChar(i + 1)];
      assert st.dateData[i].date == MonthText("2023-", i + 1);
      MonthRangeIsInterval("2023-", 1, 12, i + 1);
    }
    FilterAllInside(st.dateData, st.timeRange);
  }

  /** The component object, whose methods update its fields in place. */
  class ChartComponentView {
    var dateData: seq<DateValue>
    var chartType: ChartType
    var timeRange: TimeRange
    var timestampData: seq<TimestampValue>
    var maxPoints: nat
    var counter: nat

    function State(): ChartState
      reads this
    {
      ChartState(dateData, chartType, timeRange, timestampData, maxPoints, counter)
    }

    ghost predicate Valid()
      reads this
    {
      ValidChart(State())
    }

    constructor ()
      ensures State() == InitialChart() && Valid()
    {
      dateData := [DateValue("2023-01", 200.0), DateValue("2023-02", 250.0), DateValue("2023-03", 220.0)];
      chartType := Line;
      timeRange := TimeRange("2023-01", "2023-12");
      timestampData := [TimestampValue("T0", 100.0), TimestampValue("T1", 150.0), TimestampValue("T2", 120.0)];
      maxPoints := 20;
      counter := 3;
    }

    /** `filtered_data`. */
    function FilteredData(): (r: seq<DateValue>)
      reads this
      ensures forall i | 0 <= i < |r| :: r[i] in dateData && Contains(timeRange, r[i].date)
      ensures forall x | x in dateData && Contains(timeRange, x.date) :: x in r
    {
      Filter(dateData, timeRange)
    }

    /** `add_data_point`. */
    method AddDataPoint(point: TimestampValue)
      modifies this`timestampData
      ensures timestampData == Slide(old(timestampData), point, maxPoints)
      ensures old(Valid()) ==> Valid()
    {
      timestampData := timestampData + [point];
      if |timestampData| > maxPoints {
        timestampData := timestampData[1..];
      }
    }

    /** One tick of the update loop; `value` is the new reading the loop computes. */
    method Tick(value: Value)
      requires Valid()
      modifies this`timestampData, this`counter
      ensures State() == TickState(old(State()), value)
      ensures Valid()
    {
      var point := TimestampValue(DecimalText(counter), value);
      AddDataPoint(point);
      counter := counter + 1;
    }

    /** `real_time_updates`: whether the loop is started now, and the series the chart shows. */
    method RealTimeUpdates() returns (startAutoUpdate: bool, series: seq<TimestampValue>)
      ensures startAutoUpdate <==> ShouldStartAutoUpdate(State())
      ensures series == timestampData
    {
      startAutoUpdate := counter == 3;
      series := timestampData;
    }
  }

  // ---------------------------------------------------------------------------
  // Sampling a large series

  /** `iter().step_by(step)`: the elements at indices 0, step, 2*step, ... */
  function StepBy<T>(s: seq<T>, step: nat): (r: seq<T>)
    requires step >= 1
    ensures |r| <= |s| && (|r| == 0 <==> |s| == 0)
    decreases |s|
  {
    if |s| == 0 then []
    else if |s| <= step then [s[0]]
    else [s[0]] + StepBy(s[step..], step)
  }

  /** `step_by` keeps ceil(|s| / step) elements, the k-th being element step*k. */
  lemma StepByElements<T>(s: seq<T>, step: nat)
    requires step >= 1
    ensures (|StepBy(s, step)| - 1) * step < |s| <= |StepBy(s, step)| * step
    ensures forall k | 0 <= k < |StepBy(s, step)| :: step * k < |s| && StepBy(s, step)[k] == s[step * k]
  {
    StepByLength(s, step);
    forall k | 0 <= k < |StepBy(s, step)|
      ensures step * k < |s| && StepBy(s, step)[k] == s[step * k]
    {
      StepByIndex(s, step, k);
    }
  }

  /** `step_by` keeps ceil(|s| / step) elements. */
  lemma {:induction false} StepByLength<T>(s: seq<T>, step: nat)
    requires step >= 1
    ensures (|StepBy(s, step)| - 1) * step < |s| <= |StepBy(s, step)| * step
    decreases |s|
  {
    if |s| > step {
      var rest := StepBy(s[step..], step);
      StepByLength(s[step..], step);
      assert |StepBy(s, step)| == |rest| + 1;
      MulSucc(|rest| - 1, step);
      MulSucc(|rest|, step);
    }
  }

  /** Element `k` of `step_by` is element `step * k` of the input. */
  lemma {:induction false} StepByIndex<T>(s: seq<T>, step: nat, k: nat)
    requires step >= 1 && k < |StepBy(s, step)|
    ensures step * k < |s| && StepBy(s, step)[k] == s[step * k]
    decreases k
  {
    if k > 0 {
      var t := s[step..];
      assert StepBy(s, step) == [s[0]] + StepBy(t, step);
      StepByIndex(t, step, k - 1);
      MulSucc(k - 1, step);
      assert StepBy(s, step)[k] == StepBy(t, step)[k - 1];
      assert t[step * (k - 1)] == s[step * k];
    }
  }

  /** `(a + 1) * b` unfolded, in both argument orders. */
  lemma MulSucc(a: int, b: int)
    ensures (a + 1) * b == a * b + b && b * (a + 1) == b * a + b
  {
  }

  /** Point `i` of the large generated series; `wave(i)` stands for its computed value. */
  function GeneratedPoint(i: nat, wave: nat -> Value): DateValue {
    DateValue("2023-" + ZeroPad(i + 1, 3), wave(i))
  }

  /** `large_datasets`: generate 1000 points, then keep every fifth. */
  method LargeDatasets(wave: nat -> Value) returns (sampled: seq<DateValue>)
    ensures |sampled| == 200
    ensures forall k | 0 <= k < 200 :: sampled[k] == GeneratedPoint(5 * k, wave)
  {
    var data: seq<DateValue> := [];
    for i := 0 to 1000
      invariant |data| == i
      invariant forall j | 0 <= j < i :: data[j] == GeneratedPoint(j, wave)
    {
      data := data + [DateValue("2023-" + ZeroPad(i + 1, 3), wave(i))];
    }
    sampled := StepBy(data, 5);
    StepByElements(data, 5);
  }

  /** The generated dates are pairwise distinct. */
  lemma GeneratedDatesDistinct(i: nat, j: nat, wave: nat -> Value)
    requires i != j
    ensures GeneratedPoint(i, wave).date != GeneratedPoint(j, wave).date
  {
    ZeroPadRoundTrip(i + 1, 3);
    ZeroPadRoundTrip(j + 1, 3);
    var di, dj := GeneratedPoint(i, wave).date, GeneratedPoint(j, wave).date;
    assert di[5..] == ZeroPad(i + 1, 3) && dj[5..] == ZeroPad(j + 1, 3);
  }
}
