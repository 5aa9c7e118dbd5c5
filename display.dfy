/**
 * The numbers the tracker's render code derives from its state: the
 * progress bar's colour class (`updateUI`), each history day's status
 * (`renderHistory`), the order days are listed in, and the trend chart's
 * series and average (`updateChart`). Percentages are exact rationals here.
 */
module Display {
  import opened Entities
  import opened Dates
  import opened Sorting
  import opened Lists
  import opened Bmr

  /** `(total / goal) * 100` is at least `bound` exactly when `100 * total >= bound * goal`. */
  lemma PercentAtLeast(total: int, goal: int, bound: int)
    ensures goal > 0 ==>
      (total as real / goal as real * 100.0 >= bound as real <==> 100 * total >= bound * goal)
  {
    if goal <= 0 { return; }
    var x := total as real / goal as real;
    assert x * goal as real == total as real;
    if x * 100.0 >= bound as real {
      assert x * 100.0 * goal as real >= bound as real * goal as real;
    } else {
      assert x * 100.0 * goal as real < bound as real * goal as real;
    }
  }

  /** The progress bar's extra class: none, `warning` or `danger`. */
  datatype Progress = Plain | Warning | Danger

  function ProgressClass(total: int, goal: int): (p: Progress)
    ensures goal > 0 ==> (p == Danger <==> total >= goal)
    ensures goal > 0 ==> (p == Warning <==> 4 * goal <= 5 * total && total < goal)
    ensures goal > 0 ==> (p == Plain <==> 5 * total < 4 * goal)
  {
    if goal == 0 then
      // total / 0 is Infinity for total > 0 (capped at 100: danger), NaN for 0 and
      // -Infinity below 0; neither of the last two reaches any threshold
      if total > 0 then Danger else Plain
    else
      var ratio := total as real / goal as real * 100.0;
      var percentage := if ratio < 100.0 then ratio else 100.0;
      PercentAtLeast(total, goal, 100);
      PercentAtLeast(total, goal, 80);
      if percentage >= 100.0 then Danger else if percentage >= 80.0 then Warning else Plain
  }

  /** A history day's badge: On Track, Near Goal or Over Goal. */
  datatype Status = OnTrack | NearGoal | OverGoal

  function DayStatus(total: int, goal: int): (s: Status)
    ensures goal > 0 ==> (s == OverGoal <==> total >= goal)
    ensures goal > 0 ==> (s == NearGoal <==> 9 * goal <= 10 * total && total < goal)
    ensures goal > 0 ==> (s == OnTrack <==> 10 * total < 9 * goal)
  {
    if goal == 0 then
      if total > 0 then OverGoal else OnTrack
    else
      var percentage := total as real / goal as real * 100.0;
      PercentAtLeast(total, goal, 100);
      PercentAtLeast(total, goal, 90);
      if percentage >= 100.0 then OverGoal else if percentage >= 90.0 then NearGoal else OnTrack
  }

  /** The chart's comparator `new Date(a.date) - new Date(b.date)`: earlier dates first. */
  predicate EarlierDate(a: DayRecord, b: DayRecord) {
    Before(a.date, b.date)
  }

  /** The history list's comparator `new Date(b.date) - new Date(a.date)`: latest first. */
  predicate LaterDate(a: DayRecord, b: DayRecord) {
    Before(b.date, a.date)
  }

  lemma DateOrdersAreStrict()
    ensures StrictOrder(EarlierDate) && StrictOrder(LaterDate)
  {
    forall a: DayRecord
      ensures !EarlierDate(a, a)
    {
      BeforeIrreflexive(a.date);
    }
    forall a: DayRecord
      ensures !LaterDate(a, a)
    {
      BeforeIrreflexive(a.date);
    }
    forall a: DayRecord, b: DayRecord, c: DayRecord | EarlierDate(a, b) && EarlierDate(b, c)
      ensures EarlierDate(a, c)
    {
      BeforeTransitive(a.date, b.date, c.date);
    }
    forall a: DayRecord, b: DayRecord, c: DayRecord | LaterDate(a, b) && LaterDate(b, c)
      ensures LaterDate(a, c)
    {
      BeforeTransitive(c.date, b.date, a.date);
    }
  }

  /** `renderHistory`'s listing of the archived days (given in `Object.values` order). */
  function HistoryOrder(values: seq<DayRecord>): (days: seq<DayRecord>)
    ensures |days| == |values|
  {
    SortBy(values, LaterDate)
  }

  /** The history list shows every archived day once, latest date first. */
  lemma HistoryOrderIsLatestFirst(values: seq<DayRecord>)
    ensures multiset(HistoryOrder(values)) == multiset(values)
    ensures var days := HistoryOrder(values);
      forall i, j :: 0 <= i < j < |days| ==> !Before(days[i].date, days[j].date)
  {
    DateOrdersAreStrict();
    SortBySorted(values, LaterDate);
  }

  /** The chart's period: every archived day, or those on or after a cutoff date. */
  datatype Period = AllDays | Since(cutoff: string)

  /** `new Date(day.date) >= cutoffDate`, with the cutoff given as the first date it admits. */
  function OnOrAfter(cutoff: string): DayRecord -> bool {
    (d: DayRecord) => !Before(d.date, cutoff)
  }

  /** The days the chart plots: sorted by date, then cut to the period. */
  function ChartDays(values: seq<DayRecord>, period: Period): (days: seq<DayRecord>)
    ensures |days| <= |values|
    ensures period.AllDays? ==> |days| == |values|
  {
    var sorted := SortBy(values, EarlierDate);
    match period
    case AllDays => sorted
    case Since(cutoff) => Filter(sorted, OnOrAfter(cutoff))
  }

  function Sum(s: seq<int>): int {
    if s == [] then 0 else s[0] + Sum(s[1..])
  }

  /** Scaling `avg - 1/2 <= sum / n < avg + 1/2` by `2 n` stays in the integers. */
  lemma RoundedQuotient(sum: int, n: int)
    requires n > 0
    ensures var avg := Round(sum as real / n as real);
      2 * avg * n - n <= 2 * sum < 2 * avg * n + n
  {
    var x := sum as real / n as real;
    var avg := Round(x);
    var nr := n as real;
    var lo, hi := avg as real - 0.5, avg as real + 0.5;
    var xn, lon, hin := x * nr, lo * nr, hi * nr;
    assert xn == sum as real;
    assert lon <= xn by {
      assert xn - lon == (x - lo) * nr;
    }
    assert xn < hin by {
      var d := hi - x;
      assert d > 0.0 && nr > 0.0;
      assert d * nr > 0.0;
      assert hin - xn == d * nr;
    }
    var an := avg * n;
    assert an as real == avg as real * nr;
    assert lon == an as real - 0.5 * nr;
    assert hin == an as real + 0.5 * nr;
  }

  /** `Math.round(sum / n)`, or 0 when there is nothing to average. */
  function Average(data: seq<int>): (avg: int)
    ensures |data| == 0 ==> avg == 0
    ensures |data| > 0 ==> 2 * avg * |data| - |data| <= 2 * Sum(data) < 2 * avg * |data| + |data|
  {
    if |data| == 0 then 0
    else
      RoundedQuotient(Sum(data), |data|);
      Round(Sum(data) as real / |data| as real)
  }

  /** What `updateChart` hands to the chart and shows beside it. */
  datatype Series = Series(dates: seq<string>, data: seq<int>, goalLine: seq<int>,
                           average: int, daysTracked: int)

  function ChartSeries(values: seq<DayRecord>, period: Period): (r: Series)
    ensures var days := ChartDays(values, period);
      && r.daysTracked == |days| == |r.dates| == |r.data| == |r.goalLine|
      && forall i :: 0 <= i < |days| ==>
           r.dates[i] == days[i].date && r.data[i] == days[i].total && r.goalLine[i] == days[i].goal
    ensures forall i, j :: 0 <= i < j < |r.dates| ==> !Before(r.dates[j], r.dates[i])
    ensures r.average == Average(r.data)
  {
    var days := ChartDays(values, period);
    ChartDaysAreThePeriod(values, period);
    var dates := seq(|days|, i requires 0 <= i < |days| => days[i].date);
    var data := seq(|days|, i requires 0 <= i < |days| => days[i].total);
    var goalLine := seq(|days|, i requires 0 <= i < |days| => days[i].goal);
    Series(dates, data, goalLine, Average(data), |days|)
  }

  /**
   * The chart plots, oldest first, exactly the archived days the period
   * admits: each of them once, and nothing else.
   */
  lemma ChartDaysAreThePeriod(values: seq<DayRecord>, period: Period)
    ensures var days := ChartDays(values, period);
      && (forall i, j :: 0 <= i < j < |days| ==> !Before(days[j].date, days[i].date))
      && (period.AllDays? ==> multiset(days) == multiset(values))
      && (period.Since? ==> multiset(days) == multiset(Filter(values, OnOrAfter(period.cutoff))))
      && (period.Since? ==> forall i :: 0 <= i < |days| ==> !Before(days[i].date, period.cutoff))
  {
    DateOrdersAreStrict();
    var sorted := SortBy(values, EarlierDate);
    SortBySorted(values, EarlierDate);
    if period.Since? {
      FilterKeepsOrder(sorted, OnOrAfter(period.cutoff), EarlierDate);
      FilterPermutation(sorted, values, OnOrAfter(period.cutoff));
    }
  }

  /** With no archived days in the period the chart shows 0 days and an average of 0. */
  lemma EmptyChart(values: seq<DayRecord>, period: Period)
    requires ChartDays(values, period) == []
    ensures ChartSeries(values, period).daysTracked == 0
    ensures ChartSeries(values, period).average == 0
  {
  }
}
