/**
 * The revenue-intelligence page's computations: the derived metrics of
 * the revenue breakdown (total, recurring share, velocity and its
 * label), the waterfall's bars, the source filter of the pie chart, the
 * cohort heatmap's axes and points, and the concentration series.
 */
module RevenueIntelligence {

  import opened Wrappers
  import opened Text
  import opened Js

  /** A row of the revenue breakdown. */
  datatype SourceItem = SourceItem(source: string, revenue: JsNumber)

  /** The sum of the rows' revenue, as `reduce` adds it. */
  function TotalRevenue(items: seq<SourceItem>): (total: real)
    ensures (forall i | 0 <= i < |items| :: OrZero(items[i].revenue) >= 0.0) ==> total >= 0.0
    decreases |items|
  {
    if items == [] then 0.0 else TotalRevenue(items[..|items| - 1]) + OrZero(items[|items| - 1].revenue)
  }

  /** `items.find(i => i.source === source)?.revenue || 0`. */
  function SourceRevenue(items: seq<SourceItem>, source: string): (r: real)
    ensures (forall i | 0 <= i < |items| :: items[i].source != source) ==> r == 0.0
    decreases |items|
  {
    if items == [] then 0.0
    else if items[0].source == source then OrZero(items[0].revenue)
    else
      var r := SourceRevenue(items[1..], source);
      assert forall i | 1 <= i < |items| :: items[i] == items[1..][i - 1];
      r
  }

  /** The row `find` stops at: the first of that source gives its revenue, 0 when falsy. */
  lemma {:induction false} SourceRevenueFirst(items: seq<SourceItem>, source: string, i: nat)
    requires i < |items| && items[i].source == source
    requires forall j | 0 <= j < i :: items[j].source != source
    ensures SourceRevenue(items, source) == OrZero(items[i].revenue)
    decreases i
  {
    if i > 0 {
      assert items[0].source != source;
      assert forall j | 0 <= j < i - 1 :: items[1..][j] == items[j + 1];
      SourceRevenueFirst(items[1..], source, i - 1);
    }
  }

  /** With no negative revenue, no single source exceeds the total. */
  lemma {:induction false} SourceWithinTotal(items: seq<SourceItem>, source: string)
    requires forall i | 0 <= i < |items| :: OrZero(items[i].revenue) >= 0.0
    ensures 0.0 <= SourceRevenue(items, source) <= TotalRevenue(items)
    decreases |items|
  {
    if items != [] {
      SourceWithinTotal(items[1..], source);
      TotalSplitsAtHead(items);
    }
  }

  /** The total is the first row's revenue plus the rest's. */
  lemma {:induction false} TotalSplitsAtHead(items: seq<SourceItem>)
    requires items != []
    ensures TotalRevenue(items) == OrZero(items[0].revenue) + TotalRevenue(items[1..])
    decreases |items|
  {
    if |items| > 1 {
      var init := items[..|items| - 1];
      TotalSplitsAtHead(init);
      assert init[1..] == items[1..][..|items[1..]| - 1];
    }
  }

  datatype Health = Excellent | GoodHealth | Fair | Poor

  /** The label of a velocity: above 5, above 2, above 0, or not above 0. */
  function HealthOf(velocity: real): (h: Health)
    ensures h == Excellent <==> velocity > 5.0
    ensures h == GoodHealth <==> 2.0 < velocity <= 5.0
    ensures h == Fair <==> 0.0 < velocity <= 2.0
    ensures h == Poor <==> velocity <= 0.0
  {
    if velocity > 5.0 then Excellent else if velocity > 2.0 then GoodHealth else if velocity > 0.0 then Fair else Poor
  }

  /** The colour of the velocity gauge's needle. */
  function GaugeColor(velocity: real): (c: string)
    ensures c in {"#10b981", "#06b6d4", "#f59e0b", "#ef4444"}
    ensures c == "#10b981" <==> velocity > 5.0
    ensures c == "#ef4444" <==> velocity <= 0.0
  {
    if velocity > 5.0 then "#10b981" else if velocity > 2.0 then "#06b6d4" else if velocity > 0.0 then "#f59e0b" else "#ef4444"
  }

  /** The gauge's colour and the health label band velocities alike. */
  lemma GaugeFollowsHealth(velocity: real)
    ensures GaugeColor(velocity) == match HealthOf(velocity)
                                    case Excellent => "#10b981"
                                    case GoodHealth => "#06b6d4"
                                    case Fair => "#f59e0b"
                                    case Poor => "#ef4444"
  {
  }

  datatype Metrics = Metrics(total: real, recurringPercentage: real, velocity: real, health: Health)

  /** `metrics`: nothing until the breakdown loads; the recurring share guarded against a total that is not positive. */
  function MetricsOf(breakdown: Option<seq<SourceItem>>, velocity: JsNumber): (r: Option<Metrics>)
    ensures r.None? <==> breakdown.None?
    ensures r.Some? ==> r.value.total == TotalRevenue(breakdown.value)
    ensures r.Some? && r.value.total <= 0.0 ==> r.value.recurringPercentage == 0.0
    ensures r.Some? && r.value.total > 0.0 ==>
              r.value.recurringPercentage == Percent(SourceRevenue(breakdown.value, "recurring"), r.value.total)
    ensures r.Some? ==> r.value.velocity == OrZero(velocity) && r.value.health == HealthOf(OrZero(velocity))
  {
    if breakdown.None? then None
    else
      var total := TotalRevenue(breakdown.value);
      var recurring := SourceRevenue(breakdown.value, "recurring");
      var v := OrZero(velocity);
      if total > 0.0 then Some(Metrics(total, Percent(recurring, total), v, HealthOf(v)))
      else Some(Metrics(total, 0.0, v, HealthOf(v)))
  }

  /** `part / whole * 100`: multiplied back by its whole, a hundred times the part. */
  function Percent(part: real, whole: real): (p: real)
    requires whole != 0.0
    ensures p * whole == part * 100.0
  {
    var q := part / whole;
    assert q * whole == part;
    assert q * 100.0 * whole == q * whole * 100.0;
    q * 100.0
  }

  /** With no negative revenue the recurring share is a percentage. */
  lemma RecurringShareBounded(items: seq<SourceItem>, velocity: JsNumber)
    requires forall i | 0 <= i < |items| :: OrZero(items[i].revenue) >= 0.0
    ensures 0.0 <= MetricsOf(Some(items), velocity).value.recurringPercentage <= 100.0
  {
    SourceWithinTotal(items, "recurring");
    var total := TotalRevenue(items);
    if total > 0.0 {
      PartOfWhole(SourceRevenue(items, "recurring"), total);
    }
  }

  /** A part of a positive whole is at most a hundred percent of it. */
  lemma PartOfWhole(part: real, whole: real)
    requires 0.0 <= part <= whole && whole > 0.0
    ensures 0.0 <= Percent(part, whole) <= 100.0
  {
    var q := part / whole;
    assert q * whole == part;
    assert Percent(part, whole) == q * 100.0;
  }

  // ---------------------------------------------------------------
  // Waterfall and sources
  // ---------------------------------------------------------------

  function Abs(x: real): real {
    if x < 0.0 then -x else x
  }

  /** The six bars of the waterfall: starting, new, expansion, contraction, churn and ending. */
  function WaterfallBars(items: seq<SourceItem>): (bars: seq<real>)
    ensures |bars| == 6
    ensures bars[3] <= 0.0 && bars[4] <= 0.0
    ensures bars[5] == SourceRevenue(items, "starting") + SourceRevenue(items, "new") + SourceRevenue(items, "expansion")
                       - SourceRevenue(items, "contraction") - SourceRevenue(items, "churn")
  {
    var starting := SourceRevenue(items, "starting");
    var newRevenue := SourceRevenue(items, "new");
    var expansion := SourceRevenue(items, "expansion");
    var contraction := SourceRevenue(items, "contraction");
    var churn := SourceRevenue(items, "churn");
    [starting, newRevenue, expansion, -Abs(contraction), -Abs(churn),
     starting + newRevenue + expansion - contraction - churn]
  }

  /** When contraction and churn are reported as positive amounts, the ending bar is the sum of the five before it. */
  lemma WaterfallAddsUp(items: seq<SourceItem>)
    requires SourceRevenue(items, "contraction") >= 0.0 && SourceRevenue(items, "churn") >= 0.0
    ensures var bars := WaterfallBars(items);
            bars[5] == bars[0] + bars[1] + bars[2] + bars[3] + bars[4]
  {
  }

  const ChartSources: seq<string> := ["new", "recurring", "expansion"]

  /** The pie chart's rows: those of the three sources it shows, in order. */
  function SourceFilter(items: seq<SourceItem>): (r: seq<SourceItem>)
    ensures |r| <= |items|
    ensures forall x :: x in r <==> x in items && x.source in ChartSources
    ensures forall x :: multiset(r)[x] == if x.source in ChartSources then multiset(items)[x] else 0
    decreases |items|
  {
    if items == [] then []
    else
      var init := SourceFilter(items[..|items| - 1]);
      var last := items[|items| - 1];
      assert items == items[..|items| - 1] + [last];
      assert multiset(items) == multiset(items[..|items| - 1]) + multiset{last};
      if last.source in ChartSources then init + [last] else init
  }

  // ---------------------------------------------------------------
  // Cohort heatmap
  // ---------------------------------------------------------------

  /** A strict total order given as a comparison. */
  ghost predicate StrictTotalOrder<T(!new)>(lt: (T, T) -> bool) {
    (forall a :: !lt(a, a))
    && (forall a, b, c :: lt(a, b) && lt(b, c) ==> lt(a, c))
    && (forall a, b :: a != b ==> lt(a, b) || lt(b, a))
  }

  predicate Ascending<T>(s: seq<T>, lt: (T, T) -> bool) {
    forall i, j | 0 <= i < j < |s| :: lt(s[i], s[j])
  }

  /** `x` added to a strictly ascending list, unless it is already there. */
  function Insert<T(==,!new)>(s: seq<T>, x: T, lt: (T, T) -> bool): (r: seq<T>)
    requires StrictTotalOrder(lt) && Ascending(s, lt)
    ensures Ascending(r, lt)
    ensures forall y :: y in r <==> y in s || y == x
    decreases |s|
  {
    if s == [] then [x]
    else if x == s[0] then s
    else if lt(x, s[0]) then [x] + s
    else
      var rest := Insert(s[1..], x, lt);
      assert forall y | y in rest :: y in s[1..] || y == x;
      assert forall y | y in s[1..] :: lt(s[0], y);
      [s[0]] + rest
  }

  /** `[...new Set(xs)].sort(compare)`: the distinct values, in ascending order. */
  function SortedDistinct<T(==,!new)>(xs: seq<T>, lt: (T, T) -> bool): (r: seq<T>)
    requires StrictTotalOrder(lt)
    ensures Ascending(r, lt)
    ensures forall y :: y in r <==> y in xs
    decreases |xs|
  {
    if xs == [] then []
    else
      var r := Insert(SortedDistinct(xs[..|xs| - 1], lt), xs[|xs| - 1], lt);
      assert xs == xs[..|xs| - 1] + [xs[|xs| - 1]];
      r
  }

  /** A strictly ascending list has no value twice. */
  lemma AscendingDistinct<T(!new)>(s: seq<T>, lt: (T, T) -> bool)
    requires StrictTotalOrder(lt) && Ascending(s, lt)
    ensures forall i, j | 0 <= i < j < |s| :: s[i] != s[j]
  {
  }

  /** The order of JavaScript's default sort on strings. */
  function TextOrder(): (T: (string, string) -> bool)
    ensures StrictTotalOrder(T)
  {
    var lt := (a: string, b: string) => StrLt(a, b);
    assert StrictTotalOrder(lt) by {
      forall a: string ensures !lt(a, a) {
        StrLtIrreflexive(a);
      }
      forall a: string, b: string, c: string | lt(a, b) && lt(b, c) ensures lt(a, c) {
        StrLtTransitive(a, b, c);
      }
      forall a: string, b: string | a != b ensures lt(a, b) || lt(b, a) {
        StrLtTotal(a, b);
      }
    }
    lt
  }

  /** The numeric order of `(a, b) => a - b`. */
  function NumericOrder(): (T: (int, int) -> bool)
    ensures StrictTotalOrder(T)
  {
    (a: int, b: int) => a < b
  }

  /** `s.indexOf(x)`: the first position of `x`, or -1. */
  function IndexOf<T(==)>(s: seq<T>, x: T): (i: int)
    ensures x in s ==> 0 <= i < |s| && s[i] == x
    ensures x in s ==> forall j | 0 <= j < i :: s[j] != x
    ensures x !in s ==> i == -1
    decreases |s|
  {
    if s == [] then -1
    else if s[0] == x then 0
    else
      var i := IndexOf(s[1..], x);
      assert forall j | 1 <= j < |s| :: s[j] == s[1..][j - 1];
      if i == -1 then -1 else i + 1
  }

  /** A row of the cohort revenue report. */
  datatype CohortItem = CohortItem(cohort: string, monthNumber: int, revenue: JsNumber)

  function CohortsOf(data: seq<CohortItem>): seq<string> {
    seq(|data|, i requires 0 <= i < |data| => data[i].cohort)
  }

  function MonthsOf(data: seq<CohortItem>): seq<int> {
    seq(|data|, i requires 0 <= i < |data| => data[i].monthNumber)
  }

  /** A heatmap point sits at its row's month and cohort and carries its revenue. */
  predicate Locates(point: (int, int, real), item: CohortItem, cohorts: seq<string>, months: seq<int>) {
    0 <= point.0 < |months| && months[point.0] == item.monthNumber
    && 0 <= point.1 < |cohorts| && cohorts[point.1] == item.cohort
    && point.2 == OrZero(item.revenue)
  }

  /**
   * The heatmap's axes and points: the distinct cohorts in text order,
   * the distinct months in numeric order, and one point per row whose
   * indices locate that row's cohort and month on the axes.
   */
  method CohortHeatmap(data: seq<CohortItem>) returns (cohorts: seq<string>, months: seq<int>, points: seq<(int, int, real)>)
    ensures Ascending(cohorts, TextOrder()) && (forall c :: c in cohorts <==> c in CohortsOf(data))
    ensures Ascending(months, NumericOrder()) && (forall m :: m in months <==> m in MonthsOf(data))
    ensures |points| == |data|
    ensures forall k | 0 <= k < |data| ::
              0 <= points[k].0 < |months| && months[points[k].0] == data[k].monthNumber
              && 0 <= points[k].1 < |cohorts| && cohorts[points[k].1] == data[k].cohort
              && points[k].2 == OrZero(data[k].revenue)
  {
    cohorts := SortedDistinct(CohortsOf(data), TextOrder());
    months := SortedDistinct(MonthsOf(data), NumericOrder());
    points := [];
    var k := 0;
    while k < |data|
      invariant 0 <= k <= |data|
      invariant |points| == k
      invariant forall l | 0 <= l < k :: Locates(points[l], data[l], cohorts, months)
    {
      var item := data[k];
      assert item.cohort == CohortsOf(data)[k] && item.monthNumber == MonthsOf(data)[k];
      var point := (IndexOf(months, item.monthNumber), IndexOf(cohorts, item.cohort), OrZero(item.revenue));
      assert Locates(point, item, cohorts, months);
      points := points + [point];
      k := k + 1;
    }
  }

  // ---------------------------------------------------------------
  // Concentration
  // ---------------------------------------------------------------

  /** A row of the revenue concentration report. */
  datatype ConcentrationItem = ConcentrationItem(revenue: JsNumber, cumulativePercentage: JsNumber)

  /** The running revenue of the concentration rows; a row type of its own, so a sum of its own. */
  function ConcentrationTotal(data: seq<ConcentrationItem>): real
    decreases |data|
  {
    if data == [] then 0.0 else ConcentrationTotal(data[..|data| - 1]) + OrZero(data[|data| - 1].revenue)
  }

  /**
   * The Pareto chart's loop: the running revenue and the line of cumulative
   * percentages, row by row.  The page never reads the running revenue after
   * the loop; only the line reaches the chart.
   */
  method Concentration(data: seq<ConcentrationItem>) returns (cumulative: real, line: seq<JsNumber>)
    ensures cumulative == ConcentrationTotal(data)
    ensures |line| == |data| && forall k | 0 <= k < |data| :: line[k] == data[k].cumulativePercentage
  {
    cumulative := 0.0;
    line := [];
    var k := 0;
    while k < |data|
      invariant 0 <= k <= |data|
      invariant cumulative == ConcentrationTotal(data[..k])
      invariant |line| == k && forall l | 0 <= l < k :: line[l] == data[l].cumulativePercentage
    {
      assert data[..k + 1][..k] == data[..k];
      cumulative := cumulative + OrZero(data[k].revenue);
      line := line + [data[k].cumulativePercentage];
      k := k + 1;
    }
    assert data[..|data|] == data;
  }
}
