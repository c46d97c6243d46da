/**
 * The product-performance page's computations: the summary metrics over
 * the product matrix, the BCG quadrant of a product, the searched,
 * quadrant-filtered and sorted product table, the sort toggle and the
 * trend icon.  A product is its name and its numeric columns; a missing
 * or empty column reads as 0, as `parseFloat(x || 0)` does.
 */
module ProductPerformance {

  import opened Wrappers
  import opened Text
  import StatsQuery

  /** A row of a product report. */
  datatype Product = Product(name: Option<string>, numbers: map<string, real>)

  /** `parseFloat(p[key] || 0)`. */
  function Field(p: Product, key: string): real {
    if key in p.numbers then p.numbers[key] else 0.0
  }

  /**
   * The sum of a column over a list, added left to right as `reduce` does.
   * Each page sums its own kind of row (`SumSpent`, `TotalRevenue`,
   * `ConcentrationTotal`), so each keeps its own sum beside the lemmas about it.
   */
  function SumField(ps: seq<Product>, key: string): real
    decreases |ps|
  {
    if ps == [] then 0.0 else SumField(ps[..|ps| - 1], key) + Field(ps[|ps| - 1], key)
  }

  /** The sum of the unit counts, each read by `parseInt`, which truncates a number toward zero. */
  function SumUnits(ps: seq<Product>): int
    decreases |ps|
  {
    if ps == [] then 0 else SumUnits(ps[..|ps| - 1]) + StatsQuery.Truncate(Field(ps[|ps| - 1], "units_sold"))
  }

  /** The number of products with revenue in the period. */
  function CountActive(ps: seq<Product>): (n: nat)
    ensures n <= |ps|
    decreases |ps|
  {
    if ps == [] then 0
    else CountActive(ps[..|ps| - 1]) + (if Field(ps[|ps| - 1], "current_revenue") > 0.0 then 1 else 0)
  }

  /** Every product counted as active has revenue, and none without it is counted. */
  lemma {:induction false} CountActiveBounds(ps: seq<Product>)
    ensures CountActive(ps) == |ps| <==> forall i | 0 <= i < |ps| :: Field(ps[i], "current_revenue") > 0.0
    ensures CountActive(ps) == 0 <==> forall i | 0 <= i < |ps| :: Field(ps[i], "current_revenue") <= 0.0
    decreases |ps|
  {
    if ps != [] {
      var init := ps[..|ps| - 1];
      CountActiveBounds(init);
      assert forall i | 0 <= i < |init| :: init[i] == ps[i];
    }
  }

  datatype Summary = Summary(totalRevenue: real, totalUnits: int, avgGrowth: real, activeProducts: nat, avgAov: real)

  /** `summaryMetrics`: nothing before the matrix loads; the averages guarded against empty lists and zero units. */
  function SummaryMetrics(matrix: Option<seq<Product>>): (r: Option<Summary>)
    ensures r.None? <==> matrix.None?
    ensures r.Some? ==> r.value.totalRevenue == SumField(matrix.value, "current_revenue")
    ensures r.Some? ==> r.value.totalUnits == SumUnits(matrix.value)
    ensures r.Some? ==> r.value.activeProducts == CountActive(matrix.value) <= |matrix.value|
    ensures r.Some? && matrix.value == [] ==> r.value.avgGrowth == 0.0 && r.value.avgAov == 0.0 && r.value.totalUnits == 0
    ensures r.Some? && matrix.value != [] ==> r.value.avgGrowth * (|matrix.value| as real) == SumField(matrix.value, "growth_rate")
    ensures r.Some? && r.value.totalUnits <= 0 ==> r.value.avgAov == 0.0
    ensures r.Some? && r.value.totalUnits > 0 ==> r.value.avgAov * (r.value.totalUnits as real) == r.value.totalRevenue
  {
    if matrix.None? then None
    else
      var ps := matrix.value;
      var revenue := SumField(ps, "current_revenue");
      var units := SumUnits(ps);
      Some(Summary(revenue, units,
                   if |ps| > 0 then SumField(ps, "growth_rate") / (|ps| as real) else 0.0,
                   CountActive(ps),
                   if units > 0 then revenue / (units as real) else 0.0))
  }

  // ---------------------------------------------------------------
  // Quadrants
  // ---------------------------------------------------------------

  /** The BCG quadrants, against the average revenue and growth. */
  datatype Quadrant = Stars | CashCows | QuestionMarks | Dogs

  function QuadrantOf(revenue: real, growth: real, avgRevenue: real, avgGrowth: real): (q: Quadrant)
    ensures q == Stars <==> revenue >= avgRevenue && growth >= avgGrowth
    ensures q == CashCows <==> revenue >= avgRevenue && growth < avgGrowth
    ensures q == QuestionMarks <==> revenue < avgRevenue && growth >= avgGrowth
    ensures q == Dogs <==> revenue < avgRevenue && growth < avgGrowth
  {
    if revenue >= avgRevenue then (if growth >= avgGrowth then Stars else CashCows)
    else (if growth >= avgGrowth then QuestionMarks else Dogs)
  }

  /** The value of the quadrant selector that shows a quadrant. */
  function QuadrantName(q: Quadrant): string {
    match q
    case Stars => "stars"
    case CashCows => "cash-cows"
    case QuestionMarks => "question-marks"
    case Dogs => "dogs"
  }

  const QuadrantNames: seq<string> := ["stars", "cash-cows", "question-marks", "dogs"]

  /** `getQuadrantColor`. */
  function QuadrantColor(revenue: real, growth: real, avgRevenue: real, avgGrowth: real): (c: string)
    ensures c in {"#10b981", "#0ea5e9", "#f59e0b", "#ef4444"}
    ensures c == "#10b981" <==> revenue >= avgRevenue && growth >= avgGrowth
  {
    if revenue >= avgRevenue && growth >= avgGrowth then "#10b981"
    else if revenue >= avgRevenue && growth < avgGrowth then "#0ea5e9"
    else if revenue < avgRevenue && growth >= avgGrowth then "#f59e0b"
    else "#ef4444"
  }

  /** The quadrant filter's test for one product. */
  predicate InQuadrant(selected: string, revenue: real, growth: real, avgRevenue: real, avgGrowth: real)
    ensures selected !in QuadrantNames ==> InQuadrant(selected, revenue, growth, avgRevenue, avgGrowth)
  {
    match selected
    case "stars" => revenue >= avgRevenue && growth >= avgGrowth
    case "cash-cows" => revenue >= avgRevenue && growth < avgGrowth
    case "question-marks" => revenue < avgRevenue && growth >= avgGrowth
    case "dogs" => revenue < avgRevenue && growth < avgGrowth
    case _ => true
  }

  /**
   * A product passes exactly one of the four quadrant filters, the one of
   * its quadrant, which is also the quadrant its colour shows.
   */
  lemma QuadrantsPartition(revenue: real, growth: real, avgRevenue: real, avgGrowth: real)
    ensures var q := QuadrantOf(revenue, growth, avgRevenue, avgGrowth);
            forall name | name in QuadrantNames :: InQuadrant(name, revenue, growth, avgRevenue, avgGrowth) <==> name == QuadrantName(q)
    ensures var q := QuadrantOf(revenue, growth, avgRevenue, avgGrowth);
            QuadrantColor(revenue, growth, avgRevenue, avgGrowth)
              == match q case Stars => "#10b981" case CashCows => "#0ea5e9" case QuestionMarks => "#f59e0b" case Dogs => "#ef4444"
  {
  }

  // ---------------------------------------------------------------
  // The product table
  // ---------------------------------------------------------------

  /** The search test: the lower-cased name (empty when missing) contains the lower-cased term. */
  predicate Matches(p: Product, term: string)
    ensures term == "" ==> Matches(p, term)
    ensures Matches(p, term) ==> |term| <= |p.name.GetOr("")|
  {
    var name, t := ToLowerAscii(p.name.GetOr("")), ToLowerAscii(term);
    if Contains(name, t) then
      ContainsFits(name, t);
      true
    else
      assert t == [] ==> StartsWith(name, t);
      false
  }

  /** The products matching the search, in their order. */
  function SearchFilter(ps: seq<Product>, term: string): (r: seq<Product>)
    ensures |r| <= |ps|
    ensures forall p :: p in r <==> p in ps && Matches(p, term)
    ensures forall p :: multiset(r)[p] == if Matches(p, term) then multiset(ps)[p] else 0
    decreases |ps|
  {
    if ps == [] then []
    else
      var init := SearchFilter(ps[..|ps| - 1], term);
      var last := ps[|ps| - 1];
      assert ps == ps[..|ps| - 1] + [last];
      assert multiset(ps) == multiset(ps[..|ps| - 1]) + multiset{last};
      if Matches(last, term) then init + [last] else init
  }

  /** An empty search keeps the list as it is. */
  lemma {:induction false} EmptySearchKeepsAll(ps: seq<Product>)
    ensures SearchFilter(ps, "") == ps
    decreases |ps|
  {
    if ps != [] {
      EmptySearchKeepsAll(ps[..|ps| - 1]);
      assert ps == ps[..|ps| - 1] + [ps[|ps| - 1]];
    }
  }

  /** A product passes the selected quadrant's test against the averages. */
  predicate Kept(p: Product, selected: string, avgRevenue: real, avgGrowth: real) {
    InQuadrant(selected, Field(p, "total_revenue"), Field(p, "growth_rate"), avgRevenue, avgGrowth)
  }

  /** The products a quadrant test passes, in their order. */
  function KeepQuadrant(ps: seq<Product>, selected: string, avgRevenue: real, avgGrowth: real): (r: seq<Product>)
    ensures |r| <= |ps|
    ensures forall p :: p in r <==> p in ps && Kept(p, selected, avgRevenue, avgGrowth)
    ensures forall p :: multiset(r)[p] == if Kept(p, selected, avgRevenue, avgGrowth) then multiset(ps)[p] else 0
    decreases |ps|
  {
    if ps == [] then []
    else
      var init := KeepQuadrant(ps[..|ps| - 1], selected, avgRevenue, avgGrowth);
      var last := ps[|ps| - 1];
      assert ps == ps[..|ps| - 1] + [last];
      assert multiset(ps) == multiset(ps[..|ps| - 1]) + multiset{last};
      if Kept(last, selected, avgRevenue, avgGrowth) then init + [last] else init
  }

  /** The quadrant filter: against the averages of the searched list, unless `all` is selected or the list is empty. */
  function QuadrantFilter(ps: seq<Product>, selected: string): (r: seq<Product>)
    ensures selected == "all" || ps == [] ==> r == ps
  {
    if selected != "all" && |ps| > 0 then
      KeepQuadrant(ps, selected, SumField(ps, "total_revenue") / (|ps| as real), SumField(ps, "growth_rate") / (|ps| as real))
    else ps
  }

  /** Every searched product is shown under exactly one of the four quadrants. */
  lemma QuadrantFiltersPartition(ps: seq<Product>, p: Product)
    requires p in ps
    ensures forall name | name in QuadrantNames :: p in QuadrantFilter(ps, name) <==>
              name == QuadrantName(QuadrantOf(Field(p, "total_revenue"), Field(p, "growth_rate"),
                                              SumField(ps, "total_revenue") / (|ps| as real),
                                              SumField(ps, "growth_rate") / (|ps| as real)))
  {
    var avgRevenue, avgGrowth := SumField(ps, "total_revenue") / (|ps| as real), SumField(ps, "growth_rate") / (|ps| as real);
    QuadrantsPartition(Field(p, "total_revenue"), Field(p, "growth_rate"), avgRevenue, avgGrowth);
    forall name | name in QuadrantNames
      ensures p in QuadrantFilter(ps, name) <==> Kept(p, name, avgRevenue, avgGrowth)
    {
      assert QuadrantFilter(ps, name) == KeepQuadrant(ps, name, avgRevenue, avgGrowth);
    }
  }

  /** The sort state of the table. */
  datatype SortConfig = SortConfig(key: string, direction: string)

  /** The column a sort key reads: the `revenue` header sorts by `total_revenue`. */
  function SortColumn(key: string): (column: string)
    ensures column != "revenue"
    ensures key != "revenue" ==> column == key
  {
    if key == "revenue" then "total_revenue" else key
  }

  /** The comparator's view of a product: its column, negated for a descending sort. */
  function Rank(p: Product, column: string, ascending: bool): real {
    if ascending then Field(p, column) else -Field(p, column)
  }

  predicate SortedBy(s: seq<Product>, column: string, ascending: bool) {
    forall i, j | 0 <= i < j < |s| :: Rank(s[i], column, ascending) <= Rank(s[j], column, ascending)
  }

  /** Sorted by rank is ascending or descending order of the column itself. */
  lemma SortedByDirection(s: seq<Product>, column: string, ascending: bool)
    requires SortedBy(s, column, ascending)
    ensures ascending ==> forall i, j | 0 <= i < j < |s| :: Field(s[i], column) <= Field(s[j], column)
    ensures !ascending ==> forall i, j | 0 <= i < j < |s| :: Field(s[i], column) >= Field(s[j], column)
  {
    forall i, j | 0 <= i < j < |s|
      ensures ascending ==> Field(s[i], column) <= Field(s[j], column)
      ensures !ascending ==> Field(s[i], column) >= Field(s[j], column)
    {
      assert Rank(s[i], column, ascending) <= Rank(s[j], column, ascending);
    }
  }

  /** The state of an insertion step: `s[..n+1]` sorted but for position `j`, which is below everything after it. */
  predicate Inserting(s: seq<Product>, n: nat, j: nat, column: string, ascending: bool)
    requires j <= n < |s|
  {
    (forall k, l | 0 <= k < l <= n && k != j && l != j :: Rank(s[k], column, ascending) <= Rank(s[l], column, ascending))
    && (forall l | j < l <= n :: Rank(s[j], column, ascending) <= Rank(s[l], column, ascending))
  }

  /** Swapping the element being inserted one place down keeps the insertion step's shape. */
  lemma SwapDown(s: seq<Product>, n: nat, j: nat, column: string, ascending: bool)
    requires 0 < j <= n < |s|
    requires Inserting(s, n, j, column, ascending)
    requires Rank(s[j - 1], column, ascending) > Rank(s[j], column, ascending)
    ensures Inserting(s[j - 1 := s[j]][j := s[j - 1]], n, j - 1, column, ascending)
  {
  }

  /** An insertion step whose element sits no lower than its left neighbour has sorted `s[..n+1]`. */
  lemma InsertionDone(s: seq<Product>, n: nat, j: nat, column: string, ascending: bool)
    requires j <= n < |s|
    requires Inserting(s, n, j, column, ascending)
    requires j > 0 ==> Rank(s[j - 1], column, ascending) <= Rank(s[j], column, ascending)
    ensures SortedBy(s[..n + 1], column, ascending)
  {
    forall k, l | 0 <= k < l <= n
      ensures Rank(s[k], column, ascending) <= Rank(s[l], column, ascending)
    {
      if l == j && k < j - 1 {
        assert Rank(s[k], column, ascending) <= Rank(s[j - 1], column, ascending);
      }
    }
  }

  /** A sorted prefix followed by the element to insert is the first insertion step. */
  lemma StartInserting(s: seq<Product>, n: nat, column: string, ascending: bool)
    requires n < |s| && SortedBy(s[..n], column, ascending)
    ensures Inserting(s, n, n, column, ascending)
  {
    forall k, l | 0 <= k < l <= n && k != n && l != n
      ensures Rank(s[k], column, ascending) <= Rank(s[l], column, ascending)
    {
      assert s[..n][k] == s[k] && s[..n][l] == s[l];
    }
  }

  /** One insertion pass: `a[n]` moves down into the sorted `a[..n]`, leaving `a[..n+1]` sorted. */
  method InsertInto(a: array<Product>, n: nat, column: string, ascending: bool)
    requires n < a.Length && SortedBy(a[..n], column, ascending)
    modifies a
    ensures SortedBy(a[..n + 1], column, ascending)
    ensures multiset(a[..]) == multiset(old(a[..]))
  {
    var j := n;
    StartInserting(a[..], n, column, ascending);
    while j > 0 && Rank(a[j - 1], column, ascending) > Rank(a[j], column, ascending)
      invariant 0 <= j <= n
      invariant multiset(a[..]) == multiset(old(a[..]))
      invariant Inserting(a[..], n, j, column, ascending)
    {
      SwapDown(a[..], n, j, column, ascending);
      a[j - 1], a[j] := a[j], a[j - 1];
      j := j - 1;
    }
    InsertionDone(a[..], n, j, column, ascending);
  }

  /** `Array.prototype.sort` with the page's comparator, as an insertion sort in place. */
  method SortInPlace(a: array<Product>, column: string, ascending: bool)
    modifies a
    ensures SortedBy(a[..], column, ascending)
    ensures multiset(a[..]) == multiset(old(a[..]))
  {
    var i := 0;
    while i < a.Length
      invariant 0 <= i <= a.Length
      invariant SortedBy(a[..i], column, ascending)
      invariant multiset(a[..]) == multiset(old(a[..]))
    {
      InsertInto(a, i, column, ascending);
      i := i + 1;
    }
    assert a[..a.Length] == a[..];
  }

  /** `filteredProducts`: search, then the quadrant filter, then the sort. */
  method FilteredProducts(top: Option<seq<Product>>, term: string, config: SortConfig, quadrant: string)
    returns (r: seq<Product>)
    ensures top.None? ==> r == []
    ensures top.Some? ==> multiset(r) == multiset(QuadrantFilter(SearchFilter(top.value, term), quadrant))
    ensures SortedBy(r, SortColumn(config.key), config.direction == "asc")
  {
    if top.None? {
      return [];
    }
    var kept := QuadrantFilter(SearchFilter(top.value, term), quadrant);
    var a := new Product[|kept|](i requires 0 <= i < |kept| => kept[i]);
    assert a[..] == kept;
    SortInPlace(a, SortColumn(config.key), config.direction == "asc");
    r := a[..];
  }

  /** `handleSort`: ascending only when the column sorted descending is clicked again. */
  function NextSortConfig(config: SortConfig, key: string): (r: SortConfig)
    ensures r.key == key
    ensures r.direction in {"asc", "desc"}
    ensures r.direction == "asc" <==> config.key == key && config.direction == "desc"
  {
    SortConfig(key, if config.key == key && config.direction == "desc" then "asc" else "desc")
  }

  /** Clicking one column repeatedly alternates its direction, starting descending. */
  lemma SortToggles(config: SortConfig, key: string)
    ensures var once := NextSortConfig(config, key);
            var twice := NextSortConfig(once, key);
            twice.key == key && twice.direction != once.direction
            && NextSortConfig(twice, key) == once
  {
  }

  datatype Trend = Up | Down | Flat

  /** `getTrendIcon`: a growth rate beyond five percent either way is a trend. */
  function TrendOf(growthRate: real): (t: Trend)
    ensures t == Up <==> growthRate > 5.0
    ensures t == Down <==> growthRate < -5.0
    ensures t == Flat <==> -5.0 <= growthRate <= 5.0
  {
    if growthRate > 5.0 then Up else if growthRate < -5.0 then Down else Flat
  }
}
