/**
 * The customer-analytics page's computations: the RFM segment counts
 * (the same rules as the server's segment report), the distribution of
 * health statuses, and the summary figures over the three reports.
 */
module CustomerAnalytics {

  import opened Wrappers
  import opened Text
  import StatsQuery

  /** A customer id as the reports send it; `None` is an undefined id. */
  type CustomerId = Option<string>

  /** A row of the RFM report: the customer and the text of the three scores. */
  datatype RfmRow = RfmRow(customerId: CustomerId, recency: Option<string>, frequency: Option<string>, monetary: Option<string>)

  /** `parseInt(x) || 0`: the leading digits' value; 0 for a missing or non-numeric score. */
  function ParseScore(s: Option<string>): (n: nat)
    ensures s.None? ==> n == 0
    ensures s.Some? && (s.value == "" || !IsDigit(s.value[0])) ==> n == 0
  {
    if s.None? then 0
    else
      var d := LeadingDigits(s.value);
      if d == [] then 0 else DigitsValue(d)
  }

  /** A score sent as plain digits is read as their value. */
  lemma ParseDigits(s: string)
    requires AllDigits(s)
    ensures ParseScore(Some(s)) == DigitsValue(s)
  {
    LeadingDigitsOfDigits(s);
  }

  /** The segment the server's `CASE` gives a row with these scores. */
  function SegmentOf(row: RfmRow): (s: StatsQuery.Segment)
    ensures row.recency.Some? && row.frequency.Some? && row.monetary.Some?
            && AllDigits(row.recency.value) && AllDigits(row.frequency.value) && AllDigits(row.monetary.value)
            ==> s == StatsQuery.SqlSegment(DigitsValue(row.recency.value), DigitsValue(row.frequency.value),
                                           DigitsValue(row.monetary.value))
  {
    ScoreOfDigits(row.recency);
    ScoreOfDigits(row.frequency);
    ScoreOfDigits(row.monetary);
    StatsQuery.SqlSegment(ParseScore(row.recency), ParseScore(row.frequency), ParseScore(row.monetary))
  }

  /** A score present as plain digits is read as their value. */
  lemma ScoreOfDigits(s: Option<string>)
    ensures s.Some? && AllDigits(s.value) ==> ParseScore(s) == DigitsValue(s.value)
  {
    if s.Some? && AllDigits(s.value) {
      ParseDigits(s.value);
    }
  }

  /** The number of rows in a segment. */
  function CountSegment(rows: seq<RfmRow>, s: StatsQuery.Segment): (n: nat)
    ensures n <= |rows|
    decreases |rows|
  {
    if rows == [] then 0
    else CountSegment(rows[..|rows| - 1], s) + (if SegmentOf(rows[|rows| - 1]) == s then 1 else 0)
  }

  /** One more row adds one to its own segment's count. */
  lemma CountSegmentStep(rows: seq<RfmRow>, i: nat, s: StatsQuery.Segment)
    requires i < |rows|
    ensures CountSegment(rows[..i + 1], s) == CountSegment(rows[..i], s) + (if SegmentOf(rows[i]) == s then 1 else 0)
  {
    assert rows[..i + 1][..i] == rows[..i];
  }

  /** Counting row `i` under its segment extends the counts of the first `i` rows to the first `i + 1`. */
  lemma BucketStep(buckets: map<StatsQuery.Segment, nat>, rows: seq<RfmRow>, i: nat, s: StatsQuery.Segment)
    requires i < |rows| && s == SegmentOf(rows[i])
    requires forall t: StatsQuery.Segment :: t in buckets && buckets[t] == CountSegment(rows[..i], t)
    ensures var b := buckets[s := buckets[s] + 1];
            forall t: StatsQuery.Segment :: t in b && b[t] == CountSegment(rows[..i + 1], t)
  {
    forall t: StatsQuery.Segment ensures CountSegment(rows[..i + 1], t) == CountSegment(rows[..i], t) + (if s == t then 1 else 0) {
      CountSegmentStep(rows, i, t);
    }
  }

  const Segments: seq<StatsQuery.Segment> := [
    StatsQuery.Champions, StatsQuery.LoyalCustomers, StatsQuery.BigSpenders, StatsQuery.RecentCustomers,
    StatsQuery.AtRisk, StatsQuery.Lost, StatsQuery.Potential]

  /** The seven segments are all there are. */
  lemma EverySegmentListed(s: StatsQuery.Segment)
    ensures s in Segments
  {
    match s
    case Champions =>
    case LoyalCustomers =>
    case BigSpenders =>
    case RecentCustomers =>
    case AtRisk =>
    case Lost =>
    case Potential =>
  }

  /** The sum of the counts of the seven segments. */
  function SegmentTotal(rows: seq<RfmRow>): nat {
    CountSegment(rows, StatsQuery.Champions) + CountSegment(rows, StatsQuery.LoyalCustomers)
    + CountSegment(rows, StatsQuery.BigSpenders) + CountSegment(rows, StatsQuery.RecentCustomers)
    + CountSegment(rows, StatsQuery.AtRisk) + CountSegment(rows, StatsQuery.Lost)
    + CountSegment(rows, StatsQuery.Potential)
  }

  /** Every row lands in exactly one segment, so the seven counts add up to the number of rows. */
  lemma {:induction false} SegmentsCoverRows(rows: seq<RfmRow>)
    ensures SegmentTotal(rows) == |rows|
    decreases |rows|
  {
    if rows != [] {
      SegmentsCoverRows(rows[..|rows| - 1]);
    }
  }

  /**
   * The bar chart's buckets: each row counted under the first rule it
   * meets, with the page's own copy of the thresholds.  The counts are
   * those of the server's segment rule.
   */
  method BucketRfm(rfm: seq<RfmRow>) returns (buckets: map<StatsQuery.Segment, nat>)
    ensures forall s: StatsQuery.Segment :: s in buckets && buckets[s] == CountSegment(rfm, s)
  {
    buckets := map[StatsQuery.Champions := 0, StatsQuery.LoyalCustomers := 0, StatsQuery.BigSpenders := 0,
                   StatsQuery.RecentCustomers := 0, StatsQuery.AtRisk := 0, StatsQuery.Lost := 0,
                   StatsQuery.Potential := 0];
    forall s: StatsQuery.Segment
      ensures s in buckets && buckets[s] == CountSegment(rfm[..0], s)
    {
      EverySegmentListed(s);
    }
    var i := 0;
    while i < |rfm|
      invariant 0 <= i <= |rfm|
      invariant forall s: StatsQuery.Segment :: s in buckets && buckets[s] == CountSegment(rfm[..i], s)
    {
      var r := rfm[i];
      var recency, frequency, monetary := ParseScore(r.recency), ParseScore(r.frequency), ParseScore(r.monetary);
      var total := recency + frequency + monetary;
      var s;
      if total >= 13 {
        s := StatsQuery.Champions;
      } else if total >= 10 && recency >= 4 {
        s := StatsQuery.LoyalCustomers;
      } else if monetary >= 4 && recency + frequency >= 6 {
        s := StatsQuery.BigSpenders;
      } else if recency >= 4 && frequency <= 2 {
        s := StatsQuery.RecentCustomers;
      } else if frequency >= 4 && recency <= 2 {
        s := StatsQuery.AtRisk;
      } else if recency <= 2 && frequency <= 2 {
        s := StatsQuery.Lost;
      } else {
        s := StatsQuery.Potential;
      }
      BucketStep(buckets, rfm, i, s);
      buckets := buckets[s := buckets[s] + 1];
      i := i + 1;
    }
    assert rfm[..|rfm|] == rfm;
  }

  // ---------------------------------------------------------------
  // Health statuses
  // ---------------------------------------------------------------

  /** A row of the health report. */
  datatype HealthRow = HealthRow(customerId: CustomerId, status: Option<string>)

  /** The group of a row: its status, `Unknown` when it has none. */
  function StatusKey(h: HealthRow): (k: string)
    ensures k != ""
  {
    if h.status.Some? && h.status.value != "" then h.status.value else "Unknown"
  }

  /** The number of rows in a status group. */
  function CountStatus(rows: seq<HealthRow>, key: string): (n: nat)
    ensures n <= |rows|
    decreases |rows|
  {
    if rows == [] then 0
    else CountStatus(rows[..|rows| - 1], key) + (if StatusKey(rows[|rows| - 1]) == key then 1 else 0)
  }

  function Keys(groups: seq<(string, nat)>): set<string> {
    set g | g in groups :: g.0
  }

  function SumCounts(groups: seq<(string, nat)>): nat
    decreases |groups|
  {
    if groups == [] then 0 else SumCounts(groups[..|groups| - 1]) + groups[|groups| - 1].1
  }

  /** Adding one to a group adds one to the total. */
  lemma {:induction false} SumCountsIncrement(groups: seq<(string, nat)>, k: nat)
    requires k < |groups|
    ensures SumCounts(groups[k := (groups[k].0, groups[k].1 + 1)]) == SumCounts(groups) + 1
    decreases |groups|
  {
    var g := groups[k := (groups[k].0, groups[k].1 + 1)];
    assert g[..|g| - 1] == if k < |groups| - 1 then groups[..|groups| - 1][k := (groups[k].0, groups[k].1 + 1)]
                           else groups[..|groups| - 1];
    if k < |groups| - 1 {
      SumCountsIncrement(groups[..|groups| - 1], k);
    }
  }

  /** The index of a key among the groups, if it has one. */
  function FindKey(groups: seq<(string, nat)>, key: string): (k: nat)
    ensures k <= |groups|
    ensures k < |groups| ==> groups[k].0 == key
    ensures k == |groups| ==> key !in Keys(groups)
    decreases |groups|
  {
    if groups == [] then 0
    else if groups[0].0 == key then 0
    else
      var k := FindKey(groups[1..], key);
      assert forall g | g in groups[1..] :: g in groups;
      assert Keys(groups) == {groups[0].0} + Keys(groups[1..]);
      k + 1
  }

  /** No status is grouped twice. */
  ghost predicate DistinctKeys(groups: seq<(string, nat)>) {
    forall i, j | 0 <= i < j < |groups| :: groups[i].0 != groups[j].0
  }

  /** Every group holds the number of rows of its status, and is not empty. */
  ghost predicate CountsExact(groups: seq<(string, nat)>, rows: seq<HealthRow>) {
    forall i | 0 <= i < |groups| :: groups[i].1 == CountStatus(rows, groups[i].0) && groups[i].1 > 0
  }

  /** Every row's status has a group. */
  ghost predicate KeysCover(groups: seq<(string, nat)>, rows: seq<HealthRow>) {
    forall h | h in rows :: StatusKey(h) in Keys(groups)
  }

  /** A status without a group has no rows. */
  ghost predicate NoOtherKeys(groups: seq<(string, nat)>, rows: seq<HealthRow>) {
    forall key | key !in Keys(groups) :: CountStatus(rows, key) == 0
  }

  /** The groups of `rows`: one per status, each with its row count, adding up to the number of rows. */
  ghost predicate Grouped(groups: seq<(string, nat)>, rows: seq<HealthRow>) {
    DistinctKeys(groups) && CountsExact(groups, rows) && KeysCover(groups, rows)
    && NoOtherKeys(groups, rows) && SumCounts(groups) == |rows|
  }

  lemma CountStatusAppend(rows: seq<HealthRow>, h: HealthRow, key: string)
    ensures CountStatus(rows + [h], key) == CountStatus(rows, key) + (if StatusKey(h) == key then 1 else 0)
  {
    assert (rows + [h])[..|rows|] == rows;
  }

  /** A row appended to the rows keeps a covering set of keys covering, once its own key is in it. */
  lemma CoverAppend(groups: seq<(string, nat)>, g: seq<(string, nat)>, rows: seq<HealthRow>, h: HealthRow)
    requires KeysCover(groups, rows) && Keys(groups) <= Keys(g) && StatusKey(h) in Keys(g)
    ensures KeysCover(g, rows + [h])
  {
    forall x | x in rows + [h] ensures StatusKey(x) in Keys(g) {
      if x != h {
        assert x in rows;
      }
    }
  }

  /** A row appended to the rows leaves every status outside the keys without rows, once its own key is in them. */
  lemma NoOtherAppend(groups: seq<(string, nat)>, g: seq<(string, nat)>, rows: seq<HealthRow>, h: HealthRow)
    requires NoOtherKeys(groups, rows) && Keys(groups) <= Keys(g) && StatusKey(h) in Keys(g)
    ensures NoOtherKeys(g, rows + [h])
  {
    forall x | x !in Keys(g) ensures CountStatus(rows + [h], x) == 0 {
      CountStatusAppend(rows, h, x);
    }
  }

  /** Counting a row of a status already grouped. */
  lemma GroupExisting(groups: seq<(string, nat)>, rows: seq<HealthRow>, h: HealthRow, k: nat)
    requires Grouped(groups, rows)
    requires k < |groups| && groups[k].0 == StatusKey(h)
    ensures Grouped(groups[k := (groups[k].0, groups[k].1 + 1)], rows + [h])
  {
    var g := groups[k := (groups[k].0, groups[k].1 + 1)];
    assert DistinctKeys(g) by {
      forall i | 0 <= i < |g| ensures g[i].0 == groups[i].0 { }
    }
    assert CountsExact(g, rows + [h]) by {
      forall i | 0 <= i < |g| ensures g[i].1 == CountStatus(rows + [h], g[i].0) && g[i].1 > 0 {
        CountStatusAppend(rows, h, g[i].0);
      }
    }
    assert Keys(g) == Keys(groups) by {
      forall x | x in Keys(groups) ensures x in Keys(g) {
        var i :| 0 <= i < |groups| && groups[i].0 == x;
        assert g[i].0 == x;
      }
    }
    assert StatusKey(h) in Keys(g) by {
      assert g[k] in g;
    }
    CoverAppend(groups, g, rows, h);
    NoOtherAppend(groups, g, rows, h);
    SumCountsIncrement(groups, k);
  }

  /** Counting a row of a status not grouped yet. */
  lemma GroupNew(groups: seq<(string, nat)>, rows: seq<HealthRow>, h: HealthRow)
    requires Grouped(groups, rows)
    requires StatusKey(h) !in Keys(groups)
    ensures Grouped(groups + [(StatusKey(h), 1)], rows + [h])
  {
    var key := StatusKey(h);
    var g := groups + [(key, 1)];
    assert DistinctKeys(g) by {
      forall i | 0 <= i < |groups| ensures groups[i].0 != key {
        assert groups[i] in groups;
      }
    }
    assert CountsExact(g, rows + [h]) by {
      forall i | 0 <= i < |g| ensures g[i].1 == CountStatus(rows + [h], g[i].0) && g[i].1 > 0 {
        CountStatusAppend(rows, h, g[i].0);
      }
    }
    assert Keys(g) == Keys(groups) + {key};
    CoverAppend(groups, g, rows, h);
    NoOtherAppend(groups, g, rows, h);
    assert g[..|groups|] == groups;
  }

  /** One step of the grouping: the row's count goes up by one, or its status gets a new group of one. */
  method CountRow(groups: seq<(string, nat)>, ghost rows: seq<HealthRow>, h: HealthRow) returns (g: seq<(string, nat)>)
    requires Grouped(groups, rows)
    ensures Grouped(g, rows + [h])
  {
    var key := StatusKey(h);
    var k := FindKey(groups, key);
    if k < |groups| {
      GroupExisting(groups, rows, h, k);
      g := groups[k := (key, groups[k].1 + 1)];
    } else {
      GroupNew(groups, rows, h);
      g := groups + [(key, 1)];
    }
  }

  /**
   * The pie chart's groups, in order of first appearance: each row counted
   * under its status.  Each status appears once with the number of its
   * rows, and the counts add up to the number of rows.
   */
  method GroupHealth(health: seq<HealthRow>) returns (groups: seq<(string, nat)>)
    ensures Grouped(groups, health)
  {
    groups := [];
    var n := 0;
    ghost var seen: seq<HealthRow> := [];
    while n < |health|
      invariant 0 <= n <= |health| && seen == health[..n]
      invariant Grouped(groups, seen)
    {
      groups := CountRow(groups, seen, health[n]);
      assert health[..n + 1] == seen + [health[n]];
      seen := seen + [health[n]];
      n := n + 1;
    }
    assert seen == health;
  }

  // ---------------------------------------------------------------
  // Summary
  // ---------------------------------------------------------------

  /** A row of the lifetime-value report. */
  datatype ClvRow = ClvRow(customerId: CustomerId, totalSpent: real)

  datatype Summary = Summary(totalCustomers: nat, avgClv: real, atRisk: nat)

  function RfmIds(rows: seq<RfmRow>): set<CustomerId> {
    set r | r in rows :: r.customerId
  }

  function ClvIds(rows: seq<ClvRow>): set<CustomerId> {
    set c | c in rows :: c.customerId
  }

  /** The CLV rows' total spend, as `reduce` adds it. */
  function SumSpent(rows: seq<ClvRow>): real
    decreases |rows|
  {
    if rows == [] then 0.0 else SumSpent(rows[..|rows| - 1]) + rows[|rows| - 1].totalSpent
  }

  /** A status that mentions risk, in any letter case. */
  predicate AtRisk(h: HealthRow)
    ensures AtRisk(h) ==> h.status.Some? && |h.status.value| >= 4
  {
    var lowered := ToLowerAscii(h.status.GetOr(""));
    if Contains(lowered, "risk") then
      ContainsFits(lowered, "risk");
      true
    else false
  }

  function CountAtRisk(rows: seq<HealthRow>): (n: nat)
    ensures n <= |rows|
    decreases |rows|
  {
    if rows == [] then 0 else CountAtRisk(rows[..|rows| - 1]) + (if AtRisk(rows[|rows| - 1]) then 1 else 0)
  }

  /** `summary`: nothing until the three reports have loaded. */
  function SummaryOf(clv: Option<seq<ClvRow>>, rfm: Option<seq<RfmRow>>, health: Option<seq<HealthRow>>): (r: Option<Summary>)
    ensures r.None? <==> clv.None? || rfm.None? || health.None?
    ensures r.Some? ==> r.value.totalCustomers == |RfmIds(rfm.value) + ClvIds(clv.value)|
    ensures r.Some? && clv.value == [] ==> r.value.avgClv == 0.0
    ensures r.Some? && clv.value != [] ==> r.value.avgClv * (|clv.value| as real) == SumSpent(clv.value)
    ensures r.Some? ==> r.value.atRisk == CountAtRisk(health.value) <= |health.value|
  {
    if clv.None? || rfm.None? || health.None? then None
    else
      var c := clv.value;
      Some(Summary(|RfmIds(rfm.value) + ClvIds(c)|,
                   if |c| > 0 then SumSpent(c) / (|c| as real) else 0.0,
                   CountAtRisk(health.value)))
  }

  /** There are no more distinct ids than rows. */
  lemma {:induction false} RfmIdsBound(rows: seq<RfmRow>)
    ensures |RfmIds(rows)| <= |rows|
    decreases |rows|
  {
    if rows != [] {
      var init := rows[..|rows| - 1];
      RfmIdsBound(init);
      assert RfmIds(rows) == RfmIds(init) + {rows[|rows| - 1].customerId} by {
        assert rows == init + [rows[|rows| - 1]];
      }
    }
  }

  lemma {:induction false} ClvIdsBound(rows: seq<ClvRow>)
    ensures |ClvIds(rows)| <= |rows|
    decreases |rows|
  {
    if rows != [] {
      var init := rows[..|rows| - 1];
      ClvIdsBound(init);
      assert ClvIds(rows) == ClvIds(init) + {rows[|rows| - 1].customerId} by {
        assert rows == init + [rows[|rows| - 1]];
      }
    }
  }

  /**
   * The customer count is at least the distinct ids of either report and
   * at most the rows of both.
   */
  lemma TotalCustomersBounds(clv: seq<ClvRow>, rfm: seq<RfmRow>, health: seq<HealthRow>)
    ensures var t := SummaryOf(Some(clv), Some(rfm), Some(health)).value.totalCustomers;
            |RfmIds(rfm)| <= t && |ClvIds(clv)| <= t && t <= |rfm| + |clv|
  {
    RfmIdsBound(rfm);
    ClvIdsBound(clv);
    var a, b := RfmIds(rfm), ClvIds(clv);
    assert |a + b| + |a * b| == |a| + |b|;
    assert a + b == a + (b - a) && a * (b - a) == {};
    assert |a + (b - a)| == |a| + |b - a|;
    assert a + b == b + (a - b) && b * (a - b) == {};
    assert |b + (a - b)| == |b| + |a - b|;
  }
}
