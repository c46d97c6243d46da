/**
 * The executive overview's computations: the business health score from
 * four factors, its status band, the quick wins and the risk alerts, and
 * today's revenue.  The report objects are optional (not loaded yet) and
 * their numeric fields follow JavaScript's coercions.
 */
module ExecutiveOverview {

  import opened Wrappers
  import opened Js

  /** The fields of the summary report the page reads. */
  datatype SummaryData = SummaryData(totalRevenue: JsNumber, revenueChange: JsNumber,
                                     newCustomers: JsNumber, customerChange: JsNumber)

  datatype ChurnData = ChurnData(churnRate: JsNumber)

  datatype MrrData = MrrData(currentMrr: JsNumber, mrrGrowth: JsNumber)

  // ---------------------------------------------------------------
  // Health score
  // ---------------------------------------------------------------

  /** A growth factor: the change shifted to 50 and capped at 100, or a neutral 50 without a base. */
  function GrowthFactor(base: JsNumber, change: JsNumber): (f: real)
    ensures f <= 100.0
    ensures !Gt(base, 0.0) ==> f == 50.0
    ensures Gt(base, 0.0) && OrZero(change) + 50.0 <= 100.0 ==> f == OrZero(change) + 50.0
    ensures Gt(base, 0.0) && OrZero(change) + 50.0 > 100.0 ==> f == 100.0
  {
    if Gt(base, 0.0) then
      var shifted := OrZero(change) + 50.0;
      if shifted < 100.0 then shifted else 100.0
    else 50.0
  }

  /** The churn factor: 100 less ten points per percent of churn, never below 0; 100 without churn. */
  function ChurnFactor(churnRate: JsNumber): (f: real)
    ensures f >= 0.0
    ensures !Truthy(churnRate) ==> f == 100.0
    ensures Truthy(churnRate) && churnRate.x <= 10.0 ==> f == 100.0 - churnRate.x * 10.0
    ensures Truthy(churnRate) && churnRate.x > 10.0 ==> f == 0.0
    ensures Truthy(churnRate) && churnRate.x >= 0.0 ==> f <= 100.0
  {
    if Truthy(churnRate) then
      var lowered := 100.0 - churnRate.x * 10.0;
      if lowered > 0.0 then lowered else 0.0
    else 100.0
  }

  /** The four factors and their weights. */
  function WeightedScore(revenue: real, churn: real, mrr: real, customers: real): real {
    revenue * 0.35 + churn * 0.25 + mrr * 0.25 + customers * 0.15
  }

  /** `healthScore` before rounding: nothing until the summary, churn and MRR reports are all loaded. */
  function HealthScore(summary: Option<SummaryData>, churn: Option<ChurnData>, mrr: Option<MrrData>): (r: Option<real>)
    ensures r.None? <==> summary.None? || churn.None? || mrr.None?
    ensures r.Some? ==> r.value == WeightedScore(
              GrowthFactor(summary.value.totalRevenue, summary.value.revenueChange),
              ChurnFactor(churn.value.churnRate),
              GrowthFactor(mrr.value.currentMrr, mrr.value.mrrGrowth),
              GrowthFactor(summary.value.newCustomers, summary.value.customerChange))
  {
    if summary.None? || churn.None? || mrr.None? then None
    else
      var s := summary.value;
      Some(WeightedScore(GrowthFactor(s.totalRevenue, s.revenueChange),
                         ChurnFactor(churn.value.churnRate),
                         GrowthFactor(mrr.value.currentMrr, mrr.value.mrrGrowth),
                         GrowthFactor(s.newCustomers, s.customerChange)))
  }

  /** With a churn rate that is not negative, the score never exceeds 100. */
  lemma ScoreAtMostHundred(summary: SummaryData, churn: ChurnData, mrr: MrrData)
    requires !churn.churnRate.Num? || churn.churnRate.x >= 0.0
    ensures HealthScore(Some(summary), Some(churn), Some(mrr)).value <= 100.0
  {
  }

  /** A store without sales, subscriptions or churn scores a neutral 62.5. */
  lemma EmptyStoreScore()
    ensures var s := SummaryData(Num(0.0), Num(0.0), Num(0.0), Num(0.0));
            HealthScore(Some(s), Some(ChurnData(Num(0.0))), Some(MrrData(Num(0.0), Num(0.0)))) == Some(62.5)
  {
    var s := SummaryData(Num(0.0), Num(0.0), Num(0.0), Num(0.0));
    assert GrowthFactor(Num(0.0), Num(0.0)) == 50.0;
    assert ChurnFactor(Num(0.0)) == 100.0;
    assert HealthScore(Some(s), Some(ChurnData(Num(0.0))), Some(MrrData(Num(0.0), Num(0.0))))
           == Some(WeightedScore(50.0, 100.0, 50.0, 50.0));
  }

  /** The band a score falls in. */
  datatype HealthStatus = Loading | Excellent | Good | NeedsAttention | Critical

  /** `getHealthStatus`: a missing or zero score reads as loading; then the bands at 80, 60 and 40. */
  function StatusOf(score: Option<real>): (st: HealthStatus)
    ensures st == Loading <==> score.None? || score.value == 0.0
    ensures st == Excellent <==> score.Some? && score.value >= 80.0
    ensures st == Good <==> score.Some? && 60.0 <= score.value < 80.0
    ensures st == NeedsAttention <==> score.Some? && 40.0 <= score.value < 60.0
    ensures st == Critical <==> score.Some? && score.value < 40.0 && score.value != 0.0
  {
    if score.None? || score.value == 0.0 then Loading
    else if score.value >= 80.0 then Excellent
    else if score.value >= 60.0 then Good
    else if score.value >= 40.0 then NeedsAttention
    else Critical
  }

  function StatusColor(st: HealthStatus): string {
    match st
    case Loading => "#94a3b8"
    case Excellent => "#10b981"
    case Good => "#f59e0b"
    case NeedsAttention => "#ef4444"
    case Critical => "#dc2626"
  }

  /**
   * A loaded score of exactly zero is shown as loading: revenue, MRR and
   * customers each down by half, with ten percent churn, give that score.
   */
  lemma ZeroScoreReadsAsLoading()
    ensures var s := SummaryData(Num(1.0), Num(-50.0), Num(1.0), Num(-50.0));
            var score := HealthScore(Some(s), Some(ChurnData(Num(10.0))), Some(MrrData(Num(1.0), Num(-50.0))));
            score == Some(0.0) && StatusOf(score) == Loading
  {
    var s := SummaryData(Num(1.0), Num(-50.0), Num(1.0), Num(-50.0));
    assert GrowthFactor(Num(1.0), Num(-50.0)) == 0.0;
    assert ChurnFactor(Num(10.0)) == 0.0;
    assert HealthScore(Some(s), Some(ChurnData(Num(10.0))), Some(MrrData(Num(1.0), Num(-50.0))))
           == Some(WeightedScore(0.0, 0.0, 0.0, 0.0));
  }

  // ---------------------------------------------------------------
  // Quick wins and risks
  // ---------------------------------------------------------------

  /** A field of a report that may not be loaded: `undefined` when it is not. */
  function RevenueChange(summary: Option<SummaryData>): JsNumber {
    if summary.Some? then summary.value.revenueChange else Undefined
  }

  function NewCustomers(summary: Option<SummaryData>): JsNumber {
    if summary.Some? then summary.value.newCustomers else Undefined
  }

  function ChurnRate(churn: Option<ChurnData>): JsNumber {
    if churn.Some? then churn.value.churnRate else Undefined
  }

  function MrrGrowth(mrr: Option<MrrData>): JsNumber {
    if mrr.Some? then mrr.value.mrrGrowth else Undefined
  }

  datatype Win = StrongRevenueGrowth | MrrExpanding | LowChurn | CustomerAcquisition | SteadyPerformance

  /** The position of a win in the list. */
  function WinRank(w: Win): nat {
    match w
    case StrongRevenueGrowth => 0
    case MrrExpanding => 1
    case LowChurn => 2
    case CustomerAcquisition => 3
    case SteadyPerformance => 4
  }

  /** `quickWins`: each win whose condition holds, in order; steady performance only when none does. */
  method QuickWins(summary: Option<SummaryData>, mrr: Option<MrrData>, churn: Option<ChurnData>) returns (wins: seq<Win>)
    ensures wins != []
    ensures StrongRevenueGrowth in wins <==> Gt(RevenueChange(summary), 10.0)
    ensures MrrExpanding in wins <==> Gt(MrrGrowth(mrr), 5.0)
    ensures LowChurn in wins <==> Lt(ChurnRate(churn), 5.0)
    ensures CustomerAcquisition in wins <==> Gt(NewCustomers(summary), 50.0)
    ensures SteadyPerformance in wins <==> wins == [SteadyPerformance]
    ensures wins == [SteadyPerformance] <==>
              !Gt(RevenueChange(summary), 10.0) && !Gt(MrrGrowth(mrr), 5.0)
              && !Lt(ChurnRate(churn), 5.0) && !Gt(NewCustomers(summary), 50.0)
    ensures forall i | 0 <= i < |wins| - 1 :: WinRank(wins[i]) < WinRank(wins[i + 1])
  {
    var growing, expanding := Gt(RevenueChange(summary), 10.0), Gt(MrrGrowth(mrr), 5.0);
    var retaining, acquiring := Lt(ChurnRate(churn), 5.0), Gt(NewCustomers(summary), 50.0);
    wins := [];
    if growing {
      wins := wins + [StrongRevenueGrowth];
    }
    if expanding {
      wins := wins + [MrrExpanding];
    }
    if retaining {
      wins := wins + [LowChurn];
    }
    if acquiring {
      wins := wins + [CustomerAcquisition];
    }
    if wins == [] {
      wins := [SteadyPerformance];
    }
  }

  datatype Severity = High | Medium

  datatype Risk = HighChurn | RevenueDecline | MrrContraction

  function RiskRank(r: Risk): nat {
    match r
    case HighChurn => 0
    case RevenueDecline => 1
    case MrrContraction => 2
  }

  function SeverityOf(r: Risk): Severity {
    if r == MrrContraction then Medium else High
  }

  /** `risks`: each alert whose condition holds, in order, and no other. */
  method Risks(summary: Option<SummaryData>, churn: Option<ChurnData>, mrr: Option<MrrData>) returns (alerts: seq<(Severity, Risk)>)
    ensures (High, HighChurn) in alerts <==> Gt(ChurnRate(churn), 10.0)
    ensures (High, RevenueDecline) in alerts <==> Lt(RevenueChange(summary), -10.0)
    ensures (Medium, MrrContraction) in alerts <==> Lt(MrrGrowth(mrr), -5.0)
    ensures alerts == [] <==> !Gt(ChurnRate(churn), 10.0) && !Lt(RevenueChange(summary), -10.0) && !Lt(MrrGrowth(mrr), -5.0)
    ensures forall a | a in alerts :: a.0 == SeverityOf(a.1)
    ensures forall i, j | 0 <= i < j < |alerts| :: RiskRank(alerts[i].1) < RiskRank(alerts[j].1)
  {
    alerts := [];
    if Gt(ChurnRate(churn), 10.0) {
      alerts := alerts + [(High, HighChurn)];
    }
    if Lt(RevenueChange(summary), -10.0) {
      alerts := alerts + [(High, RevenueDecline)];
    }
    if Lt(MrrGrowth(mrr), -5.0) {
      alerts := alerts + [(Medium, MrrContraction)];
    }
  }

  /**
   * The page never reports a metric as both a win and a risk: low churn
   * excludes high churn, growth excludes decline, expansion excludes contraction.
   */
  lemma WinsAndRisksExclusive(summary: Option<SummaryData>, churn: Option<ChurnData>, mrr: Option<MrrData>)
    ensures !(Lt(ChurnRate(churn), 5.0) && Gt(ChurnRate(churn), 10.0))
    ensures !(Gt(RevenueChange(summary), 10.0) && Lt(RevenueChange(summary), -10.0))
    ensures !(Gt(MrrGrowth(mrr), 5.0) && Lt(MrrGrowth(mrr), -5.0))
  {
  }

  /** Before any report loads there is one win, steady performance, and no risk. */
  method NothingLoaded() returns (wins: seq<Win>, alerts: seq<(Severity, Risk)>)
    ensures wins == [SteadyPerformance] && alerts == []
  {
    wins := QuickWins(None, None, None);
    alerts := Risks(None, None, None);
  }

  // ---------------------------------------------------------------
  // Today's revenue
  // ---------------------------------------------------------------

  /** `todayRevenue`: the revenue of the last day of the daily series, 0 when there is none. */
  function TodayRevenue(daily: Option<seq<real>>): (r: real)
    ensures daily.None? || daily.value == [] ==> r == 0.0
    ensures daily.Some? && daily.value != [] ==> r == daily.value[|daily.value| - 1]
  {
    if daily.None? || daily.value == [] then 0.0 else daily.value[|daily.value| - 1]
  }
}
