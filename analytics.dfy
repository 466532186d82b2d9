/** The analytics service: the dashboard that combines the six domain
    summaries into a total spend, a total of savings, a savings percentage
    and an optimisation score, and the recommendations built from the
    licence optimisation opportunities. */
module AnalyticsService {
  import opened Common
  import opened Seqs
  import L = LicenseService
  import W = WorkflowService
  import H = HardwareService
  import S = StorageService
  import O = OverlapService
  import C = CloudAnalysisService

  datatype DashboardSummary = DashboardSummary(
    totalITSpend: real,
    potentialSavings: real,
    savingsPercentage: real,
    optimizationScore: int)

  /** The dashboard: its own summary, then each domain's summary as that
      domain's analytics produced it. */
  datatype Dashboard = Dashboard(
    summary: DashboardSummary,
    licenses: L.LicenseSummary,
    workflows: W.WorkflowSummary,
    hardware: H.HardwareSummary,
    storage: S.StorageSummary,
    overlaps: O.OverlapSummary,
    cloudResources: C.CloudSummary)

  /** Licence cost, workflow cost, storage cost and cloud cost. */
  function TotalITSpend(l: L.LicenseSummary, w: W.WorkflowSummary, s: S.StorageSummary, c: C.CloudSummary): real
  {
    l.totalCost + w.totalMonthlyCost + s.totalMonthlyCost + c.totalCloudCost
  }

  /** Storage, overlap and cloud savings; the licence savings are not part
      of it. */
  function TotalSavings(s: S.StorageSummary, o: O.OverlapSummary, c: C.CloudSummary): real
  {
    s.potentialSavings + o.totalPotentialSavings + c.potentialSavings
  }

  /** `calculateOptimizationScore`: the mean of the licence utilisation, the
      workflow efficiency, the hardware CPU average and the storage
      utilisation, rounded half up. */
  function OptimizationScore(l: L.LicenseSummary, w: W.WorkflowSummary, h: H.HardwareSummary, s: S.StorageSummary): int
  {
    Round((l.overallUtilization + w.averageEfficiency + h.averageCpuUtilization + s.overallUtilization) / 4.0)
  }

  /** Four percentages give a score in [0, 100]. */
  lemma {:induction false} ScoreBounded(l: L.LicenseSummary, w: W.WorkflowSummary, h: H.HardwareSummary, s: S.StorageSummary)
    requires 0.0 <= l.overallUtilization <= 100.0 && 0.0 <= w.averageEfficiency <= 100.0
    requires 0.0 <= h.averageCpuUtilization <= 100.0 && 0.0 <= s.overallUtilization <= 100.0
    ensures 0 <= OptimizationScore(l, w, h, s) <= 100
  {
    var mean := (l.overallUtilization + w.averageEfficiency + h.averageCpuUtilization + s.overallUtilization) / 4.0;
    assert 0.0 <= mean <= 100.0;
    var r := Round(mean);
    assert mean - 0.5 < r as real <= mean + 0.5;
  }

  /** The dashboard built from the six domain summaries. The savings
      percentage divides by the spend without a guard, so the spend must not
      be zero. The domain summaries are passed through unchanged. */
  function Compose(
    l: L.LicenseSummary, w: W.WorkflowSummary, h: H.HardwareSummary,
    s: S.StorageSummary, o: O.OverlapSummary, c: C.CloudSummary): (d: Dashboard)
    requires TotalITSpend(l, w, s, c) != 0.0
    ensures d.summary.totalITSpend == TotalITSpend(l, w, s, c)
    ensures d.summary.potentialSavings == TotalSavings(s, o, c)
    ensures d.summary.savingsPercentage * d.summary.totalITSpend == d.summary.potentialSavings * 100.0
    ensures d.summary.optimizationScore == OptimizationScore(l, w, h, s)
    ensures d.licenses == l && d.workflows == w && d.hardware == h
    ensures d.storage == s && d.overlaps == o && d.cloudResources == c
  {
    var spend := TotalITSpend(l, w, s, c);
    var savings := TotalSavings(s, o, c);
    Scaled(savings, spend);
    Dashboard(
      DashboardSummary(spend, savings, savings / spend * 100.0, OptimizationScore(l, w, h, s)),
      l, w, h, s, o, c)
  }

  /** Whether a dashboard can be computed over these rows: every average has
      rows to average, every ratio a non-zero total. */
  predicate Computable(
    licenses: seq<L.License>, workflows: seq<W.Workflow>, hardware: seq<H.Hardware>,
    storage: seq<S.Storage>, resources: seq<C.CloudResource>)
  {
    Sum(licenses, L.Seats) != 0.0 && |workflows| > 0 && |hardware| > 0 && Sum(storage, S.Capacity) != 0.0
    && Sum(licenses, L.TotalCost) + Sum(workflows, W.MonthlyCost)
       + Sum(storage, S.MonthlyCost) + Sum(resources, C.MonthlyCost) != 0.0
  }

  /** `getDashboardSummary`: each domain's analytics over its rows, then the
      dashboard built from their summaries. */
  function GetDashboardSummary(
    licenses: seq<L.License>, workflows: seq<W.Workflow>, hardware: seq<H.Hardware>,
    storage: seq<S.Storage>, overlaps: seq<O.Overlap>, resources: seq<C.CloudResource>): Dashboard
    requires Computable(licenses, workflows, hardware, storage, resources)
  {
    Compose(
      L.GetAnalytics(licenses).summary, W.GetAnalytics(workflows).summary, H.GetAnalytics(hardware).summary,
      S.GetAnalytics(storage).summary, O.GetAnalytics(overlaps).summary, C.GetAnalytics(resources).summary)
  }

  /** The spend is the sum of the licence costs, workflow costs, storage
      costs and cloud costs of the rows. */
  lemma {:induction false} SpendOfRows(
    licenses: seq<L.License>, workflows: seq<W.Workflow>, hardware: seq<H.Hardware>,
    storage: seq<S.Storage>, overlaps: seq<O.Overlap>, resources: seq<C.CloudResource>)
    requires Computable(licenses, workflows, hardware, storage, resources)
    ensures GetDashboardSummary(licenses, workflows, hardware, storage, overlaps, resources).summary.totalITSpend
      == Sum(licenses, L.TotalCost) + Sum(workflows, W.MonthlyCost) + Sum(storage, S.MonthlyCost) + Sum(resources, C.MonthlyCost)
  {
    assert Sum(licenses, L.TotalCost) == L.GetAnalytics(licenses).summary.totalCost;
    assert Sum(resources, C.MonthlyCost) == C.GetAnalytics(resources).summary.totalCloudCost;
  }

  /** The savings are the storage savings, the savings of the
      consolidatable overlaps and the cloud savings of the rows. */
  lemma {:induction false} SavingsOfRows(
    licenses: seq<L.License>, workflows: seq<W.Workflow>, hardware: seq<H.Hardware>,
    storage: seq<S.Storage>, overlaps: seq<O.Overlap>, resources: seq<C.CloudResource>)
    requires Computable(licenses, workflows, hardware, storage, resources)
    ensures GetDashboardSummary(licenses, workflows, hardware, storage, overlaps, resources).summary.potentialSavings
      == Sum(storage, S.Savings) + Sum(overlaps, O.ConsolidatableSavings) + Sum(resources, C.Savings)
  {
    O.AnalyticsSummary(overlaps);
  }

  /** The licences' own savings never reach the dashboard total: two sets
      of licences give the same savings. */
  lemma {:induction false} LicenseSavingsExcluded(
    licenses: seq<L.License>, others: seq<L.License>, workflows: seq<W.Workflow>, hardware: seq<H.Hardware>,
    storage: seq<S.Storage>, overlaps: seq<O.Overlap>, resources: seq<C.CloudResource>)
    requires Computable(licenses, workflows, hardware, storage, resources)
    requires Computable(others, workflows, hardware, storage, resources)
    ensures GetDashboardSummary(licenses, workflows, hardware, storage, overlaps, resources).summary.potentialSavings
      == GetDashboardSummary(others, workflows, hardware, storage, overlaps, resources).summary.potentialSavings
  {
    SavingsOfRows(licenses, workflows, hardware, storage, overlaps, resources);
    SavingsOfRows(others, workflows, hardware, storage, overlaps, resources);
  }

  /** Overlap records as `detectOverlaps` saves them carry no savings, so
      over such a store the dashboard savings are the storage and cloud
      savings alone. */
  lemma {:induction false} DetectedOverlapsSaveNothing(
    licenses: seq<L.License>, workflows: seq<W.Workflow>, hardware: seq<H.Hardware>,
    storage: seq<S.Storage>, resources: seq<C.CloudResource>)
    requires Computable(licenses, workflows, hardware, storage, resources)
    ensures GetDashboardSummary(licenses, workflows, hardware, storage, O.PairwiseOverlaps(licenses), resources).summary.potentialSavings
      == Sum(storage, S.Savings) + Sum(resources, C.Savings)
  {
    var detected := O.PairwiseOverlaps(licenses);
    SavingsOfRows(licenses, workflows, hardware, storage, detected, resources);
    O.DetectedRecords(licenses);
    SumZero(detected, O.ConsolidatableSavings);
  }

  /** Savings that do not exceed a positive spend are between 0% and 100%
      of it. */
  lemma {:induction false} SavingsPercentageBounded(
    l: L.LicenseSummary, w: W.WorkflowSummary, h: H.HardwareSummary,
    s: S.StorageSummary, o: O.OverlapSummary, c: C.CloudSummary)
    requires 0.0 <= TotalSavings(s, o, c) <= TotalITSpend(l, w, s, c) && TotalITSpend(l, w, s, c) != 0.0
    ensures 0.0 <= Compose(l, w, h, s, o, c).summary.savingsPercentage <= 100.0
  {
    Ratio(TotalSavings(s, o, c), TotalITSpend(l, w, s, c));
  }

  /** Rows whose figures are all within range give a score in [0, 100]:
      no licence or storage solution uses more than it has, and every
      workflow score and CPU utilisation is a percentage. */
  lemma {:induction false} DashboardScoreBounded(
    licenses: seq<L.License>, workflows: seq<W.Workflow>, hardware: seq<H.Hardware>,
    storage: seq<S.Storage>, overlaps: seq<O.Overlap>, resources: seq<C.CloudResource>)
    requires Computable(licenses, workflows, hardware, storage, resources)
    requires forall l :: l in licenses ==> 0 <= l.usedSeats <= l.totalSeats
    requires forall w :: w in workflows ==> 0.0 <= w.efficiencyScore <= 100.0
    requires forall h :: h in hardware ==> 0.0 <= h.cpuUtilization <= 100.0
    requires forall s :: s in storage ==> 0 <= s.usedCapacityGB <= s.totalCapacityGB
    ensures 0 <= GetDashboardSummary(licenses, workflows, hardware, storage, overlaps, resources).summary.optimizationScore <= 100
  {
    L.OverallUtilizationBounded(licenses);
    W.AverageEfficiencyBounded(workflows);
    MeanBounds(hardware, H.Cpu, 0.0, 100.0);
    S.OverallUtilizationBounded(storage);
    ScoreBounded(
      L.GetAnalytics(licenses).summary, W.GetAnalytics(workflows).summary,
      H.GetAnalytics(hardware).summary, S.GetAnalytics(storage).summary);
  }

  // ---- recommendations ------------------------------------------------------

  /** An entry of the `urgent` list. */
  datatype Action = Action(
    category: string,
    priority: string,
    impact: string,
    action: string,
    potentialSavings: real)

  datatype Recommendations = Recommendations(
    urgent: seq<Action>,
    recommended: seq<L.Recommendation>,
    quickWins: seq<Action>)

  /** The most licence recommendations the response lists. */
  const RecommendedLimit: nat := 10

  /** `Reduce ${n} underutilized licenses` */
  function ReduceLicenses(n: nat): string
  {
    "Reduce " + NatToString(n) + " underutilized licenses"
  }

  /** The response `getRecommendations` builds from the licence
      opportunities: one urgent licence action carrying their total savings,
      the first ten recommendations, and no quick wins. */
  function RecommendationsFor(ops: L.Opportunities): (r: Recommendations)
    ensures |r.urgent| == 1
    ensures r.urgent[0] == Action("License Optimization", "high", "High cost reduction",
                                  ReduceLicenses(ops.underutilizedLicenses), ops.totalPotentialSavings)
    ensures |r.recommended| == Min(RecommendedLimit, |ops.recommendations|)
    ensures forall k :: 0 <= k < |r.recommended| ==> r.recommended[k] == ops.recommendations[k]
    ensures r.quickWins == []
  {
    Recommendations(
      [Action("License Optimization", "high", "High cost reduction",
              ReduceLicenses(ops.underutilizedLicenses), ops.totalPotentialSavings)],
      ops.recommendations[..Min(RecommendedLimit, |ops.recommendations|)],
      [])
  }

  /** `getRecommendations`: the licence opportunities, then the response.
      The recommended licences are the first under-utilised ones, least
      used first, each with its own recommendation; the urgent action counts
      all of them and carries the sum of all their savings. */
  method GetRecommendations(licenses: seq<L.License>) returns (r: Recommendations)
    ensures var under := L.GetUnderutilized(licenses, L.DefaultThreshold);
      && r.recommended == L.RecommendEach(under)[..Min(RecommendedLimit, |under|)]
      && |r.urgent| == 1
      && r.urgent[0].action == ReduceLicenses(|under|)
      && r.urgent[0].potentialSavings == Sum(L.RecommendEach(under), L.Savings)
    ensures r.quickWins == []
  {
    var ops := L.GetOptimizationOpportunities(licenses);
    r := RecommendationsFor(ops);
  }
}
