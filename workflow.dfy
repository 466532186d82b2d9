/** The workflow service: the efficiency score `create` works out before
    saving an automation workflow, the query for inefficient workflows, and
    the workflow analytics. */
module WorkflowService {
  import opened Common
  import opened Seqs
  import opened Grouping
  import opened Repositories

  datatype WorkflowPlatform = Zapier | PowerAutomate | Make | N8n | Custom

  /** A row of the `workflows` table, with the columns the service reads or
      writes. Schema defaults: run and credit counts 0, cost 0, score 0, not
      flagged inefficient. Status, failed runs, execution time,
      integrations, dates, owner and department are descriptive and not
      kept. */
  datatype Workflow = Workflow(
    id: string,
    name: string,
    platform: WorkflowPlatform,
    totalRuns: int,
    successfulRuns: int,
    creditsUsed: int,
    creditsAllotted: int,
    monthlyCost: real,
    efficiencyScore: real,
    isInefficient: bool)

  /** The record `create` saves for a request. */
  function Scored(input: Workflow): Workflow
  {
    if input.totalRuns > 0 then
      input.(efficiencyScore := input.successfulRuns as real / input.totalRuns as real * 100.0)
    else input
  }

  /** The one guarded assignment of `create`: with runs recorded, the score
      is the successful share of the runs, in percent; without, the score is
      left as it was; nothing else is written (in particular the stored
      `isInefficient` flag is not touched). */
  method ScoreEfficiency(input: Workflow) returns (workflow: Workflow)
    ensures input.totalRuns > 0 ==>
      workflow.efficiencyScore * input.totalRuns as real == input.successfulRuns as real * 100.0
    ensures input.totalRuns <= 0 ==> workflow.efficiencyScore == input.efficiencyScore
    ensures workflow.(efficiencyScore := input.efficiencyScore) == input
    ensures workflow == Scored(input)
  {
    workflow := input;
    if workflow.totalRuns > 0 {
      workflow := workflow.(efficiencyScore := workflow.successfulRuns as real / workflow.totalRuns as real * 100.0);
      Scaled(input.successfulRuns as real, input.totalRuns as real);
    }
  }

  /** `create`: scores the workflow and saves it. */
  method Create(repo: Repository<Workflow>, input: Workflow) returns (saved: Workflow)
    modifies repo
    ensures saved == Scored(input)
    ensures repo.rows == old(repo.rows) + [saved]
  {
    saved := ScoreEfficiency(input);
    repo.Save(saved);
  }

  /** With no more successful runs than runs, the score is a percentage. */
  lemma {:induction false} ScoreIsPercentage(w: Workflow)
    requires 0 <= w.successfulRuns <= w.totalRuns && w.totalRuns > 0
    ensures 0.0 <= Scored(w).efficiencyScore <= 100.0
  {
    Ratio(w.successfulRuns as real, w.totalRuns as real);
  }

  /** Scoring a scored record gives the same record. */
  lemma {:induction false} ScoreIdempotent(w: Workflow)
    ensures Scored(Scored(w)) == Scored(w)
  {
  }

  // ---- inefficient workflows ------------------------------------------------

  /** `creditsUsed > creditsAllotted * 0.8` */
  predicate OverCredits(w: Workflow)
  {
    w.creditsUsed as real > w.creditsAllotted as real * 0.8
  }

  /** The `WHERE` clause of `getInefficient`: a score below 70 or more than
      80% of the allotted credits used. */
  predicate Inefficient(w: Workflow)
  {
    w.efficiencyScore < 70.0 || OverCredits(w)
  }

  /** The credit test in whole numbers: five times the credits used exceed
      four times the credits allotted. */
  lemma {:induction false} OverCreditsInIntegers(w: Workflow)
    ensures OverCredits(w) <==> 5 * w.creditsUsed > 4 * w.creditsAllotted
  {
    var used, allotted := w.creditsUsed as real, w.creditsAllotted as real;
    assert 5.0 * used - 4.0 * allotted == 5.0 * (used - allotted * 0.8);
    assert (5 * w.creditsUsed - 4 * w.creditsAllotted) as real == 5.0 * used - 4.0 * allotted;
  }

  /** `getInefficient`: the stored workflows the query selects. The query
      has no `ORDER BY`, so their order is the database's; the model keeps
      the stored order. */
  function GetInefficient(workflows: seq<Workflow>): (r: seq<Workflow>)
    ensures forall w :: w in r <==> w in workflows && Inefficient(w)
    ensures forall w :: multiset(r)[w] == if Inefficient(w) then multiset(workflows)[w] else 0
  {
    FilterMembers(workflows, Inefficient);
    Filter(workflows, Inefficient)
  }

  /** A workflow saved without runs keeps the default score 0 and is
      reported as inefficient. */
  lemma {:induction false} NeverRunIsInefficient(w: Workflow)
    requires w.totalRuns <= 0 && w.efficiencyScore == 0.0
    ensures Scored(w) in GetInefficient([Scored(w)])
  {
  }

  // ---- analytics ------------------------------------------------------------

  datatype WorkflowSummary = WorkflowSummary(
    totalWorkflows: nat,
    totalMonthlyCost: real,
    averageEfficiency: real,
    inefficientWorkflows: nat)

  datatype WorkflowAnalytics = WorkflowAnalytics(
    summary: WorkflowSummary,
    byPlatform: seq<KeyCount<WorkflowPlatform>>)

  function MonthlyCost(w: Workflow): real { w.monthlyCost }
  function Efficiency(w: Workflow): real { w.efficiencyScore }
  function IsFlagged(w: Workflow): bool { w.isInefficient }
  function PlatformOf(w: Workflow): WorkflowPlatform { w.platform }

  /** `getAnalytics`. The average divides by the number of workflows without
      a guard, so the list must not be empty. The inefficient count reads
      the stored flag, which no operation of the service sets. */
  function GetAnalytics(workflows: seq<Workflow>): (a: WorkflowAnalytics)
    requires |workflows| > 0
    ensures a.summary.totalWorkflows == |workflows| == Counted(a.byPlatform)
    ensures a.summary.totalMonthlyCost == Sum(workflows, MonthlyCost)
    ensures a.summary.averageEfficiency == Mean(workflows, Efficiency)
    ensures a.summary.inefficientWorkflows == Count(workflows, IsFlagged) <= |workflows|
    ensures DistinctKeys(a.byPlatform)
    ensures forall p :: CountFor(a.byPlatform, p) == Count(workflows, HasKey(PlatformOf, p))
  {
    WorkflowAnalytics(
      WorkflowSummary(
        |workflows|, Sum(workflows, MonthlyCost), Mean(workflows, Efficiency),
        Count(workflows, IsFlagged)),
      Tally(workflows, PlatformOf))
  }

  /** With every score a percentage, so is the average. */
  lemma {:induction false} AverageEfficiencyBounded(workflows: seq<Workflow>)
    requires |workflows| > 0
    requires forall w :: w in workflows ==> 0.0 <= w.efficiencyScore <= 100.0
    ensures 0.0 <= GetAnalytics(workflows).summary.averageEfficiency <= 100.0
  {
    MeanBounds(workflows, Efficiency, 0.0, 100.0);
  }

  /** The summary's inefficient count and the `getInefficient` query can
      disagree: a workflow with a low score whose stored flag is false is
      returned by the query but not counted. */
  lemma {:induction false} FlagCountIsNotQuery(w: Workflow)
    requires w.efficiencyScore < 70.0 && !w.isInefficient
    ensures GetAnalytics([w]).summary.inefficientWorkflows == 0
    ensures |GetInefficient([w])| == 1
  {
    assert [w][..0] == [];
  }
}
