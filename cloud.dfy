/** The cloud-analysis service: the cost difference and migration rule
    `create` applies before saving a resource, and the cloud analytics. */
module CloudAnalysisService {
  import opened Common
  import opened Seqs
  import opened Grouping
  import opened Repositories

  datatype CloudProvider = Aws | Azure | Gcp | OnPremise
  datatype ResourceType = Compute | StorageResource | Database | Networking | Serverless

  /** A row of the `cloud_resources` table, with the columns the service
      reads or writes. Schema defaults: costs, difference, utilisation and
      savings 0, not a candidate, no action. Instance type, region,
      department, specifications and notes are descriptive and not kept. */
  datatype CloudResource = CloudResource(
    id: string,
    resourceName: string,
    provider: CloudProvider,
    resourceType: ResourceType,
    monthlyCost: real,
    onPremiseEquivalentCost: real,
    costDifference: real,
    utilizationRate: real,
    isMigrationCandidate: bool,
    recommendedAction: Option<string>,
    potentialSavings: real)

  const OnPremiseAdvice: string := "Consider migrating to on-premise for cost savings"
  const CloudAdvice: string := "Consider migrating to cloud for better scalability"

  /** What running the resource in the cloud costs over its on-premise
      equivalent (negative when the cloud is cheaper). */
  function Difference(r: CloudResource): real
  {
    r.monthlyCost - r.onPremiseEquivalentCost
  }

  /** Little used, and more than 100 dearer in the cloud. */
  predicate MovesOnPremise(r: CloudResource)
  {
    r.utilizationRate < 40.0 && Difference(r) > 100.0
  }

  /** Heavily used, and more than 100 cheaper in the cloud. */
  predicate MovesToCloud(r: CloudResource)
  {
    r.utilizationRate > 80.0 && Difference(r) < -100.0
  }

  /** The record `create` saves for a request. */
  function Assessed(input: CloudResource): CloudResource
  {
    var r := input.(costDifference := Difference(input));
    if MovesOnPremise(input) then
      r.(isMigrationCandidate := true, recommendedAction := Some(OnPremiseAdvice),
         potentialSavings := Abs(Difference(input)))
    else if MovesToCloud(input) then
      r.(isMigrationCandidate := true, recommendedAction := Some(CloudAdvice))
    else r
  }

  /** The assignments and the `if`/`else if` of `create`: the difference is
      always written; a move on premise is a candidate saving the whole
      difference (over 100); a move to the cloud is a candidate whose
      savings are left as they were; otherwise nothing else is written. */
  method Assess(input: CloudResource) returns (resource: CloudResource)
    ensures resource.costDifference == input.monthlyCost - input.onPremiseEquivalentCost
    ensures MovesOnPremise(input) ==>
      && resource.isMigrationCandidate
      && resource.recommendedAction == Some(OnPremiseAdvice)
      && resource.potentialSavings == resource.costDifference > 100.0
    ensures MovesToCloud(input) ==>
      && resource.isMigrationCandidate
      && resource.recommendedAction == Some(CloudAdvice)
      && resource.potentialSavings == input.potentialSavings
    ensures !MovesOnPremise(input) && !MovesToCloud(input) ==>
      && resource.isMigrationCandidate == input.isMigrationCandidate
      && resource.recommendedAction == input.recommendedAction
      && resource.potentialSavings == input.potentialSavings
    ensures resource.(costDifference := input.costDifference, isMigrationCandidate := input.isMigrationCandidate,
                      recommendedAction := input.recommendedAction, potentialSavings := input.potentialSavings) == input
    ensures resource == Assessed(input)
  {
    resource := input;
    resource := resource.(costDifference := resource.monthlyCost - resource.onPremiseEquivalentCost);
    if resource.utilizationRate < 40.0 && resource.costDifference > 100.0 {
      resource := resource.(isMigrationCandidate := true);
      resource := resource.(recommendedAction := Some(OnPremiseAdvice));
      resource := resource.(potentialSavings := Abs(resource.costDifference));
    } else if resource.utilizationRate > 80.0 && resource.costDifference < -100.0 {
      resource := resource.(isMigrationCandidate := true);
      resource := resource.(recommendedAction := Some(CloudAdvice));
    }
  }

  /** `create`: assesses the resource and saves it. */
  method Create(repo: Repository<CloudResource>, input: CloudResource) returns (saved: CloudResource)
    modifies repo
    ensures saved == Assessed(input)
    ensures repo.rows == old(repo.rows) + [saved]
  {
    saved := Assess(input);
    repo.Save(saved);
  }

  /** The two rules never both apply: no utilisation is both below 40 and
      above 80. */
  lemma {:induction false} RulesExclusive(r: CloudResource)
    ensures !(MovesOnPremise(r) && MovesToCloud(r))
  {
  }

  /** A saved resource is a migration candidate exactly when a rule applied
      or the request already said so, and its savings are non-negative
      whenever the request's were. */
  lemma {:induction false} AssessedCandidate(input: CloudResource)
    ensures Assessed(input).isMigrationCandidate
      <==> input.isMigrationCandidate || MovesOnPremise(input) || MovesToCloud(input)
    ensures input.potentialSavings >= 0.0 ==> Assessed(input).potentialSavings >= 0.0
  {
  }

  /** Assessing an assessed resource changes nothing more. */
  lemma {:induction false} AssessIdempotent(r: CloudResource)
    ensures Assessed(Assessed(r)) == Assessed(r)
  {
  }

  // ---- analytics ------------------------------------------------------------

  datatype CloudSummary = CloudSummary(
    totalResources: nat,
    totalCloudCost: real,
    totalOnPremiseCost: real,
    costDifference: real,
    migrationCandidates: nat,
    potentialSavings: real)

  datatype CloudAnalytics = CloudAnalytics(
    summary: CloudSummary,
    byProvider: seq<Bucket<CloudProvider>>,   // count, cost
    byType: seq<Bucket<ResourceType>>)        // count, cost

  function MonthlyCost(r: CloudResource): real { r.monthlyCost }
  function OnPremiseCost(r: CloudResource): real { r.onPremiseEquivalentCost }
  function StoredDifference(r: CloudResource): real { r.costDifference }
  function Savings(r: CloudResource): real { r.potentialSavings }
  function IsCandidate(r: CloudResource): bool { r.isMigrationCandidate }
  function ProviderOf(r: CloudResource): CloudProvider { r.provider }
  function TypeOf(r: CloudResource): ResourceType { r.resourceType }
  function NoSize(r: CloudResource): real { 0.0 }

  /** `getAnalytics` */
  function GetAnalytics(resources: seq<CloudResource>): (a: CloudAnalytics)
    ensures a.summary.totalResources == |resources| == Members(a.byProvider) == Members(a.byType)
    ensures Costs(a.byProvider) == a.summary.totalCloudCost == Costs(a.byType)
    ensures a.summary.totalCloudCost == Sum(resources, MonthlyCost)
    ensures a.summary.costDifference == a.summary.totalCloudCost - a.summary.totalOnPremiseCost
    ensures a.summary.totalOnPremiseCost == Sum(resources, OnPremiseCost)
    ensures a.summary.migrationCandidates == Count(resources, IsCandidate) <= |resources|
    ensures a.summary.potentialSavings == Sum(resources, Savings)
    ensures DistinctBuckets(a.byProvider) && DistinctBuckets(a.byType)
  {
    var cloudCost := Sum(resources, MonthlyCost);
    var onPremCost := Sum(resources, OnPremiseCost);
    CloudAnalytics(
      CloudSummary(
        |resources|, cloudCost, onPremCost, cloudCost - onPremCost,
        Count(resources, IsCandidate), Sum(resources, Savings)),
      GroupBy(resources, ProviderOf, MonthlyCost, NoSize),
      GroupBy(resources, TypeOf, MonthlyCost, NoSize))
  }

  /** A provider's group, and a resource type's group, count its resources
      and add up their monthly costs. */
  lemma {:induction false} ProviderAndTypeGroups(resources: seq<CloudResource>, p: CloudProvider, t: ResourceType)
    ensures var a := GetAnalytics(resources);
      && MembersFor(a.byProvider, p) == Count(resources, HasKey(ProviderOf, p))
      && CostFor(a.byProvider, p) == Sum(Filter(resources, HasKey(ProviderOf, p)), MonthlyCost)
      && MembersFor(a.byType, t) == Count(resources, HasKey(TypeOf, t))
      && CostFor(a.byType, t) == Sum(Filter(resources, HasKey(TypeOf, t)), MonthlyCost)
  {
    GroupByEntry(resources, ProviderOf, MonthlyCost, NoSize, p);
    GroupByEntry(resources, TypeOf, MonthlyCost, NoSize, t);
  }

  /** The summary's difference of totals is the total of the differences
      `create` stored, as long as every row was saved by it. */
  lemma {:induction false} DifferenceOfTotals(resources: seq<CloudResource>)
    requires forall r :: r in resources ==> r.costDifference == Difference(r)
    ensures GetAnalytics(resources).summary.costDifference == Sum(resources, StoredDifference)
  {
    SumDifference(resources, MonthlyCost, OnPremiseCost, StoredDifference);
  }

  /** The savings total is non-negative when no row's savings are. */
  lemma {:induction false} SavingsTotal(resources: seq<CloudResource>)
    requires forall r :: r in resources ==> r.potentialSavings >= 0.0
    ensures GetAnalytics(resources).summary.potentialSavings >= 0.0
  {
    SumNonNegative(resources, Savings);
  }
}
