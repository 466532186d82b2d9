/** The storage service: the utilisation and duplicate-data savings `create`
    works out before saving a storage solution, and the storage analytics. */
module StorageService {
  import opened Common
  import opened Seqs
  import opened Grouping
  import opened Repositories

  datatype StorageType = Cloud | OnPremise | Hybrid
  datatype StorageProvider = OneDrive | Dropbox | GoogleDrive | Box | AwsS3 | AzureBlob | Nas | San

  /** A row of the `storage` table, with the columns the service reads or
      writes. Schema defaults: capacities, rate, costs, duplicate size and
      savings 0, no suggestion. The user count, duplicate file list,
      redundancy flag and department are descriptive and not kept. */
  datatype Storage = Storage(
    id: string,
    name: string,
    storageType: StorageType,
    provider: StorageProvider,
    totalCapacityGB: int,
    usedCapacityGB: int,
    utilizationRate: real,
    monthlyCost: real,
    costPerGB: real,
    duplicateDataSizeGB: int,
    optimizationSuggestion: Option<Suggestion>,
    potentialSavings: real)

  /** `duplicateDataSizeGB * parseFloat(costPerGB.toString())` */
  function DuplicateCost(sizeGB: int, costPerGB: real): real
  {
    sizeGB as real * costPerGB
  }

  /** The `optimizationSuggestion` column: a text given with the request, or
      the duplicate-data advice `create` writes, kept as the two figures the
      text is rendered from. */
  datatype Suggestion = Given(text: string) | RemoveDuplicates(sizeGB: nat, savings: real)

  /** The text the column holds. */
  function Text(s: Suggestion): string
  {
    match s
    case Given(text) => text
    case RemoveDuplicates(sizeGB, savings) => DuplicateAdvice(sizeGB, savings)
  }

  /** `Remove ${size}GB of duplicate data to save $${savings.toFixed(2)}/month` */
  function DuplicateAdvice(sizeGB: nat, savings: real): string
  {
    "Remove " + NatToString(sizeGB) + "GB of duplicate data to save $" + Fixed2(savings) + "/month"
  }

  /** The record `create` saves for a request. The rate divides by the total
      capacity without a guard, so a zero capacity is excluded. */
  function Assessed(input: Storage): Storage
    requires input.totalCapacityGB != 0
  {
    var rated := input.(utilizationRate := input.usedCapacityGB as real / input.totalCapacityGB as real * 100.0);
    if input.duplicateDataSizeGB > 0 then
      var savings := DuplicateCost(input.duplicateDataSizeGB, input.costPerGB);
      rated.(potentialSavings := savings).(optimizationSuggestion := Some(RemoveDuplicates(input.duplicateDataSizeGB, savings)))
    else rated
  }

  /** The assignments of `create`, in their order: the rate (see
      `AssessedRate`); with duplicate data, its price at the cost per GB and
      the advice to remove it; without, the savings and the advice are left
      as they were; nothing else is written. */
  method Assess(input: Storage) returns (storage: Storage)
    requires input.totalCapacityGB != 0
    ensures input.duplicateDataSizeGB > 0 ==>
      storage.potentialSavings == input.duplicateDataSizeGB as real * input.costPerGB
      && storage.optimizationSuggestion == Some(RemoveDuplicates(input.duplicateDataSizeGB, storage.potentialSavings))
    ensures input.duplicateDataSizeGB <= 0 ==>
      storage.potentialSavings == input.potentialSavings && storage.optimizationSuggestion == input.optimizationSuggestion
    ensures storage.(utilizationRate := input.utilizationRate, potentialSavings := input.potentialSavings,
                     optimizationSuggestion := input.optimizationSuggestion) == input
    ensures storage == Assessed(input)
  {
    storage := input;
    storage := storage.(utilizationRate := storage.usedCapacityGB as real / storage.totalCapacityGB as real * 100.0);
    if storage.duplicateDataSizeGB > 0 {
      var savings := DuplicateCost(input.duplicateDataSizeGB, input.costPerGB);
      storage := storage.(potentialSavings := savings);
      storage := storage.(optimizationSuggestion := Some(RemoveDuplicates(input.duplicateDataSizeGB, savings)));
    }
  }

  /** `create`: assesses the storage solution and saves it. */
  method Create(repo: Repository<Storage>, input: Storage) returns (saved: Storage)
    requires input.totalCapacityGB != 0
    modifies repo
    ensures saved == Assessed(input)
    ensures repo.rows == old(repo.rows) + [saved]
  {
    saved := Assess(input);
    repo.Save(saved);
  }

  /** With duplicate data the advice names its size and the monthly saving. */
  lemma {:induction false} AssessedAdvice(input: Storage)
    requires input.totalCapacityGB != 0 && input.duplicateDataSizeGB > 0
    ensures Assessed(input).optimizationSuggestion.Some?
    ensures Text(Assessed(input).optimizationSuggestion.value)
      == DuplicateAdvice(input.duplicateDataSizeGB, Assessed(input).potentialSavings)
  {
  }

  /** The rate `create` stores is the used share of the capacity, in percent. */
  lemma {:induction false} AssessedRate(input: Storage)
    requires input.totalCapacityGB != 0
    ensures Assessed(input).utilizationRate * input.totalCapacityGB as real == input.usedCapacityGB as real * 100.0
  {
    Scaled(input.usedCapacityGB as real, input.totalCapacityGB as real);
  }

  /** A used amount within the capacity gives a rate in [0, 100]; a
      non-negative price per GB never gives negative savings. */
  lemma {:induction false} AssessedBounds(input: Storage)
    requires input.totalCapacityGB > 0 && 0 <= input.usedCapacityGB <= input.totalCapacityGB
    requires input.costPerGB >= 0.0 && input.potentialSavings >= 0.0
    ensures 0.0 <= Assessed(input).utilizationRate <= 100.0
    ensures Assessed(input).potentialSavings >= 0.0
  {
    Ratio(input.usedCapacityGB as real, input.totalCapacityGB as real);
  }

  /** The advice for 450 GB saving 45 a month. */
  lemma {:induction false} AdviceText()
    ensures DuplicateAdvice(450, 45.0) == "Remove " + "450" + "GB of duplicate data to save $" + "45.00" + "/month"
  {
    assert NatToString(45) == "45" by {
      assert NatToString(4) == [Digit(4)] == "4";
      assert Digit(5) == '5';
    }
    assert NatToString(450) == "450" by {
      assert Digit(0) == '0';
    }
    assert Fixed2(45.0) == "45.00" by {
      assert 45.0 * 100.0 == 4500.0;
      assert Round(4500.0) == 4500;
      assert 4500 / 100 == 45 && 4500 / 10 % 10 == 0 && 4500 % 10 == 0;
      assert Digit(0) == '0';
    }
  }

  /** 450 GB of duplicates at 0.10 per GB: 45 a month, and the advice says so. */
  lemma {:induction false} DuplicateAdviceExample(input: Storage)
    requires input.totalCapacityGB == 2000 && input.duplicateDataSizeGB == 450 && input.costPerGB == 0.10
    ensures Assessed(input).potentialSavings == 45.0
    ensures Assessed(input).optimizationSuggestion.Some?
    ensures Text(Assessed(input).optimizationSuggestion.value)
      == ("Remove " + "450" + "GB of duplicate data to save $" + "45.00" + "/month")
  {
    AdviceText();
  }

  // ---- analytics ------------------------------------------------------------

  datatype StorageSummary = StorageSummary(
    totalStorageSolutions: nat,
    totalCapacityGB: real,
    totalUsedGB: real,
    overallUtilization: real,
    totalMonthlyCost: real,
    potentialSavings: real)

  datatype StorageAnalytics = StorageAnalytics(
    summary: StorageSummary,
    byType: seq<Bucket<StorageType>>)   // count, cost, capacity

  function Capacity(s: Storage): real { s.totalCapacityGB as real }
  function Used(s: Storage): real { s.usedCapacityGB as real }
  function MonthlyCost(s: Storage): real { s.monthlyCost }
  function Savings(s: Storage): real { s.potentialSavings }
  function TypeOf(s: Storage): StorageType { s.storageType }

  /** `getAnalytics`. The utilisation divides by the capacity total without
      a guard, so a zero total is excluded. */
  function GetAnalytics(storage: seq<Storage>): (a: StorageAnalytics)
    requires Sum(storage, Capacity) != 0.0
    ensures a.summary.totalStorageSolutions == |storage| == Members(a.byType)
    ensures Sizes(a.byType) == a.summary.totalCapacityGB
    ensures Costs(a.byType) == a.summary.totalMonthlyCost
    ensures a.summary.totalCapacityGB == Sum(storage, Capacity)
    ensures a.summary.totalUsedGB == Sum(storage, Used)
    ensures a.summary.totalMonthlyCost == Sum(storage, MonthlyCost)
    ensures a.summary.overallUtilization * a.summary.totalCapacityGB == 100.0 * a.summary.totalUsedGB
    ensures a.summary.potentialSavings == Sum(storage, Savings)
    ensures DistinctBuckets(a.byType)
  {
    var totalCapacity := Sum(storage, Capacity);
    var totalUsed := Sum(storage, Used);
    StorageAnalytics(
      StorageSummary(
        |storage|, totalCapacity, totalUsed, totalUsed / totalCapacity * 100.0,
        Sum(storage, MonthlyCost), Sum(storage, Savings)),
      GroupBy(storage, TypeOf, MonthlyCost, Capacity))
  }

  /** A storage type's group counts its solutions and adds up their costs
      and capacities. */
  lemma {:induction false} TypeGroup(storage: seq<Storage>, t: StorageType)
    requires Sum(storage, Capacity) != 0.0
    ensures var byType := GetAnalytics(storage).byType;
      && MembersFor(byType, t) == Count(storage, HasKey(TypeOf, t))
      && CostFor(byType, t) == Sum(Filter(storage, HasKey(TypeOf, t)), MonthlyCost)
      && SizeFor(byType, t) == Sum(Filter(storage, HasKey(TypeOf, t)), Capacity)
  {
    GroupByEntry(storage, TypeOf, MonthlyCost, Capacity, t);
  }

  /** The overall utilisation is a percentage whenever no solution reports
      more used space than it has. */
  lemma {:induction false} OverallUtilizationBounded(storage: seq<Storage>)
    requires Sum(storage, Capacity) != 0.0
    requires forall s :: s in storage ==> 0 <= s.usedCapacityGB <= s.totalCapacityGB
    ensures 0.0 <= GetAnalytics(storage).summary.overallUtilization <= 100.0
  {
    SumMonotone(storage, Used, Capacity);
    SumNonNegative(storage, Used);
    Ratio(Sum(storage, Used), Sum(storage, Capacity));
  }
}
