# IT asset optimisation backend: a Dafny model of the service layer

The backend of this IT-asset dashboard is a set of NestJS services. Each one
reads and writes one table of licences, automation workflows, hardware,
storage solutions, cloud resources or feature overlaps between licences. This
project models what those services compute, and it proves properties of it:

- **Overlap detection.** `detectOverlaps` compares every pair of licences
  `i < j`. For each pair that shares a feature it builds a record with the
  common features, an overlap percentage, a severity tier and a consolidation
  flag, and saves it. `getAnalytics` summarises the stored records.
- **Derived values on `create`.** Each service fills in some fields before it
  saves a record:
  - the licence utilisation rate;
  - the workflow efficiency score;
  - the hardware under- and over-utilisation flags and advice;
  - the storage utilisation rate and duplicate-data savings;
  - the cloud cost difference and the migration rule.
- **Queries and analytics.** These cover:
  - the under-used licences and the seat-reduction recommendations;
  - the inefficient-workflow query;
  - the per-domain summaries, made of counts, sums, averages and group-by
    folds;
  - the dashboard, which adds up spend and savings and computes a savings
    percentage and an optimisation score;
  - the recommendations response.

How the model represents them:

- **Tables.** A table is a `Repositories.Repository<T>` whose `rows` field is
  a sequence. `save` appends a row and `update` rewrites the matching rows.
- **Records.** Each entity is a datatype holding the columns the services
  read or write.
- **Numbers.** Decimal columns are exact `real`s and integer columns are
  `int`s.
- **`Math` functions.** `Math.ceil` and `Math.round` are defined through
  `Floor`.
- **`create`.** The hardware, cloud, storage and workflow services' `create`
  is a method that makes the source's guarded field assignments in order; it
  is proved equal to a specification function (`Marked`, `Assessed`,
  `Scored`), and the lemmas state what that function does. The licence
  `create` has one unguarded assignment, so it saves the value of the
  function `NewLicense`, whose contract states each field.
- **Loops.** The two loops of the source, the nested pair loop of
  `detectOverlaps` and the savings loop of `getOptimizationOpportunities`,
  are `for` loops with invariants. They are proved against recursive
  specification functions.
- **Unguarded divisions.** A division the source does not guard becomes a
  `requires` (a non-zero seat or capacity total, a non-empty list, a non-zero
  spend).

Modules: `Common` (Option, `Math` helpers, decimal rendering), `Seqs` (sum,
filter, count, mean, sort), `Grouping` (the `reduce` tallies and groups),
`Repositories`, `LicenseService`, `OverlapService`, `HardwareService`,
`CloudAnalysisService`, `StorageService`, `WorkflowService` and
`AnalyticsService`.

## Model

| member | source | states |
|---|---|---|
| Common.Ceil | backend/src/modules/license/license.service.ts:68 | `Math.ceil`: the result is the least integer not below `x` |
| Common.Round | backend/src/modules/analytics/analytics.service.ts:96 | `Math.round`: the result is within one half of `x`, and a half rounds up |
| Seqs.Filter | backend/src/modules/hardware/hardware.service.ts:47-48 | `filter` keeps an element exactly when the predicate holds, as many times as it occurs, and never makes the list longer |
| Seqs.FilterMembers | backend/src/modules/workflow/workflow.service.ts:31-35 | an element is in the filtered list iff it is in the list and satisfies the predicate |
| Seqs.Mean | backend/src/modules/hardware/hardware.service.ts:39-40 | an average of a non-empty list, times its length, is the sum |
| Seqs.MeanBounds | backend/src/modules/hardware/hardware.service.ts:39-40 | when every value lies in `[lo, hi]`, so does the average |
| Seqs.SortBy | backend/src/modules/license/license.service.ts:47 | `ORDER BY key ASC`: the result is a permutation of the rows and is sorted by the key |
| Seqs.SumPermutation | backend/src/modules/overlap/overlap.service.ts:66-69 | a sum does not depend on the order of the rows |
| Seqs.CountPermutation | backend/src/modules/overlap/overlap.service.ts:74 | a filter count does not depend on the order of the rows |
| Seqs.SumFilter | backend/src/modules/overlap/overlap.service.ts:67-69 | summing over the filtered rows is the same as summing, over all rows, the value of kept rows and 0 for the rest |
| Grouping.Bump | backend/src/modules/hardware/hardware.service.ts:51 | `acc[k] = (acc[k] \|\| 0) + 1` adds one to key `k` and to the total, leaves every other key alone, and keeps keys distinct |
| Grouping.Tally | backend/src/modules/hardware/hardware.service.ts:50-53 | the tally's counts add up to the number of rows, no key is listed twice, and each key's count is its number of rows |
| Grouping.Add | backend/src/modules/license/license.service.ts:92-97 | one step of a group fold: the count, cost and size of the row's key grow by one, `c` and `z`, every other key is unchanged, and keys stay distinct |
| Grouping.GroupBy | backend/src/modules/license/license.service.ts:91-99 | group counts add up to the rows, group costs add up to the cost total, sizes add up to the size total, and no key is listed twice |
| Grouping.GroupByEntry | backend/src/modules/cloud-analysis/cloud-analysis.service.ts:51-62 | each key's group counts the rows with that key and adds up their costs and sizes |
| Repositories.Repository.Save | backend/src/modules/license/license.service.ts:20 | `save` of a new entity appends exactly that row |
| LicenseService.NewLicense | backend/src/modules/license/license.service.ts:14-21 | id, software, vendor, seats, costs and features are the request's; the used seats are the request's or 0; the rate times the seats is 100 times the used seats (`(usedSeats \|\| 0) / totalSeats * 100`); a missing status becomes ACTIVE; a used count within the seats gives a rate in `[0, 100]` |
| LicenseService.Create | backend/src/modules/license/license.service.ts:14-21 | the saved licence is `NewLicense` and it is appended to the table |
| LicenseService.Patched | backend/src/modules/license/license.service.ts:33-34 | each field is the request's value when given and the stored one otherwise; the id and the stored utilisation rate are kept |
| LicenseService.UpdateRows | backend/src/modules/license/license.service.ts:34 | `UPDATE ... WHERE id`: the table keeps its length, every row with the id becomes `Patched` by the request, rows with other ids are unchanged, and no row's id or rate changes |
| LicenseService.FindOne | backend/src/modules/license/license.service.ts:29-31 | a found licence is in the table with that id; nothing is found iff no row has that id |
| LicenseService.Update | backend/src/modules/license/license.service.ts:33-36 | the table becomes `UpdateRows` of the old table, and the result is `FindOne` on the new table |
| LicenseService.UpdateLeavesRateStale | backend/src/modules/license/license.service.ts:33-36 | changing the used seats by `update` makes the stored rate disagree with the one `create` computes |
| LicenseService.GetUnderutilized | backend/src/modules/license/license.service.ts:42-49 | the result holds exactly the ACTIVE licences with a rate below the threshold, each as often as stored, sorted by rate ascending |
| LicenseService.RecommendEach | backend/src/modules/license/license.service.ts:58-73 | one recommendation per licence, in the licences' order |
| LicenseService.RecommendationBounds | backend/src/modules/license/license.service.ts:59-68 | for a current, non-negative licence under 50%, `ceil(used * 1.1)` lies between the used and the held seats, and the savings are not negative |
| LicenseService.RecommendAll | backend/src/modules/license/license.service.ts:55-73 | the loop pushes `Recommend` of each licence in order, and the running total is the sum of their savings |
| LicenseService.GetOptimizationOpportunities | backend/src/modules/license/license.service.ts:51-81 | the total licence count; the under-used count; one recommendation per under-used licence in query order; the total is the sum of their savings |
| LicenseService.RecommendedSavingsNonNegative | backend/src/modules/license/license.service.ts:59-61 | recommendations for current, non-negative licences under 50% save a non-negative total |
| LicenseService.SavingsNonNegative | backend/src/modules/license/license.service.ts:51-81 | over current, non-negative licences, the opportunities' total savings are not negative |
| LicenseService.GetAnalytics | backend/src/modules/license/license.service.ts:83-118 | the count, and the cost, seat and used-seat totals as sums over the rows; `overallUtilization * totalSeats == 100 * usedSeats`; vendor groups and status tallies add up to the totals, with distinct keys and each status's count of rows |
| LicenseService.VendorGroup | backend/src/modules/license/license.service.ts:91-99 | a vendor's group counts that vendor's licences and adds up their costs and seats |
| LicenseService.OverallUtilizationBounded | backend/src/modules/license/license.service.ts:86-89 | with no licence using more seats than it holds, the overall utilisation is in `[0, 100]` |
| OverlapService.CommonFeatures | backend/src/modules/overlap/overlap.service.ts:30-32 | the common features are never more than the first list |
| OverlapService.CommonFeaturesSpec | backend/src/modules/overlap/overlap.service.ts:30-32 | a list filter, not a set intersection: each feature of the first list that the second has, as often as the first has it, and nothing else |
| OverlapService.CommonFeaturesAppend | backend/src/modules/overlap/overlap.service.ts:30-32 | the filter keeps the first list's order: the common features of a concatenation are those of each part, in turn |
| OverlapService.CommonFeaturesSingle | backend/src/modules/overlap/overlap.service.ts:30-32 | a one-feature list keeps its feature exactly when the second list has it |
| OverlapService.SeverityOf | backend/src/modules/overlap/overlap.service.ts:37-40 | CRITICAL iff > 70, HIGH iff in (50, 70], MEDIUM iff in (30, 50], LOW iff <= 30 |
| OverlapService.SeverityMonotone | backend/src/modules/overlap/overlap.service.ts:37-40 | a larger percentage never gets a lower tier |
| OverlapService.OverlapRecord | backend/src/modules/overlap/overlap.service.ts:34-51 | a record's names, common features and count (> 0); a percentage in (0, 100] that is the count over the longer list; the tier of that percentage; consolidatable iff > 60; cost impact the sum of both costs; savings 0 |
| OverlapService.ConsolidatableIsSevere | backend/src/modules/overlap/overlap.service.ts:37-50 | a consolidatable overlap is HIGH or CRITICAL |
| OverlapService.Compare | backend/src/modules/overlap/overlap.service.ts:28-51 | a record is made iff both feature lists are present and share a feature, and it is `OverlapOf` the pair |
| OverlapService.DetectRow | backend/src/modules/overlap/overlap.service.ts:24-55 | the inner loop saves and returns the records of licence `i` against each later licence, in order |
| OverlapService.DetectOverlaps | backend/src/modules/overlap/overlap.service.ts:16-59 | the result is `PairwiseOverlaps(licenses)`, and the store is the old store followed by the result |
| OverlapService.CandidatesSpec | backend/src/modules/overlap/overlap.service.ts:23-28 | the compared pairs are exactly the positions `i < j` whose licences qualify; no licence is paired with itself; each pair comes once, in loop order |
| OverlapService.DetectedPerPair | backend/src/modules/overlap/overlap.service.ts:23-53 | the k-th saved record is the record of the k-th candidate pair |
| OverlapService.DetectedRecords | backend/src/modules/overlap/overlap.service.ts:34-51 | every detected record shares a feature, has a percentage in (0, 100] and carries no savings |
| OverlapService.DetectTwice | backend/src/modules/overlap/overlap.service.ts:16-59 | nothing is removed or deduplicated: a second run stores every record again |
| OverlapService.FindAll | backend/src/modules/overlap/overlap.service.ts:61-63 | the rows, permuted, with the percentage non-increasing |
| OverlapService.GetAnalytics | backend/src/modules/overlap/overlap.service.ts:65-82 | the total is the row count and the severity counts add up to it with distinct keys; at most every row is consolidatable; `topOverlaps` is the first min(10, n) rows of the `findAll` order |
| OverlapService.AnalyticsSummary | backend/src/modules/overlap/overlap.service.ts:65-76 | the summary counts all rows and the consolidatable rows, and sums the savings of the consolidatable rows only |
| OverlapService.SeverityCounts | backend/src/modules/overlap/overlap.service.ts:77-80 | the severity counts add up to the rows, no severity is listed twice, and each count is that severity's number of rows |
| OverlapService.TopOverlaps | backend/src/modules/overlap/overlap.service.ts:81 | `topOverlaps` has min(10, n) stored rows, each at most as often as stored, highest percentage first, none below a row left out |
| OverlapService.DetectedSavingsAreZero | backend/src/modules/overlap/overlap.service.ts:42-51 | over records saved by the detection, the summary's savings are 0 |
| OverlapService.ThreeInCommon | backend/src/modules/overlap/overlap.service.ts:30-32 | "a, b, c, d" and "b, c, d, e" have "b, c, d" in common |
| OverlapService.ThreeOfFourIsCritical | backend/src/modules/overlap/overlap.service.ts:35-50 | those two lists overlap 75%: CRITICAL and consolidatable |
| HardwareService.MarkUtilization | backend/src/modules/hardware/hardware.service.ts:17-24 | under iff it already was or cpu or memory < 30; over iff it already was or either > 85; the advice follows the last rule that fired; nothing else changes |
| HardwareService.Create | backend/src/modules/hardware/hardware.service.ts:13-27 | the saved machine is `Marked` and is appended |
| HardwareService.ModerateLoadUnchanged | backend/src/modules/hardware/hardware.service.ts:17-24 | cpu and memory in [30, 85] leave the record as it was (strict thresholds) |
| HardwareService.DiskIgnored | backend/src/modules/hardware/hardware.service.ts:17-24 | the disk utilisation affects neither rule |
| HardwareService.BothFlagsUpgradeAdvice | backend/src/modules/hardware/hardware.service.ts:17-24 | idle on one resource and saturated on the other: both flags, with the upgrade advice |
| HardwareService.MarkIdempotent | backend/src/modules/hardware/hardware.service.ts:17-24 | marking twice is marking once |
| HardwareService.GetAnalytics | backend/src/modules/hardware/hardware.service.ts:37-55 | the count; the cpu and memory averages; the flag counts, each at most the count; type counts adding up to the count, distinct, one per type |
| HardwareService.AveragesArePercentages | backend/src/modules/hardware/hardware.service.ts:39-40 | percentages average to percentages |
| CloudAnalysisService.Assess | backend/src/modules/cloud-analysis/cloud-analysis.service.ts:17-27 | the difference is cloud minus on-premise; under 40% and over 100 dearer: a candidate saving the difference (> 100); over 80% and over 100 cheaper: a candidate with savings untouched; otherwise flag, action and savings untouched |
| CloudAnalysisService.Create | backend/src/modules/cloud-analysis/cloud-analysis.service.ts:13-30 | the saved resource is `Assessed` and is appended |
| CloudAnalysisService.RulesExclusive | backend/src/modules/cloud-analysis/cloud-analysis.service.ts:20-27 | the two rules never both apply |
| CloudAnalysisService.AssessedCandidate | backend/src/modules/cloud-analysis/cloud-analysis.service.ts:20-27 | a candidate iff a rule applied or the request said so; non-negative savings stay non-negative |
| CloudAnalysisService.AssessIdempotent | backend/src/modules/cloud-analysis/cloud-analysis.service.ts:17-27 | assessing twice is assessing once |
| CloudAnalysisService.GetAnalytics | backend/src/modules/cloud-analysis/cloud-analysis.service.ts:36-64 | the cloud and on-premise totals are the sums of the rows' costs; the summary difference is cloud total minus on-premise total; candidates counted, at most the total; savings summed; provider and type groups add up to the count and the cloud cost, with distinct keys |
| CloudAnalysisService.ProviderAndTypeGroups | backend/src/modules/cloud-analysis/cloud-analysis.service.ts:51-62 | a provider's and a type's group count their resources and add up their costs |
| CloudAnalysisService.DifferenceOfTotals | backend/src/modules/cloud-analysis/cloud-analysis.service.ts:38-47 | over rows saved by `create`, the difference of totals is the total of the stored differences |
| CloudAnalysisService.SavingsTotal | backend/src/modules/cloud-analysis/cloud-analysis.service.ts:40-49 | non-negative savings add up to non-negative savings |
| StorageService.Assess | backend/src/modules/storage/storage.service.ts:15-21 | with duplicate data, the savings are size times price per GB and the advice names both; without, savings and advice are untouched; nothing but the rate changes otherwise |
| StorageService.Create | backend/src/modules/storage/storage.service.ts:13-24 | the saved solution is `Assessed` and is appended |
| StorageService.AssessedAdvice | backend/src/modules/storage/storage.service.ts:18-21 | with duplicate data the stored text is the advice for that size and those savings |
| StorageService.AssessedRate | backend/src/modules/storage/storage.service.ts:15 | the rate is used over total capacity in percent |
| StorageService.AssessedBounds | backend/src/modules/storage/storage.service.ts:15-19 | used within capacity gives a rate in [0, 100]; a non-negative price gives non-negative savings |
| StorageService.AdviceText | backend/src/modules/storage/storage.service.ts:20 | 450 GB saving 45 reads "Remove 450GB of duplicate data to save $45.00/month" |
| StorageService.DuplicateAdviceExample | backend/src/modules/storage/storage.service.ts:18-20 | 450 GB at 0.10 per GB saves 45 and the stored text says so |
| StorageService.GetAnalytics | backend/src/modules/storage/storage.service.ts:34-58 | count; capacity, used, cost and savings totals as sums over the rows; `overallUtilization * capacity == 100 * used`; type groups add up to count, capacity and cost, with distinct keys |
| StorageService.TypeGroup | backend/src/modules/storage/storage.service.ts:50-56 | a type's group counts its solutions and adds up their costs and capacities |
| StorageService.OverallUtilizationBounded | backend/src/modules/storage/storage.service.ts:36-46 | used within capacity everywhere gives an overall utilisation in [0, 100] |
| WorkflowService.ScoreEfficiency | backend/src/modules/workflow/workflow.service.ts:16-18 | with runs, the score is successful runs over runs in percent; without, the score is untouched; nothing else changes |
| WorkflowService.Create | backend/src/modules/workflow/workflow.service.ts:13-20 | the saved workflow is `Scored` and is appended |
| WorkflowService.ScoreIsPercentage | backend/src/modules/workflow/workflow.service.ts:17 | successful runs within runs give a score in [0, 100] |
| WorkflowService.ScoreIdempotent | backend/src/modules/workflow/workflow.service.ts:16-18 | scoring twice is scoring once |
| WorkflowService.OverCreditsInIntegers | backend/src/modules/workflow/workflow.service.ts:34 | `used > allotted * 0.8` iff `5 * used > 4 * allotted` |
| WorkflowService.GetInefficient | backend/src/modules/workflow/workflow.service.ts:30-36 | exactly the workflows scoring below 70 or using over 80% of their credits, each as often as stored |
| WorkflowService.NeverRunIsInefficient | backend/src/modules/workflow/workflow.service.ts:13-36 | a workflow saved with no runs keeps score 0 and is reported inefficient |
| WorkflowService.GetAnalytics | backend/src/modules/workflow/workflow.service.ts:38-55 | the count; the cost total; the efficiency average; the stored-flag count, at most the count; platform counts adding up to the count, distinct, one per platform |
| WorkflowService.AverageEfficiencyBounded | backend/src/modules/workflow/workflow.service.ts:41 | percentage scores average to a percentage |
| WorkflowService.FlagCountIsNotQuery | backend/src/modules/workflow/workflow.service.ts:30-48 | the summary counts the stored flag: a low-scoring unflagged workflow is returned by `getInefficient` but not counted |
| AnalyticsService.ScoreBounded | backend/src/modules/analytics/analytics.service.ts:89-97 | four percentages give a score in [0, 100] |
| AnalyticsService.Compose | backend/src/modules/analytics/analytics.service.ts:37-68 | spend is licence + workflow + storage + cloud cost; savings are storage + overlap + cloud savings; `percentage * spend == savings * 100`; the score; the six summaries passed through |
| AnalyticsService.SpendOfRows | backend/src/modules/analytics/analytics.service.ts:38-42 | the spend is the sum of the rows' licence, workflow, storage and cloud costs |
| AnalyticsService.SavingsOfRows | backend/src/modules/analytics/analytics.service.ts:45-48 | the savings are the rows' storage savings, consolidatable overlap savings and cloud savings |
| AnalyticsService.LicenseSavingsExcluded | backend/src/modules/analytics/analytics.service.ts:45-48 | the licences do not affect the savings total |
| AnalyticsService.DetectedOverlapsSaveNothing | backend/src/modules/analytics/analytics.service.ts:45-48 | over detected overlaps, the savings are storage plus cloud only |
| AnalyticsService.SavingsPercentageBounded | backend/src/modules/analytics/analytics.service.ts:54 | savings between 0 and a positive spend give a percentage in [0, 100] |
| AnalyticsService.DashboardScoreBounded | backend/src/modules/analytics/analytics.service.ts:55-60 | licences and storage solutions using no more than they have, and workflow scores and CPU utilisations within [0, 100], give a score in [0, 100] |
| AnalyticsService.RecommendationsFor | backend/src/modules/analytics/analytics.service.ts:74-86 | one urgent licence action with the count and the total savings; the first min(10, n) recommendations in order; no quick wins |
| AnalyticsService.GetRecommendations | backend/src/modules/analytics/analytics.service.ts:71-87 | the recommended list is the recommendations of the first ten under-used licences; the urgent action counts all of them and carries all their savings |

## Left out

- Repository I/O, `async` and `Promise.all`. The reads are independent, and a table is the sequence of its rows.
- LicenseService.GetAnalytics and LicenseService.VendorGroup: the vendor fold starts from a plain `{}` (`license.service.ts:91-99`), and vendor names are free text. For a vendor named after an `Object.prototype` member (`constructor`, `toString`, `valueOf`, `hasOwnProperty`, `__proto__`), the lookup finds the inherited, truthy property, so the initialiser is skipped. The increments then write NaN `count`, `cost` and `seats` onto that shared built-in object, and the change lasts for the rest of the process. The response has no entry for that vendor, so the source's vendor counts then add up to less than `totalLicenses`. The model treats every vendor name as an ordinary key, so it promises the totals add up for all names. The other folds are keyed by enumerations and are not affected.
- Key order of the group folds: an entry list keeps keys in the order they were first met. A JavaScript object lists integer-like keys (a vendor named "2024", say) first, in ascending order, and only then the other keys in insertion order; that reordering is not modelled. Counts and totals per key do not depend on it.
- `findAll` ordered by `createdAt DESC`. `createdAt` is not kept; the rows are taken in the order given. Sums and counts do not depend on it; the key order of the group folds does.
- `remove` (`license.service.ts:38-40`) and the per-service `findAll`/`findOne` reads: they are plain repository calls. The licence `findOne` is modelled because `update` returns it.
- `getCostTrends` (`license.service.ts:120-127`): a placeholder that returns two empty lists. The model's licence analytics have no `costTrends`.
- The database-generated id and the timestamps. The licence id is a parameter of `Create`.
- Omitted request fields. `repository.create()` does not apply the column defaults, so in the source a rule that reads an omitted field sees `undefined`, and the database default only arrives on insert. The model's `create` takes a full record in which every field the rules read has a value, so these cases are not modelled:
  - hardware (`hardware.service.ts:17,21`): `undefined < 30` and `undefined > 85` are false, so an omitted CPU or memory utilisation never sets a flag, where the model (reading 0) flags the machine as under-utilised;
  - cloud (`cloud-analysis.service.ts:17-24`): an omitted `monthlyCost` or `onPremiseEquivalentCost` makes `.toString()` throw, and an omitted utilisation makes both migration tests false;
  - storage (`storage.service.ts:15`): an omitted used or total capacity gives a NaN rate.
- Descriptive columns that no rule reads (dates, owners, departments, notes, free text). They are dropped from the records.
- IEEE double arithmetic. All numbers are exact; `usedSeats * 1.1` is exactly 11/10 of the seats.
- Column precision: the database rounds decimal columns to two places (`decimal(5,2)` rates, `decimal(10,2)` costs) when it stores them, and rejects a value whose integer part does not fit. A rate or score of 1000 or more does not fit `decimal(5,2)`, so the save fails: a licence with 11 of 1 seats used, a storage solution using ten times its capacity, a workflow with ten times more successes than runs. The model rounds nothing and saves every row, so this error path is not modelled.
- `parseFloat(x.toString())` and `Number(x)` on column values are the identity on the model's numbers. The dashboard's `|| 0` fallbacks only differ for NaN, which the `requires` on the divisions exclude.
- HardwareService.GetAnalytics, WorkflowService.GetAnalytics, LicenseService.GetAnalytics and StorageService.GetAnalytics: the averages and utilisations are numbers here. The source returns `toFixed(2)` strings.
- AnalyticsService.Compose: the spend, savings and percentage are numbers. The source returns `toFixed(2)` strings and reads the `toFixed` strings of the summaries back with `parseFloat`, so the two-place rounding is not modelled.
- AnalyticsService.GetDashboardSummary has no contract of its own. Its properties are stated by `Compose` and the lemmas about it (`SpendOfRows`, `SavingsOfRows`, `SavingsPercentageBounded`, `DashboardScoreBounded`).
- StorageService.Storage: the `optimizationSuggestion` column holds a `Suggestion`. That is either a given text or the two figures the duplicate advice is rendered from, and `Text` renders it.
- StorageService.Assess: the rendering is pinned by `AdviceText` and `DuplicateAdviceExample`. `Fixed2` rounds half up on the exact value. It does not reproduce `toFixed` on binary doubles, nor its exponent form at and above 1e21.
- WorkflowService.GetInefficient: the query has no `ORDER BY`, so the database's order is unspecified. The model keeps the stored order.
- LicenseService.GetUnderutilized: the order of licences with equal rates is the sort's. SQL leaves it unspecified, and only sortedness and the permutation are stated.
- LicenseService.GetOptimizationOpportunities: the source reads the licences twice, once for the count and once for the under-used query. The model passes one list, so both reads see the same rows.
- The reports, authentication and integrations services, the seed script, the controllers, the module wiring and the frontend are not part of this model.
