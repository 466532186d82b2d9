/** The licence service: creating a licence (which fixes its utilisation
    rate), updating one, the under-utilised query, the seat-reduction
    recommendations and the licence analytics. */
module LicenseService {
  import opened Common
  import opened Seqs
  import opened Grouping
  import opened Repositories

  datatype LicenseStatus = Active | Inactive | Expiring | Expired

  /** A row of the `licenses` table. Dates, licence type, department and
      assignee are descriptive columns that no rule reads and are not kept. */
  datatype License = License(
    id: string,
    software: string,
    vendor: string,
    totalSeats: int,
    usedSeats: int,
    costPerSeat: real,
    totalCost: real,
    status: LicenseStatus,
    features: Option<seq<string>>,   // nullable jsonb column
    utilizationRate: real)

  /** The body of a create request; `usedSeats` and `status` may be omitted. */
  datatype CreateLicenseDto = CreateLicenseDto(
    software: string,
    vendor: string,
    totalSeats: int,
    usedSeats: Option<int>,
    costPerSeat: real,
    totalCost: real,
    status: Option<LicenseStatus>,
    features: Option<seq<string>>)

  /** `createLicenseDto.usedSeats || 0` */
  function UsedOrZero(used: Option<int>): int
  {
    if used.Some? then used.value else 0
  }

  /** The rate as `create` computes it. */
  ghost predicate RateConsistent(l: License)
  {
    l.totalSeats != 0 && l.utilizationRate == l.usedSeats as real / l.totalSeats as real * 100.0
  }

  /** The entity `create` saves: the request's fields, the schema defaults
      (0 used seats, status active) for what the request omits, and the
      utilisation rate `(usedSeats || 0) / totalSeats * 100`. The division is
      not guarded in the service, so a zero seat total is excluded here. */
  function NewLicense(id: string, dto: CreateLicenseDto): (l: License)
    requires dto.totalSeats != 0
    ensures l.id == id && l.software == dto.software && l.vendor == dto.vendor
    ensures l.totalSeats == dto.totalSeats && l.costPerSeat == dto.costPerSeat
    ensures l.totalCost == dto.totalCost && l.features == dto.features
    ensures l.usedSeats == UsedOrZero(dto.usedSeats)
    ensures l.utilizationRate * dto.totalSeats as real == UsedOrZero(dto.usedSeats) as real * 100.0
    ensures RateConsistent(l)
    ensures l.status == if dto.status.Some? then dto.status.value else Active
    ensures 0 <= l.usedSeats <= dto.totalSeats ==> 0.0 <= l.utilizationRate <= 100.0
  {
    var used := UsedOrZero(dto.usedSeats);
    var l := License(
      id, dto.software, dto.vendor, dto.totalSeats, used, dto.costPerSeat, dto.totalCost,
      if dto.status.Some? then dto.status.value else Active,
      dto.features,
      used as real / dto.totalSeats as real * 100.0);
    assert 0 <= used <= dto.totalSeats ==> used as real / dto.totalSeats as real <= 1.0;
    Scaled(used as real, dto.totalSeats as real);
    l
  }

  /** `create`: computes the rate once and saves the new row. `id` is the
      identifier the database generates. */
  method Create(repo: Repository<License>, id: string, dto: CreateLicenseDto) returns (saved: License)
    requires dto.totalSeats != 0
    modifies repo
    ensures saved == NewLicense(id, dto)
    ensures repo.rows == old(repo.rows) + [saved]
  {
    saved := NewLicense(id, dto);
    repo.Save(saved);
  }

  // ---- update ---------------------------------------------------------------

  /** A partial create request: the fields an update writes. */
  datatype LicensePatch = LicensePatch(
    software: Option<string>,
    vendor: Option<string>,
    totalSeats: Option<int>,
    usedSeats: Option<int>,
    costPerSeat: Option<real>,
    totalCost: Option<real>,
    status: Option<LicenseStatus>,
    features: Option<seq<string>>)

  function Pick<T>(given: Option<T>, current: T): T
  {
    if given.Some? then given.value else current
  }

  /** Writes the given fields. Nothing is recomputed: `utilizationRate` (and
      `totalCost`) keep their stored values. */
  function Patched(l: License, p: LicensePatch): (r: License)
    ensures r.software == (if p.software.Some? then p.software.value else l.software)
    ensures r.vendor == (if p.vendor.Some? then p.vendor.value else l.vendor)
    ensures r.totalSeats == (if p.totalSeats.Some? then p.totalSeats.value else l.totalSeats)
    ensures r.usedSeats == (if p.usedSeats.Some? then p.usedSeats.value else l.usedSeats)
    ensures r.costPerSeat == (if p.costPerSeat.Some? then p.costPerSeat.value else l.costPerSeat)
    ensures r.totalCost == (if p.totalCost.Some? then p.totalCost.value else l.totalCost)
    ensures r.status == (if p.status.Some? then p.status.value else l.status)
    ensures r.features == (if p.features.Some? then p.features else l.features)
    ensures r.id == l.id && r.utilizationRate == l.utilizationRate
  {
    l.(software := Pick(p.software, l.software),
       vendor := Pick(p.vendor, l.vendor),
       totalSeats := Pick(p.totalSeats, l.totalSeats),
       usedSeats := Pick(p.usedSeats, l.usedSeats),
       costPerSeat := Pick(p.costPerSeat, l.costPerSeat),
       totalCost := Pick(p.totalCost, l.totalCost),
       status := Pick(p.status, l.status),
       features := if p.features.Some? then p.features else l.features)
  }

  /** `UPDATE licenses SET ... WHERE id = :id` */
  function UpdateRows(rows: seq<License>, id: string, p: LicensePatch): (r: seq<License>)
    ensures |r| == |rows|
    ensures forall i :: 0 <= i < |r| ==> r[i].id == rows[i].id && r[i].utilizationRate == rows[i].utilizationRate
    ensures forall i :: 0 <= i < |r| && rows[i].id != id ==> r[i] == rows[i]
    ensures forall i :: 0 <= i < |r| && rows[i].id == id ==> r[i] == Patched(rows[i], p)
  {
    seq(|rows|, i requires 0 <= i < |rows| => if rows[i].id == id then Patched(rows[i], p) else rows[i])
  }

  /** `findOne({ where: { id } })`: the first row with that id, if any. */
  function FindOne(rows: seq<License>, id: string): (r: Option<License>)
    ensures r.Some? ==> r.value in rows && r.value.id == id
    ensures r.None? <==> forall l :: l in rows ==> l.id != id
  {
    if rows == [] then None
    else if rows[0].id == id then Some(rows[0])
    else FindOne(rows[1..], id)
  }

  /** `update`: writes the fields, then reads the row back. */
  method Update(repo: Repository<License>, id: string, p: LicensePatch) returns (r: Option<License>)
    modifies repo
    ensures repo.rows == UpdateRows(old(repo.rows), id, p)
    ensures r == FindOne(repo.rows, id)
  {
    repo.rows := UpdateRows(repo.rows, id, p);
    r := FindOne(repo.rows, id);
  }

  /** A rate fixed at creation goes stale when an update changes the used
      seats and leaves the total alone. */
  lemma {:induction false} UpdateLeavesRateStale(l: License, p: LicensePatch)
    requires RateConsistent(l)
    requires p.totalSeats.None? && p.usedSeats.Some? && p.usedSeats.value != l.usedSeats
    ensures !RateConsistent(Patched(l, p))
  {
  }

  // ---- under-utilised licences ---------------------------------------------

  /** The default `threshold` of `getUnderutilized`. */
  const DefaultThreshold: real := 50.0

  predicate IsUnderutilized(l: License, threshold: real)
  {
    l.utilizationRate < threshold && l.status == Active
  }

  function Rate(l: License): real
  {
    l.utilizationRate
  }

  /** `getUnderutilized(threshold)`: the active licences whose rate is below
      the threshold, ordered by rate ascending. */
  function GetUnderutilized(licenses: seq<License>, threshold: real): (r: seq<License>)
    ensures forall l :: multiset(r)[l] == if IsUnderutilized(l, threshold) then multiset(licenses)[l] else 0
    ensures SortedBy(r, Rate)
  {
    SortBy(Filter(licenses, l => IsUnderutilized(l, threshold)), Rate)
  }

  // ---- optimisation opportunities -------------------------------------------

  datatype Recommendation = Recommendation(
    licenseId: string,
    software: string,
    currentSeats: int,
    usedSeats: int,
    recommendedSeats: int,
    potentialSavings: real,
    utilizationRate: real,
    action: string)

  datatype Opportunities = Opportunities(
    totalLicenses: nat,
    underutilizedLicenses: nat,
    totalPotentialSavings: real,
    recommendations: seq<Recommendation>)

  const ReduceAction: string := "Reduce license count"

  /** One recommendation: the unused seats priced at the seat cost, and the
      used seats plus a 10% buffer, rounded up. */
  function Recommend(l: License): Recommendation
  {
    Recommendation(
      l.id, l.software, l.totalSeats, l.usedSeats,
      Ceil(l.usedSeats as real * 1.1),
      (l.totalSeats - l.usedSeats) as real * l.costPerSeat,
      l.utilizationRate, ReduceAction)
  }

  /** The recommendations for a list of licences, in its order. */
  function RecommendEach(ls: seq<License>): (rs: seq<Recommendation>)
    ensures |rs| == |ls|
    ensures forall k :: 0 <= k < |ls| ==> rs[k] == Recommend(ls[k])
  {
    if |ls| == 0 then [] else RecommendEach(ls[..|ls| - 1]) + [Recommend(ls[|ls| - 1])]
  }

  function Savings(r: Recommendation): real
  {
    r.potentialSavings
  }

  /** Predicate for licences whose stored figures are as `create` left them
      and are not negative. */
  ghost predicate WellFormed(l: License)
  {
    RateConsistent(l) && l.totalSeats > 0 && l.usedSeats >= 0 && l.costPerSeat >= 0.0
  }

  /** For a licence below the default threshold whose rate is current, the
      recommendation never asks for more seats than are held, never fewer than
      are used, and saves a non-negative amount. */
  lemma {:induction false} RecommendationBounds(l: License)
    requires WellFormed(l) && IsUnderutilized(l, DefaultThreshold)
    ensures l.usedSeats <= Recommend(l).recommendedSeats <= l.totalSeats
    ensures Recommend(l).potentialSavings >= 0.0
  {
    var u, t := l.usedSeats as real, l.totalSeats as real;
    Scaled(u, t);
    ScaleBelow(u / t * 100.0, 50.0, t);
    assert u * 100.0 < 50.0 * t;
    assert u * 1.1 <= t;
    assert (l.totalSeats - l.usedSeats) as real >= 0.0;
  }

  /** `getOptimizationOpportunities`: the under-utilised licences, walked by
      `RecommendAll`. */
  method GetOptimizationOpportunities(licenses: seq<License>) returns (o: Opportunities)
    ensures o.totalLicenses == |licenses|
    ensures var under := GetUnderutilized(licenses, DefaultThreshold);
      o.underutilizedLicenses == |under| && o.recommendations == RecommendEach(under)
    ensures o.totalPotentialSavings == Sum(o.recommendations, Savings)
  {
    var under := GetUnderutilized(licenses, DefaultThreshold);
    var total, recommendations := RecommendAll(under);
    o := Opportunities(|licenses|, |under|, total, recommendations);
  }

  /** The loop of `getOptimizationOpportunities`: adds each licence's savings
      to a running total and pushes its recommendation. */
  method RecommendAll(under: seq<License>) returns (total: real, recommendations: seq<Recommendation>)
    ensures recommendations == RecommendEach(under)
    ensures total == Sum(recommendations, Savings)
  {
    total := 0.0;
    recommendations := [];
    for k := 0 to |under|
      invariant recommendations == RecommendEach(under[..k])
      invariant total == Sum(recommendations, Savings)
    {
      var r := Recommend(under[k]);
      total := total + r.potentialSavings;
      SumSnoc(recommendations, r, Savings);
      recommendations := recommendations + [r];
      assert under[..k + 1][..k] == under[..k];
    }
    assert under[..|under|] == under;
  }

  /** Recommendations for licences below the default threshold whose
      figures are current and not negative save a non-negative total. */
  lemma {:induction false} RecommendedSavingsNonNegative(under: seq<License>)
    requires forall l :: l in under ==> WellFormed(l) && IsUnderutilized(l, DefaultThreshold)
    ensures Sum(RecommendEach(under), Savings) >= 0.0
    decreases |under|
  {
    if |under| > 0 {
      var init, last := under[..|under| - 1], under[|under| - 1];
      assert forall l :: l in init ==> l in under;
      RecommendedSavingsNonNegative(init);
      RecommendationBounds(last);
    }
  }

  /** Over licences whose figures are current and not negative, the total
      of the opportunities' savings is not negative. */
  lemma {:induction false} SavingsNonNegative(licenses: seq<License>)
    requires forall l :: l in licenses ==> WellFormed(l)
    ensures Sum(RecommendEach(GetUnderutilized(licenses, DefaultThreshold)), Savings) >= 0.0
  {
    var under := GetUnderutilized(licenses, DefaultThreshold);
    forall l | l in under ensures WellFormed(l) && IsUnderutilized(l, DefaultThreshold) {
      assert multiset(under)[l] > 0;
    }
    RecommendedSavingsNonNegative(under);
  }

  // ---- analytics ------------------------------------------------------------

  datatype LicenseSummary = LicenseSummary(
    totalLicenses: nat,
    totalCost: real,
    totalSeats: real,
    usedSeats: real,
    overallUtilization: real)

  datatype LicenseAnalytics = LicenseAnalytics(
    summary: LicenseSummary,
    byVendor: seq<Bucket<string>>,   // count, cost, seats
    byStatus: seq<KeyCount<LicenseStatus>>)

  function TotalCost(l: License): real { l.totalCost }
  function Seats(l: License): real { l.totalSeats as real }
  function UsedSeats(l: License): real { l.usedSeats as real }
  function Vendor(l: License): string { l.vendor }
  function Status(l: License): LicenseStatus { l.status }

  /** `getAnalytics`. The utilisation divides by the seat total without a
      guard, so a zero total is excluded. */
  function GetAnalytics(licenses: seq<License>): (a: LicenseAnalytics)
    requires Sum(licenses, Seats) != 0.0
    ensures a.summary.totalLicenses == |licenses| == Members(a.byVendor) == Counted(a.byStatus)
    ensures a.summary.totalCost == Sum(licenses, TotalCost) == Costs(a.byVendor)
    ensures a.summary.totalSeats == Sum(licenses, Seats)
    ensures a.summary.usedSeats == Sum(licenses, UsedSeats)
    ensures Sizes(a.byVendor) == a.summary.totalSeats
    ensures a.summary.overallUtilization * a.summary.totalSeats == 100.0 * a.summary.usedSeats
    ensures DistinctBuckets(a.byVendor) && DistinctKeys(a.byStatus)
    ensures forall s :: CountFor(a.byStatus, s) == Count(licenses, HasKey(Status, s))
  {
    var totalCost := Sum(licenses, TotalCost);
    var totalSeats := Sum(licenses, Seats);
    var usedSeats := Sum(licenses, UsedSeats);
    LicenseAnalytics(
      LicenseSummary(|licenses|, totalCost, totalSeats, usedSeats, usedSeats / totalSeats * 100.0),
      GroupBy(licenses, Vendor, TotalCost, Seats),
      Tally(licenses, Status))
  }

  /** A vendor's group counts that vendor's licences and adds up their costs
      and seats. */
  lemma {:induction false} VendorGroup(licenses: seq<License>, vendor: string)
    requires Sum(licenses, Seats) != 0.0
    ensures var byVendor := GetAnalytics(licenses).byVendor;
      && MembersFor(byVendor, vendor) == Count(licenses, HasKey(Vendor, vendor))
      && CostFor(byVendor, vendor) == Sum(Filter(licenses, HasKey(Vendor, vendor)), TotalCost)
      && SizeFor(byVendor, vendor) == Sum(Filter(licenses, HasKey(Vendor, vendor)), Seats)
  {
    GroupByEntry(licenses, Vendor, TotalCost, Seats, vendor);
  }

  /** The overall utilisation is a percentage whenever no licence reports
      more used seats than it holds. */
  lemma {:induction false} OverallUtilizationBounded(licenses: seq<License>)
    requires Sum(licenses, Seats) != 0.0
    requires forall l :: l in licenses ==> 0 <= l.usedSeats <= l.totalSeats
    ensures 0.0 <= GetAnalytics(licenses).summary.overallUtilization <= 100.0
  {
    SumMonotone(licenses, UsedSeats, Seats);
    SumNonNegative(licenses, UsedSeats);
    var u, t := Sum(licenses, UsedSeats), Sum(licenses, Seats);
    Ratio(u, t);
  }
}
