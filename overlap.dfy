/** The overlap service: pairwise comparison of the licences' feature lists,
    the overlap records it saves, and the overlap analytics. */
module OverlapService {
  import opened Common
  import opened Seqs
  import opened Grouping
  import opened Repositories
  import opened LicenseService

  datatype Severity = Low | Medium | High | Critical

  /** A row of the `overlaps` table. The free-text and bookkeeping columns
      (recommendation, preferred solution, reason, users affected, resolved
      flag, dates) are never written by the service and are not kept;
      `potentialSavings` is, because the analytics read it. */
  datatype Overlap = Overlap(
    software1: string,
    software2: string,
    commonFeatures: seq<string>,
    featureOverlapCount: int,
    overlapPercentage: real,
    severity: Severity,
    costImpact: real,
    potentialSavings: real,   // schema default 0
    isConsolidatable: bool)

  // ---- comparing two licences -----------------------------------------------

  /** `features1.filter(f => features2.includes(f))`: a list filter, so the
      order and the repetitions of the first list are kept. */
  function CommonFeatures(features1: seq<string>, features2: seq<string>): (common: seq<string>)
    ensures |common| <= |features1|
  {
    if |features1| == 0 then []
    else
      var f := features1[|features1| - 1];
      CommonFeatures(features1[..|features1| - 1], features2) + (if f in features2 then [f] else [])
  }

  /** What `commonFeatures` holds: each feature of the first list that the
      second list also has, as often as the first list has it, and nothing
      else. */
  lemma {:induction false} CommonFeaturesSpec(features1: seq<string>, features2: seq<string>)
    ensures forall f :: multiset(CommonFeatures(features1, features2))[f]
                        == if f in features2 then multiset(features1)[f] else 0
    ensures forall f :: f in CommonFeatures(features1, features2) <==> f in features1 && f in features2
    decreases |features1|
  {
    if |features1| > 0 {
      var init, last := features1[..|features1| - 1], features1[|features1| - 1];
      assert features1 == init + [last];
      CommonFeaturesSpec(init, features2);
    }
    var common := CommonFeatures(features1, features2);
    forall f ensures f in common <==> f in features1 && f in features2 {
      assert f in common <==> multiset(common)[f] > 0;
      assert f in features1 <==> multiset(features1)[f] > 0;
    }
  }

  /** The filter goes through the first list front to back: the common
      features of two stretches of it, one after the other, are those of the
      whole, so the first list's order is kept. */
  lemma {:induction false} CommonFeaturesAppend(a: seq<string>, b: seq<string>, features2: seq<string>)
    ensures CommonFeatures(a + b, features2) == CommonFeatures(a, features2) + CommonFeatures(b, features2)
    decreases |b|
  {
    if |b| == 0 {
      assert a + b == a;
    } else {
      var init := b[..|b| - 1];
      assert (a + b)[..|a + b| - 1] == a + init;
      assert (a + b)[|a + b| - 1] == b[|b| - 1];
      CommonFeaturesAppend(a, init, features2);
    }
  }

  /** One feature is kept exactly when the second list has it. */
  lemma {:induction false} CommonFeaturesSingle(f: string, features2: seq<string>)
    ensures CommonFeatures([f], features2) == if f in features2 then [f] else []
  {
    assert [f][..0] == [];
  }

  /** A pair is recorded when both licences have a feature list (an empty
      list is present, it is `null` that is skipped) and they share a feature. */
  predicate Qualifies(l1: License, l2: License)
  {
    l1.features.Some? && l2.features.Some?
    && |CommonFeatures(l1.features.value, l2.features.value)| > 0
  }

  /** The severity tiers, with strict lower bounds. */
  function SeverityOf(percentage: real): (s: Severity)
    ensures s == Critical <==> percentage > 70.0
    ensures s == High <==> 50.0 < percentage <= 70.0
    ensures s == Medium <==> 30.0 < percentage <= 50.0
    ensures s == Low <==> percentage <= 30.0
  {
    if percentage > 70.0 then Critical
    else if percentage > 50.0 then High
    else if percentage > 30.0 then Medium
    else Low
  }

  function Rank(s: Severity): nat
  {
    match s
    case Low => 0
    case Medium => 1
    case High => 2
    case Critical => 3
  }

  /** A larger overlap never gets a lower tier. */
  lemma {:induction false} SeverityMonotone(p: real, q: real)
    requires p <= q
    ensures Rank(SeverityOf(p)) <= Rank(SeverityOf(q))
  {
  }

  /** The record saved for a qualifying pair. */
  function OverlapOf(l1: License, l2: License): Overlap
    requires Qualifies(l1, l2)
  {
    var features1, features2 := l1.features.value, l2.features.value;
    var common := CommonFeatures(features1, features2);
    var percentage := |common| as real / Max(|features1|, |features2|) as real * 100.0;
    Overlap(
      l1.software, l2.software, common, |common|, percentage,
      SeverityOf(percentage), l1.totalCost + l2.totalCost, 0.0, percentage > 60.0)
  }

  /** What a record says about its pair: the names, the shared features and
      their number, the share of the longer list they make (a percentage in
      (0, 100], whether or not the first list repeats a feature), its tier,
      the consolidation flag, the combined cost, and no savings. */
  lemma {:induction false} OverlapRecord(l1: License, l2: License)
    requires Qualifies(l1, l2)
    ensures var o := OverlapOf(l1, l2);
      && o.software1 == l1.software && o.software2 == l2.software
      && o.commonFeatures == CommonFeatures(l1.features.value, l2.features.value)
      && o.featureOverlapCount == |o.commonFeatures| > 0
      && 0.0 < o.overlapPercentage <= 100.0
      && o.overlapPercentage * Max(|l1.features.value|, |l2.features.value|) as real
         == o.featureOverlapCount as real * 100.0
      && o.severity == SeverityOf(o.overlapPercentage)
      && (o.isConsolidatable <==> o.overlapPercentage > 60.0)
      && o.costImpact == l1.totalCost + l2.totalCost
      && o.potentialSavings == 0.0
  {
    var features1, features2 := l1.features.value, l2.features.value;
    var common := CommonFeatures(features1, features2);
    Share(|common| as real, Max(|features1|, |features2|) as real);
  }

  /** Every consolidatable overlap is at least of HIGH severity. */
  lemma {:induction false} ConsolidatableIsSevere(l1: License, l2: License)
    requires Qualifies(l1, l2)
    ensures OverlapOf(l1, l2).isConsolidatable ==> Rank(OverlapOf(l1, l2).severity) >= 2
  {
  }

  /** One comparison of the loop body: the common features, the percentage
      and the severity chosen by the `if`/`else if` chain. */
  method Compare(license1: License, license2: License) returns (overlap: Option<Overlap>)
    ensures overlap.Some? <==> Qualifies(license1, license2)
    ensures overlap.Some? ==> overlap.value == OverlapOf(license1, license2)
  {
    if license1.features.None? || license2.features.None? {
      return None;
    }
    var features1, features2 := license1.features.value, license2.features.value;
    var commonFeatures := CommonFeatures(features1, features2);
    if |commonFeatures| > 0 {
      var overlapPercentage := |commonFeatures| as real / Max(|features1|, |features2|) as real * 100.0;
      var severity := Low;
      if overlapPercentage > 70.0 {
        severity := Critical;
      } else if overlapPercentage > 50.0 {
        severity := High;
      } else if overlapPercentage > 30.0 {
        severity := Medium;
      }
      overlap := Some(Overlap(
        license1.software, license2.software, commonFeatures, |commonFeatures|,
        overlapPercentage, severity, license1.totalCost + license2.totalCost,
        0.0, overlapPercentage > 60.0));
    } else {
      overlap := None;
    }
  }

  // ---- the records the nested loops make ------------------------------------

  /** The records the inner loop makes for licence `i` against the licences
      `i + 1 .. bound - 1`, in that order. */
  function RowOverlaps(ls: seq<License>, i: nat, bound: nat): seq<Overlap>
    requires i < bound <= |ls|
    decreases bound
  {
    if bound == i + 1 then []
    else
      RowOverlaps(ls, i, bound - 1)
      + (if Qualifies(ls[i], ls[bound - 1]) then [OverlapOf(ls[i], ls[bound - 1])] else [])
  }

  /** The records the outer loop has made once licences `0 .. n - 1` have
      been compared with every later one. */
  function OverlapsBefore(ls: seq<License>, n: nat): seq<Overlap>
    requires n <= |ls|
  {
    if n == 0 then [] else OverlapsBefore(ls, n - 1) + RowOverlaps(ls, n - 1, |ls|)
  }

  /** What `detectOverlaps` returns and saves for a list of licences. */
  function PairwiseOverlaps(ls: seq<License>): seq<Overlap>
  {
    OverlapsBefore(ls, |ls|)
  }

  /** `detectOverlaps`: compares every pair `i < j`, saves each record as it
      is made and returns them in the order they were made. */
  method DetectOverlaps(licenses: seq<License>, store: Repository<Overlap>) returns (overlaps: seq<Overlap>)
    modifies store
    ensures overlaps == PairwiseOverlaps(licenses)
    ensures store.rows == old(store.rows) + overlaps
  {
    overlaps := [];
    for i := 0 to |licenses|
      invariant overlaps == OverlapsBefore(licenses, i)
      invariant store.rows == old(store.rows) + overlaps
    {
      var row := DetectRow(licenses, i, store);
      overlaps := overlaps + row;
    }
  }

  /** The inner loop of `detectOverlaps`: licence `i` against every later
      one, saving each record as it is made. */
  method DetectRow(licenses: seq<License>, i: nat, store: Repository<Overlap>) returns (row: seq<Overlap>)
    requires i < |licenses|
    modifies store
    ensures row == RowOverlaps(licenses, i, |licenses|)
    ensures store.rows == old(store.rows) + row
  {
    row := [];
    for j := i + 1 to |licenses|
      invariant row == RowOverlaps(licenses, i, j)
      invariant store.rows == old(store.rows) + row
    {
      var overlap := Compare(licenses[i], licenses[j]);
      if overlap.Some? {
        row := row + [overlap.value];
        store.Save(overlap.value);
      }
    }
  }

  // ---- which pairs are recorded ---------------------------------------------

  /** Indices of two licences in the fetched list. */
  datatype Pair = Pair(i: nat, j: nat)

  /** `(i, j)` comes before `(i', j')` in the order the nested loops visit. */
  predicate Before(p: Pair, q: Pair)
  {
    p.i < q.i || (p.i == q.i && p.j < q.j)
  }

  /** The pair is of two positions `i < j` whose licences qualify. */
  predicate Candidate(ls: seq<License>, p: Pair)
  {
    p.i < p.j < |ls| && Qualifies(ls[p.i], ls[p.j])
  }

  /** The qualifying pairs `(i, j)` with `i < j < bound`, as the inner loop
      meets them. */
  function RowPairs(ls: seq<License>, i: nat, bound: nat): seq<Pair>
    requires i < bound <= |ls|
    decreases bound
  {
    if bound == i + 1 then []
    else RowPairs(ls, i, bound - 1) + (if Qualifies(ls[i], ls[bound - 1]) then [Pair(i, bound - 1)] else [])
  }

  /** The qualifying pairs whose first index is below `n`, in visiting order. */
  function PairsBefore(ls: seq<License>, n: nat): seq<Pair>
    requires n <= |ls|
  {
    if n == 0 then [] else PairsBefore(ls, n - 1) + RowPairs(ls, n - 1, |ls|)
  }

  /** Every pair of distinct positions whose licences share a feature, in
      the order of the nested loops. */
  function Candidates(ls: seq<License>): seq<Pair>
  {
    PairsBefore(ls, |ls|)
  }

  lemma {:induction false} RowPairsSpec(ls: seq<License>, i: nat, bound: nat)
    requires i < bound <= |ls|
    ensures forall p :: p in RowPairs(ls, i, bound) <==> p.i == i && p.j < bound && Candidate(ls, p)
    ensures forall k, m :: 0 <= k < m < |RowPairs(ls, i, bound)| ==>
      Before(RowPairs(ls, i, bound)[k], RowPairs(ls, i, bound)[m])
    decreases bound
  {
    if bound > i + 1 {
      RowPairsSpec(ls, i, bound - 1);
      var init := RowPairs(ls, i, bound - 1);
      var ps := RowPairs(ls, i, bound);
      if Qualifies(ls[i], ls[bound - 1]) {
        assert ps == init + [Pair(i, bound - 1)];
        forall k, m | 0 <= k < m < |ps| ensures Before(ps[k], ps[m]) {
          if m < |init| {
            assert ps[k] == init[k] && ps[m] == init[m];
          } else {
            assert ps[k] == init[k] && init[k] in init;
          }
        }
      } else {
        assert ps == init;
      }
    }
  }

  lemma {:induction false} PairsBeforeSpec(ls: seq<License>, n: nat)
    requires n <= |ls|
    ensures forall p :: p in PairsBefore(ls, n) <==> p.i < n && Candidate(ls, p)
    ensures forall k, m :: 0 <= k < m < |PairsBefore(ls, n)| ==> Before(PairsBefore(ls, n)[k], PairsBefore(ls, n)[m])
  {
    if n > 0 {
      var done, row := PairsBefore(ls, n - 1), RowPairs(ls, n - 1, |ls|);
      PairsBeforeSpec(ls, n - 1);
      RowPairsSpec(ls, n - 1, |ls|);
      var ps := done + row;
      assert PairsBefore(ls, n) == ps;
      forall k, m | 0 <= k < m < |ps| ensures Before(ps[k], ps[m]) {
        if m < |done| {
          assert ps[k] == done[k] && ps[m] == done[m];
        } else if k >= |done| {
          assert ps[k] == row[k - |done|] && ps[m] == row[m - |done|];
        } else {
          assert done[k] in done;
          assert ps[m] == row[m - |done|] && row[m - |done|] in row;
        }
      }
    }
  }

  /** The candidate pairs are exactly the pairs of positions `i < j` whose
      licences qualify; no licence is paired with itself, each unordered pair
      comes once, and the pairs follow the loops' visiting order. */
  lemma {:induction false} CandidatesSpec(ls: seq<License>)
    ensures forall i: nat, j: nat :: Pair(i, j) in Candidates(ls) <==> i < j < |ls| && Qualifies(ls[i], ls[j])
    ensures forall k, m :: 0 <= k < m < |Candidates(ls)| ==> Before(Candidates(ls)[k], Candidates(ls)[m])
    ensures forall k, m :: 0 <= k < m < |Candidates(ls)| ==> Candidates(ls)[k] != Candidates(ls)[m]
  {
    PairsBeforeSpec(ls, |ls|);
    var ps := Candidates(ls);
    forall i: nat, j: nat ensures Pair(i, j) in ps <==> i < j < |ls| && Qualifies(ls[i], ls[j]) {
      assert Candidate(ls, Pair(i, j)) <==> i < j < |ls| && Qualifies(ls[i], ls[j]);
    }
    forall k, m | 0 <= k < m < |ps| ensures ps[k] != ps[m] {
      assert Before(ps[k], ps[m]);
    }
  }

  /** `os` holds, position by position, the records of the pairs `ps`. */
  ghost predicate RecordsOf(ls: seq<License>, ps: seq<Pair>, os: seq<Overlap>)
  {
    |os| == |ps|
    && forall k :: 0 <= k < |ps| ==> Candidate(ls, ps[k]) && os[k] == OverlapOf(ls[ps[k].i], ls[ps[k].j])
  }

  lemma {:induction false} RecordsOfAppend(ls: seq<License>, ps: seq<Pair>, os: seq<Overlap>, qs: seq<Pair>, rs: seq<Overlap>)
    requires RecordsOf(ls, ps, os) && RecordsOf(ls, qs, rs)
    ensures RecordsOf(ls, ps + qs, os + rs)
  {
    forall k | 0 <= k < |ps + qs|
      ensures Candidate(ls, (ps + qs)[k]) && (os + rs)[k] == OverlapOf(ls[(ps + qs)[k].i], ls[(ps + qs)[k].j])
    {
      if k < |ps| {
        assert (ps + qs)[k] == ps[k] && (os + rs)[k] == os[k];
      } else {
        assert (ps + qs)[k] == qs[k - |ps|] && (os + rs)[k] == rs[k - |ps|];
      }
    }
  }

  lemma {:induction false} RowRecords(ls: seq<License>, i: nat, bound: nat)
    requires i < bound <= |ls|
    ensures RecordsOf(ls, RowPairs(ls, i, bound), RowOverlaps(ls, i, bound))
    decreases bound
  {
    if bound > i + 1 {
      RowRecords(ls, i, bound - 1);
      var p := Pair(i, bound - 1);
      if Qualifies(ls[i], ls[bound - 1]) {
        RecordsOfAppend(ls, RowPairs(ls, i, bound - 1), RowOverlaps(ls, i, bound - 1), [p], [OverlapOf(ls[i], ls[bound - 1])]);
      } else {
        RecordsOfAppend(ls, RowPairs(ls, i, bound - 1), RowOverlaps(ls, i, bound - 1), [], []);
      }
    }
  }

  lemma {:induction false} RecordsBefore(ls: seq<License>, n: nat)
    requires n <= |ls|
    ensures RecordsOf(ls, PairsBefore(ls, n), OverlapsBefore(ls, n))
  {
    if n > 0 {
      RecordsBefore(ls, n - 1);
      RowRecords(ls, n - 1, |ls|);
      RecordsOfAppend(ls, PairsBefore(ls, n - 1), OverlapsBefore(ls, n - 1), RowPairs(ls, n - 1, |ls|), RowOverlaps(ls, n - 1, |ls|));
    }
  }

  /** The detection makes one record per candidate pair, in the pairs'
      order: the `k`-th record is the record of the `k`-th pair. */
  lemma {:induction false} DetectedPerPair(ls: seq<License>)
    ensures |PairwiseOverlaps(ls)| == |Candidates(ls)|
    ensures forall k :: 0 <= k < |Candidates(ls)| ==>
      var p := Candidates(ls)[k];
      p.i < p.j < |ls| && Qualifies(ls[p.i], ls[p.j]) && PairwiseOverlaps(ls)[k] == OverlapOf(ls[p.i], ls[p.j])
  {
    RecordsBefore(ls, |ls|);
  }

  /** Every detected record shares a feature, has a percentage in (0, 100]
      and carries no savings. */
  lemma {:induction false} DetectedRecords(ls: seq<License>)
    ensures forall o :: o in PairwiseOverlaps(ls) ==>
      o.featureOverlapCount > 0 && 0.0 < o.overlapPercentage <= 100.0 && o.potentialSavings == 0.0
  {
    var ps, os := Candidates(ls), PairwiseOverlaps(ls);
    DetectedPerPair(ls);
    forall o | o in os
      ensures o.featureOverlapCount > 0 && 0.0 < o.overlapPercentage <= 100.0 && o.potentialSavings == 0.0
    {
      var k :| 0 <= k < |os| && os[k] == o;
      OverlapRecord(ls[ps[k].i], ls[ps[k].j]);
    }
  }

  /** Nothing is removed or matched against earlier rows: running the
      detection twice on unchanged licences stores every record twice. */
  method DetectTwice(licenses: seq<License>, store: Repository<Overlap>)
    modifies store
    ensures store.rows == old(store.rows) + PairwiseOverlaps(licenses) + PairwiseOverlaps(licenses)
  {
    var first := DetectOverlaps(licenses, store);
    var second := DetectOverlaps(licenses, store);
  }

  // ---- analytics ------------------------------------------------------------

  function Percentage(o: Overlap): real { o.overlapPercentage }
  function Descending(o: Overlap): real { -o.overlapPercentage }
  function IsConsolidatable(o: Overlap): bool { o.isConsolidatable }
  function Savings(o: Overlap): real { o.potentialSavings }
  function ConsolidatableSavings(o: Overlap): real { if o.isConsolidatable then o.potentialSavings else 0.0 }
  function SeverityKey(o: Overlap): Severity { o.severity }

  /** `findAll`: the rows ordered by percentage, highest first. */
  function FindAll(rows: seq<Overlap>): (r: seq<Overlap>)
    ensures multiset(r) == multiset(rows)
    ensures |r| == |rows|
    ensures forall i, j :: 0 <= i < j < |r| ==> Percentage(r[i]) >= Percentage(r[j])
  {
    var r := SortBy(rows, Descending);
    assert forall i, j :: 0 <= i < j < |r| ==> Descending(r[i]) <= Descending(r[j]);
    r
  }

  datatype OverlapSummary = OverlapSummary(
    totalOverlaps: nat,
    consolidatableOverlaps: nat,
    totalPotentialSavings: real)

  datatype OverlapAnalytics = OverlapAnalytics(
    summary: OverlapSummary,
    bySeverity: seq<KeyCount<Severity>>,
    topOverlaps: seq<Overlap>)

  /** `getAnalytics`, over the rows `findAll` orders: one summary entry and
      one severity count per row, at most every row consolidatable, and the
      first ten rows of that order on top. */
  function GetAnalytics(rows: seq<Overlap>): (a: OverlapAnalytics)
    ensures a.summary.totalOverlaps == |rows| == Counted(a.bySeverity)
    ensures a.summary.consolidatableOverlaps <= |rows|
    ensures DistinctKeys(a.bySeverity)
    ensures |a.topOverlaps| == Min(10, |rows|)
    ensures a.topOverlaps == FindAll(rows)[..|a.topOverlaps|]
  {
    var overlaps := FindAll(rows);
    var consolidatable := Filter(overlaps, IsConsolidatable);
    OverlapAnalytics(
      OverlapSummary(|overlaps|, |consolidatable|, Sum(consolidatable, Savings)),
      Tally(overlaps, SeverityKey),
      overlaps[..Min(10, |overlaps|)])
  }

  /** The summary does not depend on the order of the rows: it counts all
      rows, counts the consolidatable ones and sums their savings only. */
  lemma {:induction false} AnalyticsSummary(rows: seq<Overlap>)
    ensures GetAnalytics(rows).summary
      == OverlapSummary(|rows|, Count(rows, IsConsolidatable), Sum(rows, ConsolidatableSavings))
  {
    var overlaps := FindAll(rows);
    CountPermutation(overlaps, rows, IsConsolidatable);
    SumFilter(overlaps, IsConsolidatable, Savings, ConsolidatableSavings);
    SumPermutation(overlaps, rows, ConsolidatableSavings);
  }

  /** The severity counts add up to the number of rows, each severity's
      count is its number of rows, and no severity is listed twice. */
  lemma {:induction false} SeverityCounts(rows: seq<Overlap>, s: Severity)
    ensures Counted(GetAnalytics(rows).bySeverity) == |rows|
    ensures DistinctKeys(GetAnalytics(rows).bySeverity)
    ensures CountFor(GetAnalytics(rows).bySeverity, s) == Count(rows, HasKey(SeverityKey, s))
  {
    CountPermutation(FindAll(rows), rows, HasKey(SeverityKey, s));
  }

  /** `topOverlaps` holds at most ten rows, and they are ten highest: stored
      rows, each kept at most as often as it is stored, highest first, and no row
      left out has a larger percentage than one kept. */
  lemma {:induction false} TopOverlaps(rows: seq<Overlap>)
    ensures var top := GetAnalytics(rows).topOverlaps;
      && |top| == Min(10, |rows|)
      && multiset(top) <= multiset(rows)
      && (forall o :: o in top ==> o in rows)
      && (forall k, m :: 0 <= k < m < |top| ==> Percentage(top[k]) >= Percentage(top[m]))
      && (forall k, m :: 0 <= k < |top| <= m < |FindAll(rows)| ==>
            Percentage(top[k]) >= Percentage(FindAll(rows)[m]))
  {
    var overlaps := FindAll(rows);
    var top := overlaps[..Min(10, |overlaps|)];
    assert overlaps == top + overlaps[|top|..];
    assert multiset(top) <= multiset(overlaps);
    forall o | o in top ensures o in rows {
      assert o in multiset(top);
    }
  }

  /** The detection never sets `potentialSavings`, so as long as every row
      was saved by it, the overlap savings the dashboard adds up are 0. */
  lemma {:induction false} DetectedSavingsAreZero(before: seq<Overlap>, ls: seq<License>)
    requires forall o :: o in before ==> o.potentialSavings == 0.0
    ensures GetAnalytics(before + PairwiseOverlaps(ls)).summary.totalPotentialSavings == 0.0
  {
    var rows := before + PairwiseOverlaps(ls);
    DetectedRecords(ls);
    AnalyticsSummary(rows);
    SumZero(rows, ConsolidatableSavings);
  }

  /** The features "a, b, c, d" and "b, c, d, e" have "b, c, d" in common. */
  lemma {:induction false} ThreeInCommon()
    ensures CommonFeatures(["a", "b", "c", "d"], ["b", "c", "d", "e"]) == ["b", "c", "d"]
  {
    var f1, f2 := ["a", "b", "c", "d"], ["b", "c", "d", "e"];
    assert f1[..3] == ["a", "b", "c"] && f1[..2] == ["a", "b"] && f1[..1] == ["a"] && f1[..0] == [];
    assert f1[..1][..0] == f1[..0] && f1[..2][..1] == f1[..1] && f1[..3][..2] == f1[..2];
    assert "a" !in f2 by { assert f2[0][0] != 'a' && f2[1][0] != 'a' && f2[2][0] != 'a' && f2[3][0] != 'a'; }
    assert "b" in f2 && "c" in f2 && "d" in f2 by { assert f2[0] == "b" && f2[1] == "c" && f2[2] == "d"; }
    assert CommonFeatures(f1[..1], f2) == [];
    assert CommonFeatures(f1[..2], f2) == ["b"];
    assert CommonFeatures(f1[..3], f2) == ["b", "c"];
  }

  /** Licences "a, b, c, d" and "b, c, d, e" share three of four features:
      75%, critical and consolidatable. */
  lemma {:induction false} ThreeOfFourIsCritical(l1: License, l2: License)
    requires l1.features == Some(["a", "b", "c", "d"]) && l2.features == Some(["b", "c", "d", "e"])
    ensures Qualifies(l1, l2)
    ensures OverlapOf(l1, l2).overlapPercentage == 75.0
    ensures OverlapOf(l1, l2).severity == Critical && OverlapOf(l1, l2).isConsolidatable
  {
    ThreeInCommon();
    assert Max(4, 4) == 4;
  }
}
