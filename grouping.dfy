/** The group-by folds of the analytics endpoints,
    `rows.reduce((acc, x) => { ...acc[key(x)]... }, {})`.
    The accumulator object is a sequence of entries in the order the keys
    were first met, which is the order a JavaScript object keeps for keys
    that are not integer-like (those it lists first, ascending). */
module Grouping {
  import opened Seqs

  /** One key of a `{ [key]: count }` tally. */
  datatype KeyCount<K> = KeyCount(key: K, count: nat)

  /** One key of a `{ [key]: { count, cost, ... } }` group. `size` is the
      group's second running total (seats or capacity); it stays 0 for groups
      that have only a cost. */
  datatype Bucket<K> = Bucket(key: K, count: nat, cost: real, size: real)

  // ---- tallies -------------------------------------------------------------

  function Counted<K>(t: seq<KeyCount<K>>): nat
  {
    if t == [] then 0 else t[0].count + Counted(t[1..])
  }

  /** The count a tally shows for `k` (0 when `k` is absent). */
  function CountFor<K(==)>(t: seq<KeyCount<K>>, k: K): nat
  {
    if t == [] then 0 else (if t[0].key == k then t[0].count else 0) + CountFor(t[1..], k)
  }

  function TallyKeys<K>(t: seq<KeyCount<K>>): set<K>
  {
    if t == [] then {} else {t[0].key} + TallyKeys(t[1..])
  }

  /** No key occurs twice. */
  predicate DistinctKeys<K(==)>(t: seq<KeyCount<K>>)
  {
    t == [] || (t[0].key !in TallyKeys(t[1..]) && DistinctKeys(t[1..]))
  }

  /** `acc[k] = (acc[k] || 0) + 1` */
  function Bump<K(==,!new)>(t: seq<KeyCount<K>>, k: K): (r: seq<KeyCount<K>>)
    ensures Counted(r) == Counted(t) + 1
    ensures forall k' :: CountFor(r, k') == CountFor(t, k') + if k' == k then 1 else 0
    ensures TallyKeys(r) == TallyKeys(t) + {k}
    ensures DistinctKeys(t) ==> DistinctKeys(r)
  {
    if t == [] then [KeyCount(k, 1)]
    else if t[0].key == k then
      var r := [KeyCount(k, t[0].count + 1)] + t[1..];
      assert r[1..] == t[1..];
      r
    else
      var rest := Bump(t[1..], k);
      var r := [t[0]] + rest;
      assert r[1..] == rest;
      r
  }

  /** `x => key(x) === k` */
  function HasKey<T, K(==)>(key: T -> K, k: K): T -> bool
  {
    x => key(x) == k
  }

  /** `s.reduce((acc, x) => { acc[key(x)] = (acc[key(x)] || 0) + 1; return acc; }, {})` */
  function Tally<T(!new), K(==,!new)>(s: seq<T>, key: T -> K): (r: seq<KeyCount<K>>)
    ensures Counted(r) == |s|
    ensures DistinctKeys(r)
    ensures forall k :: CountFor(r, k) == Count(s, HasKey(key, k))
  {
    if |s| == 0 then []
    else Bump(Tally(s[..|s| - 1], key), key(s[|s| - 1]))
  }

  // ---- groups with running totals -------------------------------------------

  function Members<K>(t: seq<Bucket<K>>): nat
  {
    if t == [] then 0 else t[0].count + Members(t[1..])
  }

  function Costs<K>(t: seq<Bucket<K>>): real
  {
    if t == [] then 0.0 else t[0].cost + Costs(t[1..])
  }

  function Sizes<K>(t: seq<Bucket<K>>): real
  {
    if t == [] then 0.0 else t[0].size + Sizes(t[1..])
  }

  function BucketKeys<K>(t: seq<Bucket<K>>): set<K>
  {
    if t == [] then {} else {t[0].key} + BucketKeys(t[1..])
  }

  /** `acc[k].count`, `acc[k].cost` and the second total of `acc[k]`
      (0 for a key that has no entry). */
  function MembersFor<K(==)>(t: seq<Bucket<K>>, k: K): nat
  {
    if t == [] then 0 else (if t[0].key == k then t[0].count else 0) + MembersFor(t[1..], k)
  }

  function CostFor<K(==)>(t: seq<Bucket<K>>, k: K): real
  {
    if t == [] then 0.0 else (if t[0].key == k then t[0].cost else 0.0) + CostFor(t[1..], k)
  }

  function SizeFor<K(==)>(t: seq<Bucket<K>>, k: K): real
  {
    if t == [] then 0.0 else (if t[0].key == k then t[0].size else 0.0) + SizeFor(t[1..], k)
  }

  /** No key occurs twice. */
  predicate DistinctBuckets<K(==)>(t: seq<Bucket<K>>)
  {
    t == [] || (t[0].key !in BucketKeys(t[1..]) && DistinctBuckets(t[1..]))
  }

  /** `if (!acc[k]) acc[k] = { count: 0, ... }; acc[k].count++; acc[k].cost += c; ...` */
  function Add<K(==,!new)>(t: seq<Bucket<K>>, k: K, c: real, z: real): (r: seq<Bucket<K>>)
    ensures Members(r) == Members(t) + 1
    ensures Costs(r) == Costs(t) + c
    ensures Sizes(r) == Sizes(t) + z
    ensures BucketKeys(r) == BucketKeys(t) + {k}
    ensures DistinctBuckets(t) ==> DistinctBuckets(r)
    ensures forall k' :: MembersFor(r, k') == MembersFor(t, k') + if k' == k then 1 else 0
    ensures forall k' :: CostFor(r, k') == CostFor(t, k') + if k' == k then c else 0.0
    ensures forall k' :: SizeFor(r, k') == SizeFor(t, k') + if k' == k then z else 0.0
  {
    if t == [] then [Bucket(k, 1, 0.0 + c, 0.0 + z)]
    else if t[0].key == k then
      var b := t[0];
      var r := [Bucket(k, b.count + 1, b.cost + c, b.size + z)] + t[1..];
      assert r[1..] == t[1..];
      r
    else
      var rest := Add(t[1..], k, c, z);
      var r := [t[0]] + rest;
      assert r[1..] == rest;
      r
  }

  /** The group-by fold with a count and two running totals per key. */
  function GroupBy<T, K(==,!new)>(s: seq<T>, key: T -> K, cost: T -> real, size: T -> real): (r: seq<Bucket<K>>)
    ensures Members(r) == |s|
    ensures Costs(r) == Sum(s, cost)
    ensures Sizes(r) == Sum(s, size)
    ensures DistinctBuckets(r)
  {
    if |s| == 0 then []
    else
      var x := s[|s| - 1];
      Add(GroupBy(s[..|s| - 1], key, cost, size), key(x), cost(x), size(x))
  }

  /** Each key's entry counts the rows with that key and adds up their
      costs and sizes. */
  lemma {:induction false} GroupByEntry<T(!new), K(!new)>(s: seq<T>, key: T -> K, cost: T -> real, size: T -> real, k: K)
    ensures MembersFor(GroupBy(s, key, cost, size), k) == Count(s, HasKey(key, k))
    ensures CostFor(GroupBy(s, key, cost, size), k) == Sum(Filter(s, HasKey(key, k)), cost)
    ensures SizeFor(GroupBy(s, key, cost, size), k) == Sum(Filter(s, HasKey(key, k)), size)
    decreases |s|
  {
    if |s| > 0 {
      var init, last := s[..|s| - 1], s[|s| - 1];
      GroupByEntry(init, key, cost, size, k);
      var p := HasKey(key, k);
      assert Filter(s, p) == Filter(init, p) + if p(last) then [last] else [];
      SumFilterLast(s, p, cost);
      SumFilterLast(s, p, size);
    }
  }
}
