/** The array operations the services use on fetched rows: `reduce` into a
    sum, `filter`, `filter(...).length` and a sort by a numeric column. */
module Seqs {

  /** `s.reduce((sum, x) => sum + f(x), 0)`: a left fold. */
  function Sum<T>(s: seq<T>, f: T -> real): real
  {
    if |s| == 0 then 0.0 else Sum(s[..|s| - 1], f) + f(s[|s| - 1])
  }

  /** `s.filter(p)`: keeps order, and keeps each element as often as it occurs. */
  function Filter<T(!new)>(s: seq<T>, p: T -> bool): (r: seq<T>)
    ensures |r| <= |s|
    ensures forall x :: multiset(r)[x] == if p(x) then multiset(s)[x] else 0
  {
    if |s| == 0 then []
    else
      var init, last := s[..|s| - 1], s[|s| - 1];
      assert s == init + [last];
      Filter(init, p) + (if p(last) then [last] else [])
  }

  /** `s.filter(p).length` */
  function Count<T(!new)>(s: seq<T>, p: T -> bool): nat
  {
    |Filter(s, p)|
  }

  lemma {:induction false} FilterMembers<T(!new)>(s: seq<T>, p: T -> bool)
    ensures forall x :: x in Filter(s, p) <==> x in s && p(x)
  {
    forall x ensures x in Filter(s, p) <==> x in s && p(x) {
      assert multiset(Filter(s, p))[x] == if p(x) then multiset(s)[x] else 0;
    }
  }

  lemma {:induction false} SumAppend<T>(a: seq<T>, b: seq<T>, f: T -> real)
    ensures Sum(a + b, f) == Sum(a, f) + Sum(b, f)
    decreases |b|
  {
    if |b| > 0 {
      var ab := a + b;
      assert ab[..|ab| - 1] == a + b[..|b| - 1];
      assert ab[|ab| - 1] == b[|b| - 1];
      SumAppend(a, b[..|b| - 1], f);
    } else {
      assert a + b == a;
    }
  }

  /** Appending one element adds its value. */
  lemma {:induction false} SumSnoc<T>(s: seq<T>, x: T, f: T -> real)
    ensures Sum(s + [x], f) == Sum(s, f) + f(x)
  {
    assert (s + [x])[..|s|] == s;
  }

  /** Summing the elements a filter keeps is summing, over all elements,
      `g`: the value of the kept ones and zero for the others. */
  lemma {:induction false} SumFilter<T(!new)>(s: seq<T>, p: T -> bool, f: T -> real, g: T -> real)
    requires forall x :: g(x) == if p(x) then f(x) else 0.0
    ensures Sum(Filter(s, p), f) == Sum(s, g)
    decreases |s|
  {
    if |s| > 0 {
      var init, last := s[..|s| - 1], s[|s| - 1];
      SumFilter(init, p, f, g);
      SumAppend(Filter(init, p), if p(last) then [last] else [], f);
    }
  }

  /** Filtering one more element adds its value when the filter keeps it. */
  lemma {:induction false} SumFilterLast<T(!new)>(s: seq<T>, p: T -> bool, f: T -> real)
    requires |s| > 0
    ensures Sum(Filter(s, p), f)
      == Sum(Filter(s[..|s| - 1], p), f) + if p(s[|s| - 1]) then f(s[|s| - 1]) else 0.0
  {
    var init, last := s[..|s| - 1], s[|s| - 1];
    assert Filter(s, p) == Filter(init, p) + if p(last) then [last] else [];
    if p(last) {
      SumSnoc(Filter(init, p), last, f);
    } else {
      assert Filter(init, p) + [] == Filter(init, p);
    }
  }

  /** A count does not depend on the order of the elements. */
  lemma {:induction false} CountPermutation<T(!new)>(a: seq<T>, b: seq<T>, p: T -> bool)
    requires multiset(a) == multiset(b)
    ensures Count(a, p) == Count(b, p)
  {
    assert multiset(Filter(a, p)) == multiset(Filter(b, p));
    assert |multiset(Filter(a, p))| == |Filter(a, p)|;
    assert |multiset(Filter(b, p))| == |Filter(b, p)|;
  }

  /** Taking out the element at `k` takes out its value. */
  lemma {:induction false} SumRemove<T>(b: seq<T>, k: nat, f: T -> real)
    requires k < |b|
    ensures Sum(b, f) == Sum(b[..k] + b[k + 1..], f) + f(b[k])
  {
    assert b == b[..k] + ([b[k]] + b[k + 1..]);
    SumAppend(b[..k], [b[k]] + b[k + 1..], f);
    SumAppend([b[k]], b[k + 1..], f);
    SumAppend(b[..k], b[k + 1..], f);
    assert [b[k]][..0] == [];
  }

  lemma {:induction false} MultisetCancel<T>(a: multiset<T>, b: multiset<T>, x: T)
    requires a + multiset{x} == b + multiset{x}
    ensures a == b
  {
    forall y ensures a[y] == b[y] {
      assert (a + multiset{x})[y] == (b + multiset{x})[y];
    }
  }

  /** A sum does not depend on the order of the elements. */
  lemma {:induction false} SumPermutation<T>(a: seq<T>, b: seq<T>, f: T -> real)
    requires multiset(a) == multiset(b)
    ensures Sum(a, f) == Sum(b, f)
    decreases |a|
  {
    if |a| > 0 {
      var init, x := a[..|a| - 1], a[|a| - 1];
      assert a == init + [x];
      assert x in multiset(b);
      var k :| 0 <= k < |b| && b[k] == x;
      var rest := b[..k] + b[k + 1..];
      assert b == b[..k] + [x] + b[k + 1..];
      assert multiset(b) == multiset(rest) + multiset{x};
      MultisetCancel(multiset(init), multiset(rest), x);
      SumPermutation(init, rest, f);
      SumRemove(b, k, f);
    } else {
      assert |multiset(b)| == 0;
    }
  }

  lemma {:induction false} SumBounds<T>(s: seq<T>, f: T -> real, lo: real, hi: real)
    requires forall x :: x in s ==> lo <= f(x) <= hi
    ensures |s| as real * lo <= Sum(s, f) <= |s| as real * hi
    decreases |s|
  {
    if |s| > 0 {
      var init := s[..|s| - 1];
      assert forall x :: x in init ==> x in s;
      SumBounds(init, f, lo, hi);
      var n, m := |init| as real, |s| as real;
      assert m == n + 1.0;
      assert m * lo == n * lo + lo && m * hi == n * hi + hi;
      assert lo <= f(s[|s| - 1]) <= hi;
      assert Sum(s, f) == Sum(init, f) + f(s[|s| - 1]);
    }
  }

  lemma {:induction false} SumNonNegative<T>(s: seq<T>, f: T -> real)
    requires forall x :: x in s ==> f(x) >= 0.0
    ensures Sum(s, f) >= 0.0
    decreases |s|
  {
    if |s| > 0 {
      var init := s[..|s| - 1];
      assert forall x :: x in init ==> x in s;
      SumNonNegative(init, f);
    }
  }

  lemma {:induction false} SumZero<T>(s: seq<T>, f: T -> real)
    requires forall x :: x in s ==> f(x) == 0.0
    ensures Sum(s, f) == 0.0
    decreases |s|
  {
    if |s| > 0 {
      var init := s[..|s| - 1];
      assert forall x :: x in init ==> x in s;
      SumZero(init, f);
    }
  }

  lemma {:induction false} SumMonotone<T>(s: seq<T>, f: T -> real, g: T -> real)
    requires forall x :: x in s ==> f(x) <= g(x)
    ensures Sum(s, f) <= Sum(s, g)
    decreases |s|
  {
    if |s| > 0 {
      var init := s[..|s| - 1];
      assert forall x :: x in init ==> x in s;
      SumMonotone(init, f, g);
    }
  }

  lemma {:induction false} SumDifference<T>(s: seq<T>, f: T -> real, g: T -> real, d: T -> real)
    requires forall x :: x in s ==> d(x) == f(x) - g(x)
    ensures Sum(s, d) == Sum(s, f) - Sum(s, g)
    decreases |s|
  {
    if |s| > 0 {
      var init := s[..|s| - 1];
      assert forall x :: x in init ==> x in s;
      SumDifference(init, f, g, d);
    }
  }

  /** `s.reduce((sum, x) => sum + f(x), 0) / s.length`; the list must not be
      empty (an empty one gives `NaN`). */
  function Mean<T>(s: seq<T>, f: T -> real): (m: real)
    requires |s| > 0
    ensures m * |s| as real == Sum(s, f)
  {
    Sum(s, f) / |s| as real
  }

  /** An average lies between the least and the greatest value averaged. */
  lemma {:induction false} MeanBounds<T>(s: seq<T>, f: T -> real, lo: real, hi: real)
    requires |s| > 0
    requires forall x :: x in s ==> lo <= f(x) <= hi
    ensures lo <= Mean(s, f) <= hi
  {
    SumBounds(s, f, lo, hi);
    var n, m := |s| as real, Mean(s, f);
    Quotient(Sum(s, f), n, m, lo, hi);
  }

  /** A quotient of a positive divisor keeps the bounds of its dividend,
      scaled down. */
  lemma {:induction false} Quotient(a: real, n: real, q: real, lo: real, hi: real)
    requires n > 0.0 && q * n == a && n * lo <= a <= n * hi
    ensures lo <= q <= hi
  {
    assert (q - lo) * n == a - n * lo >= 0.0;
    assert (hi - q) * n == n * hi - a >= 0.0;
  }

  /** Non-decreasing by `key`. */
  ghost predicate SortedBy<T>(s: seq<T>, key: T -> real)
  {
    forall i, j :: 0 <= i < j < |s| ==> key(s[i]) <= key(s[j])
  }

  /** Places `x` in front of the first element whose key is not below its own. */
  function Insert<T>(x: T, s: seq<T>, key: T -> real): (r: seq<T>)
    requires SortedBy(s, key)
    ensures multiset(r) == multiset(s) + multiset{x}
    ensures SortedBy(r, key)
    ensures |r| == |s| + 1
    ensures key(r[0]) == key(x) || (|s| > 0 && key(r[0]) == key(s[0]))
  {
    if |s| == 0 then [x]
    else if key(x) <= key(s[0]) then [x] + s
    else
      var rest := Insert(x, s[1..], key);
      assert s == [s[0]] + s[1..];
      assert key(s[0]) <= key(rest[0]);
      [s[0]] + rest
  }

  /** An insertion sort, ascending by `key`; the ORDER BY of a query. */
  function SortBy<T>(s: seq<T>, key: T -> real): (r: seq<T>)
    ensures multiset(r) == multiset(s)
    ensures SortedBy(r, key)
    ensures |r| == |s|
  {
    if |s| == 0 then []
    else
      assert s == [s[0]] + s[1..];
      Insert(s[0], SortBy(s[1..], key), key)
  }
}
