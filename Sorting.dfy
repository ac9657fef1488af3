/** The array operations the views rely on: `filter`, `reduce` into a sum,
    and `Array.prototype.sort` with a comparator, which is a stable sort, so
    the result is ordered by the comparator and elements it deems equal keep
    their original order.  The comparator is given as `le(a, b)`,
    "`compare(a, b) <= 0`". */
module Sorting {

  /** A comparator that orders every pair consistently. */
  ghost predicate TotalPreorder<T(!new)>(le: (T, T) -> bool) {
    (forall a, b :: le(a, b) || le(b, a))
    && (forall a, b, c :: le(a, b) && le(b, c) ==> le(a, c))
  }

  predicate SortedBy<T>(xs: seq<T>, le: (T, T) -> bool) {
    forall i, j :: 0 <= i < j < |xs| ==> le(xs[i], xs[j])
  }

  /** The comparator returns 0 for `a` and `b`. */
  predicate Equivalent<T>(le: (T, T) -> bool, a: T, b: T) {
    le(a, b) && le(b, a)
  }

  function Filter<T>(xs: seq<T>, p: T -> bool): (r: seq<T>)
    ensures |r| <= |xs|
  {
    if |xs| == 0 then [] else (if p(xs[0]) then [xs[0]] else []) + Filter(xs[1..], p)
  }

  /** The filter keeps exactly the elements that satisfy the predicate. */
  lemma {:induction false} FilterMembers<T>(xs: seq<T>, p: T -> bool)
    ensures forall x :: x in Filter(xs, p) <==> x in xs && p(x)
    decreases |xs|
  {
    if |xs| > 0 {
      FilterMembers(xs[1..], p);
      assert xs == [xs[0]] + xs[1..];
    }
  }

  /** The filter keeps every occurrence of a satisfying element and none of
      the others. */
  lemma {:induction false} FilterMultiplicity<T>(xs: seq<T>, p: T -> bool)
    ensures forall x :: multiset(Filter(xs, p))[x] == if p(x) then multiset(xs)[x] else 0
    decreases |xs|
  {
    if |xs| > 0 {
      FilterMultiplicity(xs[1..], p);
      assert xs == [xs[0]] + xs[1..];
      var head := if p(xs[0]) then [xs[0]] else [];
      assert multiset(Filter(xs, p)) == multiset(head) + multiset(Filter(xs[1..], p));
      assert multiset(xs) == multiset{xs[0]} + multiset(xs[1..]);
    }
  }

  /** `xs` is what is left of `ys` after deleting some of its elements. */
  predicate Subsequence<T(==)>(xs: seq<T>, ys: seq<T>)
    decreases |ys|
  {
    if |xs| == 0 then true
    else if |ys| == 0 then false
    else if xs[0] == ys[0] then Subsequence(xs[1..], ys[1..])
    else Subsequence(xs, ys[1..])
  }

  lemma {:induction false} SubsequenceReflexive<T>(xs: seq<T>)
    ensures Subsequence(xs, xs)
    decreases |xs|
  {
    if |xs| > 0 { SubsequenceReflexive(xs[1..]); }
  }

  /** A filter keeps elements in their order and drops the rest. */
  lemma {:induction false} FilterSubsequence<T>(xs: seq<T>, p: T -> bool)
    ensures Subsequence(Filter(xs, p), xs)
    decreases |xs|
  {
    if |xs| > 0 {
      FilterSubsequence(xs[1..], p);
      var r := Filter(xs, p);
      if p(xs[0]) {
        assert r[0] == xs[0] && r[1..] == Filter(xs[1..], p);
      } else {
        assert r == Filter(xs[1..], p);
        SubsequenceSkip(r, xs);
      }
    }
  }

  /** Dropping the head of the longer sequence can be undone. */
  lemma {:induction false} SubsequenceSkip<T>(xs: seq<T>, ys: seq<T>)
    requires |ys| > 0 && Subsequence(xs, ys[1..])
    ensures Subsequence(xs, ys)
    decreases |ys|, 0
  {
    if |xs| > 0 && xs[0] == ys[0] {
      SubsequenceDropHead(xs, ys[1..]);
    }
  }

  lemma {:induction false} SubsequenceDropHead<T>(xs: seq<T>, zs: seq<T>)
    requires |xs| > 0 && Subsequence(xs, zs)
    ensures Subsequence(xs[1..], zs)
    decreases |zs|, 1
  {
    if |zs| > 0 {
      if xs[0] == zs[0] {
        SubsequenceSkip(xs[1..], zs);
      } else {
        SubsequenceDropHead(xs, zs[1..]);
        SubsequenceSkip(xs[1..], zs);
      }
    }
  }

  /** The conjunction of two predicates. */
  function Both<T>(p: T -> bool, q: T -> bool): T -> bool {
    (x: T) => p(x) && q(x)
  }

  /** Filtering twice is filtering once by both predicates. */
  lemma {:induction false} FilterFilter<T>(xs: seq<T>, p: T -> bool, q: T -> bool)
    ensures Filter(Filter(xs, p), q) == Filter(xs, Both(p, q))
    decreases |xs|
  {
    if |xs| > 0 {
      FilterFilter(xs[1..], p, q);
      var pq := Both(p, q);
      var f := Filter(xs, p);
      if p(xs[0]) {
        assert f == [xs[0]] + Filter(xs[1..], p);
        assert f[0] == xs[0] && f[1..] == Filter(xs[1..], p);
        assert Filter(f, q) == (if q(xs[0]) then [xs[0]] else []) + Filter(f[1..], q);
      } else {
        assert f == Filter(xs[1..], p);
      }
      assert Filter(xs, pq) == (if pq(xs[0]) then [xs[0]] else []) + Filter(xs[1..], pq);
    }
  }

  /** `xs.reduce((total, x) => total + f(x), 0)` */
  function Sum<T>(xs: seq<T>, f: T -> int): int
    decreases |xs|
  {
    if |xs| == 0 then 0 else f(xs[0]) + Sum(xs[1..], f)
  }

  /** Puts `x` in front of the first element it is not after. */
  function Insert<T>(x: T, s: seq<T>, le: (T, T) -> bool): (r: seq<T>)
    ensures |r| == |s| + 1 && multiset(r) == multiset(s) + multiset{x}
  {
    if |s| == 0 then [x]
    else if le(x, s[0]) then [x] + s
    else
      assert s == [s[0]] + s[1..];
      [s[0]] + Insert(x, s[1..], le)
  }

  /** `[...xs].sort(compare)` */
  function SortBy<T>(xs: seq<T>, le: (T, T) -> bool): (r: seq<T>)
    ensures |r| == |xs| && multiset(r) == multiset(xs)
  {
    if |xs| == 0 then []
    else
      assert xs == [xs[0]] + xs[1..];
      Insert(xs[0], SortBy(xs[1..], le), le)
  }

  lemma {:induction false} InsertSorted<T(!new)>(x: T, s: seq<T>, le: (T, T) -> bool)
    requires TotalPreorder(le) && SortedBy(s, le)
    ensures SortedBy(Insert(x, s, le), le)
    decreases |s|
  {
    if |s| > 0 && !le(x, s[0]) {
      InsertSorted(x, s[1..], le);
      var r := Insert(x, s, le);
      var t := Insert(x, s[1..], le);
      assert r == [s[0]] + t;
      forall j | 1 <= j < |r| ensures le(s[0], r[j]) {
        assert r[j] in multiset(t);
        assert r[j] in multiset(s[1..]) + multiset{x};
        if r[j] != x {
          assert r[j] in s[1..];
          var i :| 0 <= i < |s[1..]| && s[1..][i] == r[j];
          assert s[i + 1] == r[j];
        }
      }
    }
  }

  /** The sort orders its result by the comparator. */
  lemma {:induction false} SortBySorted<T(!new)>(xs: seq<T>, le: (T, T) -> bool)
    requires TotalPreorder(le)
    ensures SortedBy(SortBy(xs, le), le)
    decreases |xs|
  {
    if |xs| > 0 {
      SortBySorted(xs[1..], le);
      InsertSorted(xs[0], SortBy(xs[1..], le), le);
    }
  }

  lemma {:induction false} FilterInsertEquivalent<T(!new)>(x: T, s: seq<T>, le: (T, T) -> bool, c: T)
    requires TotalPreorder(le)
    ensures var p := (y: T) => Equivalent(le, c, y);
            Filter(Insert(x, s, le), p) == (if p(x) then [x] else []) + Filter(s, p)
    decreases |s|
  {
    var p := (y: T) => Equivalent(le, c, y);
    if |s| == 0 {
      FilterPrepend(x, s, p);
    } else if le(x, s[0]) {
      FilterPrepend(x, s, p);
    } else {
      FilterInsertEquivalent(x, s[1..], le, c);
      var t := Insert(x, s[1..], le);
      assert Insert(x, s, le) == [s[0]] + t;
      FilterPrepend(s[0], t, p);
      assert s == [s[0]] + s[1..];
      FilterPrepend(s[0], s[1..], p);
      if p(x) {
        EquivalentBefore(le, c, x, s[0]);
      }
      SwapPrefix(if p(s[0]) then [s[0]] else [], if p(x) then [x] else [], Filter(s[1..], p));
    }
  }

  lemma SwapPrefix<T>(a: seq<T>, b: seq<T>, f: seq<T>)
    requires a == [] || b == []
    ensures a + (b + f) == b + (a + f)
  {
  }

  lemma FilterPrepend<T>(y: T, t: seq<T>, p: T -> bool)
    ensures Filter([y] + t, p) == (if p(y) then [y] else []) + Filter(t, p)
  {
    assert ([y] + t)[1..] == t;
  }

  /** An element ordered strictly after one of a class is not in it. */
  lemma EquivalentBefore<T(!new)>(le: (T, T) -> bool, c: T, x: T, y: T)
    requires TotalPreorder(le) && Equivalent(le, c, x) && !le(x, y)
    ensures !Equivalent(le, c, y)
  {
  }

  /** The sort is stable: in every class of elements the comparator deems
      equal, the order is the original one. */
  lemma {:induction false} SortByStable<T(!new)>(xs: seq<T>, le: (T, T) -> bool, c: T)
    requires TotalPreorder(le)
    ensures var p := (y: T) => Equivalent(le, c, y);
            Filter(SortBy(xs, le), p) == Filter(xs, p)
    decreases |xs|
  {
    if |xs| > 0 {
      SortByStable(xs[1..], le, c);
      FilterInsertEquivalent(xs[0], SortBy(xs[1..], le), le, c);
    }
  }

  lemma {:induction false} SumInsert<T>(x: T, s: seq<T>, le: (T, T) -> bool, f: T -> int)
    ensures Sum(Insert(x, s, le), f) == f(x) + Sum(s, f)
    decreases |s|
  {
    if |s| > 0 && !le(x, s[0]) {
      SumInsert(x, s[1..], le, f);
      var r := Insert(x, s, le);
      assert r[0] == s[0] && r[1..] == Insert(x, s[1..], le);
    } else if |s| > 0 {
      var r := Insert(x, s, le);
      assert r[0] == x && r[1..] == s;
    }
  }

  /** Sorting does not change a sum. */
  lemma {:induction false} SumSortBy<T>(xs: seq<T>, le: (T, T) -> bool, f: T -> int)
    ensures Sum(SortBy(xs, le), f) == Sum(xs, f)
    decreases |xs|
  {
    if |xs| > 0 {
      SumSortBy(xs[1..], le, f);
      SumInsert(xs[0], SortBy(xs[1..], le), le, f);
    }
  }

  lemma {:induction false} FilterLengthInsert<T>(x: T, s: seq<T>, le: (T, T) -> bool, p: T -> bool)
    ensures |Filter(Insert(x, s, le), p)| == (if p(x) then 1 else 0) + |Filter(s, p)|
    decreases |s|
  {
    if |s| > 0 && !le(x, s[0]) {
      FilterLengthInsert(x, s[1..], le, p);
      var r := Insert(x, s, le);
      assert r[0] == s[0] && r[1..] == Insert(x, s[1..], le);
    } else if |s| > 0 {
      var r := Insert(x, s, le);
      assert r[0] == x && r[1..] == s;
    }
  }

  /** Sorting does not change how many elements a filter keeps. */
  lemma {:induction false} FilterLengthSortBy<T>(xs: seq<T>, le: (T, T) -> bool, p: T -> bool)
    ensures |Filter(SortBy(xs, le), p)| == |Filter(xs, p)|
    decreases |xs|
  {
    if |xs| > 0 {
      FilterLengthSortBy(xs[1..], le, p);
      FilterLengthInsert(xs[0], SortBy(xs[1..], le), le, p);
    }
  }
}
