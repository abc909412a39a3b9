/** Filters, sums and a stable insertion sort over sequences: the `filter`, `reduce`, `sort`
    and SQL `WHERE`/`SUM`/`ORDER BY` building blocks the source uses, with the facts the
    rest of the model needs about them. */
module SeqUtil {
  import opened Wrappers

  predicate SortedBy<T>(s: seq<T>, key: T -> real) {
    forall i, j :: 0 <= i < j < |s| ==> key(s[i]) <= key(s[j])
  }

  predicate Distinct<T(==,!new)>(s: seq<T>) {
    forall i, j :: 0 <= i < j < |s| ==> s[i] != s[j]
  }

  /** The elements of `s` that satisfy `p`, in their original order. */
  function Filter<T(==,!new)>(s: seq<T>, p: T -> bool): (r: seq<T>)
    ensures forall x :: multiset(r)[x] == if p(x) then multiset(s)[x] else 0
    ensures forall x :: x in r <==> x in s && p(x)
    ensures |r| <= |s|
  {
    if s == [] then []
    else
      var rest := Filter(s[1..], p);
      assert s == [s[0]] + s[1..];
      assert multiset(s) == multiset{s[0]} + multiset(s[1..]);
      (if p(s[0]) then [s[0]] else []) + rest
  }

  /** Number of elements of `s` that satisfy `p`. */
  function Count<T(==,!new)>(s: seq<T>, p: T -> bool): (n: nat)
    ensures n == |Filter(s, p)|
    ensures n <= |s|
  {
    if s == [] then 0
    else (if p(s[0]) then 1 else 0) + Count(s[1..], p)
  }

  function SumOf<T>(s: seq<T>, f: T -> real): real {
    if s == [] then 0.0 else f(s[0]) + SumOf(s[1..], f)
  }

  /** `s.reduce((acc, x) => acc + f(x), acc)`: the left-to-right running sum. */
  function FoldSum<T>(s: seq<T>, f: T -> real, acc: real): real {
    if s == [] then acc else FoldSum(s[1..], f, acc + f(s[0]))
  }

  /** A running sum from the left adds up to the same total as `SumOf`. */
  lemma {:induction false} FoldSumIsSum<T>(s: seq<T>, f: T -> real, acc: real)
    ensures FoldSum(s, f, acc) == acc + SumOf(s, f)
  {
    if s != [] {
      FoldSumIsSum(s[1..], f, acc + f(s[0]));
    }
  }

  /** `x` placed before the first element whose key is not below its own. */
  function Insert<T(==,!new)>(x: T, s: seq<T>, key: T -> real): (r: seq<T>)
    requires SortedBy(s, key)
    ensures SortedBy(r, key)
    ensures multiset(r) == multiset(s) + multiset{x}
  {
    if s == [] then [x]
    else if key(x) <= key(s[0]) then
      InsertFront(x, s, key);
      [x] + s
    else
      var rest := Insert(x, s[1..], key);
      InsertBehind(x, s, rest, key);
      [s[0]] + rest
  }

  lemma InsertFront<T>(x: T, s: seq<T>, key: T -> real)
    requires SortedBy(s, key) && s != [] && key(x) <= key(s[0])
    ensures SortedBy([x] + s, key)
  {
    forall k | 0 < k < |s| ensures key(s[0]) <= key(s[k]) { }
    SortedCons(x, s, key);
  }

  lemma InsertBehind<T>(x: T, s: seq<T>, rest: seq<T>, key: T -> real)
    requires SortedBy(s, key) && s != [] && key(s[0]) < key(x)
    requires SortedBy(rest, key) && multiset(rest) == multiset(s[1..]) + multiset{x}
    ensures SortedBy([s[0]] + rest, key)
    ensures multiset([s[0]] + rest) == multiset(s) + multiset{x}
  {
    forall k | 0 <= k < |rest| ensures key(s[0]) <= key(rest[k]) {
      assert rest[k] in multiset(rest);
      assert rest[k] == x || rest[k] in s[1..];
    }
    SortedCons(s[0], rest, key);
    assert s == [s[0]] + s[1..];
  }

  /** An element no larger than any of a sorted sequence can go in front of it. */
  lemma SortedCons<T>(y: T, s: seq<T>, key: T -> real)
    requires SortedBy(s, key)
    requires forall k :: 0 <= k < |s| ==> key(y) <= key(s[k])
    ensures SortedBy([y] + s, key)
  {
    var r := [y] + s;
    forall i, j | 0 <= i < j < |r| ensures key(r[i]) <= key(r[j]) {
      assert r[j] == s[j - 1];
      if i > 0 {
        assert r[i] == s[i - 1];
      }
    }
  }

  /** Stable insertion sort by ascending key. */
  function SortBy<T(==,!new)>(s: seq<T>, key: T -> real): (r: seq<T>)
    ensures SortedBy(r, key)
    ensures multiset(r) == multiset(s)
    ensures |r| == |s|
  {
    if s == [] then []
    else
      assert s == [s[0]] + s[1..];
      Insert(s[0], SortBy(s[1..], key), key)
  }

  lemma {:induction false} SumOfAppend<T>(a: seq<T>, b: seq<T>, f: T -> real)
    ensures SumOf(a + b, f) == SumOf(a, f) + SumOf(b, f)
  {
    if a == [] {
      assert a + b == b;
    } else {
      assert (a + b)[1..] == a[1..] + b;
      SumOfAppend(a[1..], b, f);
    }
  }

  lemma {:induction false} SumOfRemove<T>(s: seq<T>, k: nat, f: T -> real)
    requires k < |s|
    ensures SumOf(s, f) == f(s[k]) + SumOf(s[..k] + s[k+1..], f)
  {
    assert s == s[..k] + [s[k]] + s[k+1..];
    SumOfAppend(s[..k] + [s[k]], s[k+1..], f);
    SumOfAppend(s[..k], [s[k]], f);
    SumOfAppend(s[..k], s[k+1..], f);
  }

  /** Removing the element at `k` removes one copy of it from the multiset. */
  lemma MultisetDrop<T>(s: seq<T>, k: nat)
    requires k < |s|
    ensures multiset(s[..k] + s[k+1..]) == multiset(s) - multiset{s[k]}
  {
    assert s == s[..k] + [s[k]] + s[k+1..];
  }

  /** A sum does not depend on the order of its terms. */
  lemma {:induction false} SumOfPermutation<T>(a: seq<T>, b: seq<T>, f: T -> real)
    requires multiset(a) == multiset(b)
    ensures SumOf(a, f) == SumOf(b, f)
    decreases |a|
  {
    if a == [] {
      assert |b| == |multiset(b)| == 0;
    } else {
      assert a[0] in multiset(b);
      var k :| 0 <= k < |b| && b[k] == a[0];
      var b' := b[..k] + b[k+1..];
      assert multiset(a[1..]) == multiset(b') by {
        MultisetDrop(a, 0);
        assert a[..0] + a[1..] == a[1..];
        MultisetDrop(b, k);
      }
      SumOfPermutation(a[1..], b', f);
      SumOfRemove(b, k, f);
    }
  }

  /** A duplicate-free sequence holds each of its elements exactly once. */
  lemma {:induction false} DistinctMultiset<T(!new)>(s: seq<T>)
    requires Distinct(s)
    ensures forall x :: multiset(s)[x] == if x in s then 1 else 0
  {
    if s != [] {
      assert s == [s[0]] + s[1..];
      assert Distinct(s[1..]) by {
        forall i, j | 0 <= i < j < |s[1..]| ensures s[1..][i] != s[1..][j] {
          assert s[1..][i] == s[i+1] && s[1..][j] == s[j+1];
        }
      }
      DistinctMultiset(s[1..]);
      assert s[0] !in s[1..] by {
        forall i | 0 <= i < |s[1..]| ensures s[1..][i] != s[0] {
          assert s[1..][i] == s[i+1];
        }
      }
    }
  }

  lemma AppendAssoc<T>(a: seq<T>, b: seq<T>, c: seq<T>)
    ensures a + (b + c) == (a + b) + c
  {
  }

  lemma FilterCons<T(!new)>(x: T, s: seq<T>, p: T -> bool)
    ensures Filter([x] + s, p) == (if p(x) then [x] else []) + Filter(s, p)
  {
    assert ([x] + s)[1..] == s;
  }

  lemma {:induction false} FilterAppend<T(!new)>(a: seq<T>, b: seq<T>, p: T -> bool)
    ensures Filter(a + b, p) == Filter(a, p) + Filter(b, p)
  {
    if a == [] {
      assert a + b == b;
    } else {
      var head := if p(a[0]) then [a[0]] else [];
      var t := a[1..];
      assert a + b == [a[0]] + (t + b);
      assert a == [a[0]] + t;
      FilterCons(a[0], t + b, p);
      FilterCons(a[0], t, p);
      FilterAppend(t, b, p);
      AppendAssoc(head, Filter(t, p), Filter(b, p));
      calc {
        Filter(a + b, p);
        Filter([a[0]] + (t + b), p);
        head + Filter(t + b, p);
        head + (Filter(t, p) + Filter(b, p));
        (head + Filter(t, p)) + Filter(b, p);
        Filter([a[0]] + t, p) + Filter(b, p);
        Filter(a, p) + Filter(b, p);
      }
    }
  }

  /** Filtering keeps a sequence whole when every element passes. */
  lemma {:induction false} FilterAll<T(!new)>(s: seq<T>, p: T -> bool)
    requires forall i :: 0 <= i < |s| ==> p(s[i])
    ensures Filter(s, p) == s
  {
    if s != [] {
      assert forall i :: 0 <= i < |s[1..]| ==> s[1..][i] == s[i + 1];
      FilterAll(s[1..], p);
    }
  }

  /** Filtering out the one element that fails leaves the rest adjacent. */
  lemma FilterDropOne<T(!new)>(a: seq<T>, x: T, b: seq<T>, p: T -> bool)
    requires forall i :: 0 <= i < |a| ==> p(a[i])
    requires forall i :: 0 <= i < |b| ==> p(b[i])
    requires !p(x)
    ensures Filter(a + [x] + b, p) == a + b
  {
    AppendAssoc(a, [x], b);
    FilterAppend(a, [x] + b, p);
    FilterCons(x, b, p);
    FilterAll(a, p);
    FilterAll(b, p);
    calc {
      Filter(a + [x] + b, p);
      Filter(a + ([x] + b), p);
      Filter(a, p) + Filter([x] + b, p);
      a + ([] + Filter(b, p));
      { assert [] + Filter(b, p) == Filter(b, p); }
      a + b;
    }
  }

  /** Filtering empties a sequence when no element passes. */
  lemma {:induction false} FilterNone<T(!new)>(s: seq<T>, p: T -> bool)
    requires forall i :: 0 <= i < |s| ==> !p(s[i])
    ensures Filter(s, p) == []
  {
    if s != [] {
      assert forall i :: 0 <= i < |s[1..]| ==> s[1..][i] == s[i + 1];
      FilterNone(s[1..], p);
    }
  }

  /** Filtering for the one element that passes leaves just that element. */
  lemma FilterSingle<T(!new)>(a: seq<T>, x: T, b: seq<T>, p: T -> bool)
    requires forall i :: 0 <= i < |a| ==> !p(a[i])
    requires forall i :: 0 <= i < |b| ==> !p(b[i])
    requires p(x)
    ensures Filter(a + [x] + b, p) == [x]
  {
    AppendAssoc(a, [x], b);
    FilterAppend(a, [x] + b, p);
    FilterCons(x, b, p);
    FilterNone(a, p);
    FilterNone(b, p);
    calc {
      Filter(a + [x] + b, p);
      Filter(a + ([x] + b), p);
      Filter(a, p) + Filter([x] + b, p);
      [] + ([x] + []);
      { assert [] + ([x] + []) == [x]; }
      [x];
    }
  }

  /** A sum over the elements passing `p` splits into the sums over two disjoint predicates
      that together make up `p`. */
  lemma {:induction false} SumOfFilterSplit<T(!new)>(s: seq<T>, p: T -> bool, q: T -> bool, r: T -> bool, f: T -> real)
    requires forall i :: 0 <= i < |s| ==> (p(s[i]) <==> q(s[i]) || r(s[i])) && !(q(s[i]) && r(s[i]))
    ensures SumOf(Filter(s, p), f) == SumOf(Filter(s, q), f) + SumOf(Filter(s, r), f)
    decreases |s|
  {
    if s != [] {
      var init, x := s[..|s| - 1], s[|s| - 1];
      assert s == init + [x];
      forall i | 0 <= i < |init| ensures (p(init[i]) <==> q(init[i]) || r(init[i])) && !(q(init[i]) && r(init[i])) {
        assert init[i] == s[i];
      }
      SumOfFilterSplit(init, p, q, r, f);
      SumOfFilterAppend(init, x, p, f);
      SumOfFilterAppend(init, x, q, f);
      SumOfFilterAppend(init, x, r, f);
    }
  }

  /** Replacing one term changes a sum by the difference of the two terms. */
  lemma SumOfUpdate<T>(s: seq<T>, k: nat, x: T, f: T -> real)
    requires k < |s|
    ensures SumOf(s[k := x], f) == SumOf(s, f) - f(s[k]) + f(x)
  {
    var t := s[k := x];
    SumOfRemove(s, k, f);
    SumOfRemove(t, k, f);
    assert t[..k] + t[k+1..] == s[..k] + s[k+1..];
  }

  /** The same for a sum over a filtered sequence: only the replaced term's share changes. */
  lemma SumOfFilterUpdate<T(!new)>(s: seq<T>, k: nat, x: T, p: T -> bool, f: T -> real)
    requires k < |s|
    ensures SumOf(Filter(s[k := x], p), f)
         == SumOf(Filter(s, p), f) - (if p(s[k]) then f(s[k]) else 0.0) + (if p(x) then f(x) else 0.0)
  {
    var a, b := s[..k], s[k+1..];
    assert s == a + [s[k]] + b;
    assert s[k := x] == a + [x] + b;
    FilterAppend(a + [s[k]], b, p);
    FilterAppend(a, [s[k]], p);
    FilterAppend(a + [x], b, p);
    FilterAppend(a, [x], p);
    assert [s[k]][1..] == [] && [x][1..] == [];
    SumOfAppend(Filter(a, p) + Filter([s[k]], p), Filter(b, p), f);
    SumOfAppend(Filter(a, p), Filter([s[k]], p), f);
    SumOfAppend(Filter(a, p) + Filter([x], p), Filter(b, p), f);
    SumOfAppend(Filter(a, p), Filter([x], p), f);
  }

  /** One more element adds its share to a sum over a filtered sequence. */
  lemma SumOfFilterAppend<T(!new)>(s: seq<T>, x: T, p: T -> bool, f: T -> real)
    ensures SumOf(Filter(s + [x], p), f) == SumOf(Filter(s, p), f) + (if p(x) then f(x) else 0.0)
  {
    FilterAppend(s, [x], p);
    assert [x][1..] == [];
    SumOfAppend(Filter(s, p), Filter([x], p), f);
  }

  /** The first element of `s` that satisfies `p` (a `LIMIT 1` lookup or `find`). */
  function Find<T(!new)>(s: seq<T>, p: T -> bool): (r: Option<T>)
    ensures r.None? <==> forall i :: 0 <= i < |s| ==> !p(s[i])
    ensures r.Some? ==> exists i :: 0 <= i < |s| && s[i] == r.value && p(s[i]) && forall j :: 0 <= j < i ==> !p(s[j])
  {
    if s == [] then None
    else if p(s[0]) then Some(s[0])
    else
      var r := Find(s[1..], p);
      assert forall i :: 1 <= i < |s| ==> s[i] == s[1..][i-1];
      r
  }
}
