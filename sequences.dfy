/**
 * Filtering and a stable insertion sort over an arbitrary total preorder: the
 * `where`, `orderBy` and `take` of the store and `Array.prototype.sort`.
 */
module Sequences {

  /** The elements of `s` that `keep` accepts, in their order. */
  function Filter<T(!new)>(s: seq<T>, keep: T -> bool): (r: seq<T>)
    ensures |r| <= |s|
    ensures forall x :: x in r <==> x in s && keep(x)
    ensures r == [] <==> forall x :: x in s ==> !keep(x)
    ensures forall x :: multiset(r)[x] == if keep(x) then multiset(s)[x] else 0
  {
    if s == [] then []
    else
      assert forall x :: x in s <==> x == s[0] || x in s[1..];
      assert s == [s[0]] + s[1..];
      if keep(s[0]) then [s[0]] + Filter(s[1..], keep) else Filter(s[1..], keep)
  }

  /** Filtering keeps the order of the list: a concatenation filters part by part. */
  lemma {:induction false} FilterAppend<T(!new)>(s: seq<T>, t: seq<T>, keep: T -> bool)
    ensures Filter(s + t, keep) == Filter(s, keep) + Filter(t, keep)
  {
    if s == [] {
      assert s + t == t;
    } else {
      var u := s + t;
      assert u[0] == s[0] && u[1..] == s[1..] + t;
      var a, b := Filter(s[1..], keep), Filter(t, keep);
      FilterAppend(s[1..], t, keep);
      assert Filter(u[1..], keep) == a + b;
      if keep(s[0]) {
        assert Filter(u, keep) == [s[0]] + (a + b);
        assert Filter(s, keep) == [s[0]] + a;
        ConcatAssociative([s[0]], a, b);
      } else {
        assert Filter(u, keep) == a + b;
        assert Filter(s, keep) == a;
      }
    }
  }

  lemma ConcatAssociative<T>(a: seq<T>, b: seq<T>, c: seq<T>)
    ensures a + (b + c) == (a + b) + c
  {
  }

  /** One element is kept exactly when `keep` accepts it. */
  lemma FilterOne<T(!new)>(x: T, keep: T -> bool)
    ensures Filter([x], keep) == if keep(x) then [x] else []
  {
    assert [x][1..] == [];
  }

  function Min(a: int, b: int): int
  {
    if a <= b then a else b
  }

  /** `before(a, b)`: `a` may be placed before `b`. */
  ghost predicate TotalPreorder<T(!new)>(before: (T, T) -> bool)
  {
    && (forall a, b :: before(a, b) || before(b, a))
    && (forall a, b, c :: before(a, b) && before(b, c) ==> before(a, c))
  }

  predicate Sorted<T>(s: seq<T>, before: (T, T) -> bool)
  {
    forall i, j :: 0 <= i < j < |s| ==> before(s[i], s[j])
  }

  /** `s` with `x` placed before the first element it may precede. */
  function Insert<T(!new)>(x: T, s: seq<T>, before: (T, T) -> bool): (r: seq<T>)
    requires TotalPreorder(before) && Sorted(s, before)
    ensures multiset(r) == multiset(s) + multiset{x}
    ensures Sorted(r, before)
  {
    if s == [] || before(x, s[0]) then
      HeadBeforeSorted(x, s, before);
      [x] + s
    else
      var rest := Insert(x, s[1..], before);
      assert s == [s[0]] + s[1..];
      HeadBeforeInserted(s, x, rest, before);
      [s[0]] + rest
  }

  /** An element that may precede the head of a sorted sequence may precede all of it. */
  lemma HeadBeforeSorted<T(!new)>(x: T, s: seq<T>, before: (T, T) -> bool)
    requires TotalPreorder(before) && Sorted(s, before) && (s == [] || before(x, s[0]))
    ensures Sorted([x] + s, before)
  {
    var r := [x] + s;
    forall i, j | 0 <= i < j < |r| ensures before(r[i], r[j]) {
      if i > 0 {
        assert r[i] == s[i - 1] && r[j] == s[j - 1];
      } else if j > 1 {
        assert before(s[0], s[j - 1]);
      }
    }
  }

  /** The head of `s` may precede everything in `rest`, which holds the tail of `s` and `x`. */
  lemma HeadBeforeInserted<T(!new)>(s: seq<T>, x: T, rest: seq<T>, before: (T, T) -> bool)
    requires TotalPreorder(before) && Sorted(s, before) && s != [] && !before(x, s[0])
    requires Sorted(rest, before) && multiset(rest) == multiset(s[1..]) + multiset{x}
    ensures Sorted([s[0]] + rest, before)
  {
    forall k | 0 <= k < |rest| ensures before(s[0], rest[k]) {
      assert rest[k] in multiset(rest);
      if rest[k] != x {
        assert rest[k] in multiset(s[1..]);
        var m :| 0 <= m < |s[1..]| && s[1..][m] == rest[k];
        assert s[m + 1] == rest[k];
      }
    }
    var r := [s[0]] + rest;
    forall i, j | 0 <= i < j < |r| ensures before(r[i], r[j]) {
      if i > 0 {
        assert r[i] == rest[i - 1] && r[j] == rest[j - 1];
      } else {
        assert r[j] == rest[j - 1];
      }
    }
  }

  /** The elements of `s`, ordered by `before`; equal elements keep their order. */
  function SortBy<T(!new)>(s: seq<T>, before: (T, T) -> bool): (r: seq<T>)
    requires TotalPreorder(before)
    ensures multiset(r) == multiset(s)
    ensures Sorted(r, before)
  {
    if s == [] then []
    else
      assert s == [s[0]] + s[1..];
      Insert(s[0], SortBy(s[1..], before), before)
  }

  /**
   * A prefix of a sorted permutation of `s` holds elements of `s`, stays
   * sorted, and every element of `s` it leaves out may come after each of
   * its elements: the `orderBy` then `take` of a query.
   */
  lemma SortedPrefix<T(!new)>(s: seq<T>, sorted: seq<T>, before: (T, T) -> bool, r: seq<T>)
    requires multiset(sorted) == multiset(s) && Sorted(sorted, before)
    requires |r| <= |sorted| && r == sorted[..|r|]
    ensures forall i :: 0 <= i < |r| ==> r[i] in s
    ensures Sorted(r, before)
    ensures forall x :: x in s && x !in r ==> forall i :: 0 <= i < |r| ==> before(r[i], x)
    ensures multiset(r) <= multiset(s)
  {
    assert sorted == r + sorted[|r|..];
    forall i | 0 <= i < |r| ensures r[i] in s {
      assert r[i] == sorted[i] && sorted[i] in multiset(sorted);
    }
    forall x | x in s && x !in r
      ensures forall i :: 0 <= i < |r| ==> before(r[i], x)
    {
      assert x in multiset(sorted);
      var k :| 0 <= k < |sorted| && sorted[k] == x;
      forall i | 0 <= i < |r| ensures before(r[i], x) {
        assert before(sorted[i], sorted[k]);
      }
    }
  }
}
