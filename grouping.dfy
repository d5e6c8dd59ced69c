/**
 * Group-by over a list of keyed amounts, as the analytics route does twice
 * (by month and by category name): per-key sums and counts, the keys in
 * order of first appearance, and the fact that the groups partition the list.
 */
module Grouping {

  /** One aggregated row: its group key and its amount. */
  datatype Entry = Entry(key: string, amount: real)

  /** The sum of all amounts. */
  function Total(es: seq<Entry>): real
  {
    if es == [] then 0.0 else Total(es[..|es| - 1]) + es[|es| - 1].amount
  }

  /** The sum of the amounts of the entries with key `k`. */
  function KeyTotal(es: seq<Entry>, k: string): real
  {
    if es == [] then 0.0
    else KeyTotal(es[..|es| - 1], k) + (if es[|es| - 1].key == k then es[|es| - 1].amount else 0.0)
  }

  /** The number of entries with key `k`. */
  function KeyCount(es: seq<Entry>, k: string): nat
  {
    if es == [] then 0
    else KeyCount(es[..|es| - 1], k) + (if es[|es| - 1].key == k then 1 else 0)
  }

  predicate HasKey(es: seq<Entry>, k: string)
  {
    exists i :: 0 <= i < |es| && es[i].key == k
  }

  predicate NoDuplicates(ks: seq<string>)
  {
    forall i, j :: 0 <= i < j < |ks| ==> ks[i] != ks[j]
  }

  /** The distinct keys of `es`, each where it first appears. */
  function FirstSeen(es: seq<Entry>): (ks: seq<string>)
    ensures NoDuplicates(ks)
    ensures forall k :: k in ks <==> HasKey(es, k)
  {
    if es == [] then []
    else
      var p, x := es[..|es| - 1], es[|es| - 1];
      var ks := FirstSeen(p);
      assert forall k :: HasKey(es, k) <==> HasKey(p, k) || x.key == k by {
        forall k ensures HasKey(es, k) <==> HasKey(p, k) || x.key == k {
          if HasKey(p, k) {
            var i :| 0 <= i < |p| && p[i].key == k;
            assert es[i] == p[i];
          }
          if HasKey(es, k) && x.key != k {
            var i :| 0 <= i < |es| && es[i].key == k;
            assert p[i] == es[i];
          }
        }
      }
      if x.key in ks then ks else ks + [x.key]
  }

  /** A key that never occurs has total 0 and count 0. */
  lemma {:induction false} AbsentKey(es: seq<Entry>, k: string)
    requires !HasKey(es, k)
    ensures KeyTotal(es, k) == 0.0 && KeyCount(es, k) == 0
  {
    if es != [] {
      var p := es[..|es| - 1];
      forall i | 0 <= i < |p| ensures p[i].key != k {
        assert p[i] == es[i];
      }
      AbsentKey(p, k);
    }
  }

  /** Appending one entry: its key joins the order if new, and only its own group's sum and count grow. */
  lemma AppendEntry(es: seq<Entry>, e: Entry)
    ensures FirstSeen(es + [e]) == if e.key in FirstSeen(es) then FirstSeen(es) else FirstSeen(es) + [e.key]
    ensures forall k :: KeyTotal(es + [e], k) == KeyTotal(es, k) + (if e.key == k then e.amount else 0.0)
    ensures forall k :: KeyCount(es + [e], k) == KeyCount(es, k) + (if e.key == k then 1 else 0)
  {
    assert (es + [e])[..|es|] == es;
  }

  /** Appending one entry adds its key to the keys present and its amount to the total. */
  lemma AppendEntryKeys(es: seq<Entry>, e: Entry)
    ensures forall k :: HasKey(es + [e], k) <==> HasKey(es, k) || e.key == k
    ensures Total(es + [e]) == Total(es) + e.amount
  {
    var u := es + [e];
    assert u[..|es|] == es;
    forall k | HasKey(u, k) && e.key != k ensures HasKey(es, k) {
      var i :| 0 <= i < |u| && u[i].key == k;
      assert u[i] == es[i];
    }
    forall k | HasKey(es, k) ensures HasKey(u, k) {
      var i :| 0 <= i < |es| && es[i].key == k;
      assert u[i] == es[i];
    }
    assert u[|es|] == e;
  }

  /** The sum of the per-key totals of the keys `ks`. */
  function SumOfTotals(ks: seq<string>, es: seq<Entry>): real
  {
    if ks == [] then 0.0 else KeyTotal(es, ks[0]) + SumOfTotals(ks[1..], es)
  }

  /** The sum of the per-key counts of the keys `ks`. */
  function SumOfCounts(ks: seq<string>, es: seq<Entry>): nat
  {
    if ks == [] then 0 else KeyCount(es, ks[0]) + SumOfCounts(ks[1..], es)
  }

  lemma {:induction false} SumsAppend(ks: seq<string>, k: string, es: seq<Entry>)
    ensures SumOfTotals(ks + [k], es) == SumOfTotals(ks, es) + KeyTotal(es, k)
    ensures SumOfCounts(ks + [k], es) == SumOfCounts(ks, es) + KeyCount(es, k)
  {
    if ks != [] {
      assert (ks + [k])[1..] == ks[1..] + [k];
      SumsAppend(ks[1..], k, es);
    }
  }

  /** Appending one entry adds its amount to the sums over distinct keys exactly once, if its key is among them. */
  lemma {:induction false} SumsStep(ks: seq<string>, p: seq<Entry>, x: Entry)
    requires NoDuplicates(ks)
    ensures SumOfTotals(ks, p + [x]) == SumOfTotals(ks, p) + (if x.key in ks then x.amount else 0.0)
    ensures SumOfCounts(ks, p + [x]) == SumOfCounts(ks, p) + (if x.key in ks then 1 else 0)
  {
    if ks != [] {
      assert (p + [x])[..|p + [x]| - 1] == p;
      assert x.key in ks[1..] ==> x.key != ks[0] by {
        if x.key in ks[1..] {
          var j :| 0 <= j < |ks[1..]| && ks[1..][j] == x.key;
          assert ks[j + 1] == x.key;
        }
      }
      assert x.key in ks <==> x.key == ks[0] || x.key in ks[1..] by {
        assert ks == [ks[0]] + ks[1..];
      }
      SumsStep(ks[1..], p, x);
    }
  }

  /**
   * The groups partition the list: the per-key totals over the distinct keys
   * add up to the total, and the per-key counts to the number of entries.
   */
  lemma {:induction false} GroupsPartition(es: seq<Entry>)
    ensures SumOfTotals(FirstSeen(es), es) == Total(es)
    ensures SumOfCounts(FirstSeen(es), es) == |es|
  {
    if es != [] {
      var p, x := es[..|es| - 1], es[|es| - 1];
      assert es == p + [x];
      var ks := FirstSeen(p);
      GroupsPartition(p);
      SumsStep(ks, p, x);
      if x.key !in ks {
        SumsAppend(ks, x.key, es);
        AbsentKey(p, x.key);
      }
    }
  }
}
