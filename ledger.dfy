/**
 * The balance arithmetic shared by the balance and settlements routes: how one
 * shared expense is credited, the three running totals over a list of
 * expenses, and the signed balance derived from them (positive: the partner
 * owes the caller; negative: the caller owes the partner).
 */
module Ledger {
  import opened Wrappers
  import opened Schema

  /** Whom an expense is credited to; `Unknown` expenses are dropped. */
  datatype Payer = Me | Partner | Split | Unknown

  /**
   * The first-match chain on `paidBy`: "split", the caller's id, the
   * partner's id, then the legacy "partner" marker resolved through the
   * expense's logger.
   */
  function Classify(tx: Transaction, me: Id, partner: Id): Payer
  {
    if tx.paidBy == Some(SplitMarker) then Split
    else if tx.paidBy == Some(me) then Me
    else if tx.paidBy == Some(partner) then Partner
    else if tx.paidBy == Some(LegacyPartnerMarker) then
      if tx.userId == me then Partner else Me
    else Unknown
  }

  /**
   * Which bucket `Classify` picks: "split" always wins; otherwise the payer
   * named by id; the legacy marker credits the partner exactly when the caller
   * logged the expense; any other `paidBy`, absent included, is dropped.
   */
  lemma ClassifyRules(tx: Transaction, me: Id, partner: Id)
    ensures tx.paidBy == Some(SplitMarker) ==> Classify(tx, me, partner) == Split
    ensures tx.paidBy == Some(me) && me != SplitMarker ==> Classify(tx, me, partner) == Me
    ensures tx.paidBy == Some(partner) && partner != SplitMarker && partner != me ==> Classify(tx, me, partner) == Partner
    ensures Classify(tx, me, partner) == Unknown <==>
              (tx.paidBy.None? || tx.paidBy.value !in {SplitMarker, me, partner, LegacyPartnerMarker})
    ensures tx.paidBy == Some(LegacyPartnerMarker) && WellFormedId(me) && WellFormedId(partner) ==>
              (Classify(tx, me, partner) == Partner <==> tx.userId == me)
              && (Classify(tx, me, partner) == Me <==> tx.userId != me)
  {
  }

  /** The three running totals of the source: `myPaid`, `partnerPaid` and `splitAmount`. */
  datatype Figures = Figures(myPaid: real, partnerPaid: real, splitAmount: real)

  const NoFigures: Figures := Figures(0.0, 0.0, 0.0)

  function Plus(a: Figures, b: Figures): Figures
  {
    Figures(a.myPaid + b.myPaid, a.partnerPaid + b.partnerPaid, a.splitAmount + b.splitAmount)
  }

  /**
   * What one expense adds to the totals: all of it to the bucket `Classify`
   * picks, except that a split expense adds half of its amount to `splitAmount`.
   */
  function Contribution(tx: Transaction, me: Id, partner: Id): Figures
  {
    match Classify(tx, me, partner)
    case Split => Figures(0.0, 0.0, tx.amount / 2.0)
    case Me => Figures(tx.amount, 0.0, 0.0)
    case Partner => Figures(0.0, tx.amount, 0.0)
    case Unknown => NoFigures
  }

  /**
   * An expense lands in at most one bucket; a dropped one adds nothing, and a
   * split one is counted at half of its amount.
   */
  lemma ContributionRules(tx: Transaction, me: Id, partner: Id)
    ensures var c := Contribution(tx, me, partner);
      && (Classify(tx, me, partner) == Unknown ==> c == NoFigures)
      && c.myPaid + c.partnerPaid + 2.0 * c.splitAmount == (if Classify(tx, me, partner) == Unknown then 0.0 else tx.amount)
      && (c.myPaid == 0.0 || (c.partnerPaid == 0.0 && c.splitAmount == 0.0))
      && (c.partnerPaid == 0.0 || c.splitAmount == 0.0)
  {
  }

  /** The totals after the `forEach` has visited every expense of `txs` in order. */
  function Totals(txs: seq<Transaction>, me: Id, partner: Id): Figures
  {
    if txs == [] then NoFigures
    else Plus(Totals(txs[..|txs| - 1], me, partner), Contribution(txs[|txs| - 1], me, partner))
  }

  /** `totalShared`: what was paid, with split expenses counted at half. */
  function TotalShared(f: Figures): real
  {
    f.myPaid + f.partnerPaid + f.splitAmount
  }

  /** `iActuallyPaid - shouldPayEach`: half the difference of what each partner paid. */
  function Balance(f: Figures): (b: real)
    ensures b == (f.myPaid - f.partnerPaid) / 2.0
  {
    var shouldPayEach := TotalShared(f) / 2.0;
    var iActuallyPaid := f.myPaid + f.splitAmount / 2.0;
    iActuallyPaid - shouldPayEach
  }

  function AmountSum(txs: seq<Transaction>): real
  {
    if txs == [] then 0.0 else AmountSum(txs[..|txs| - 1]) + txs[|txs| - 1].amount
  }

  // ----- Properties of the totals

  /** Totals of a concatenation are the sum of the totals of its parts. */
  lemma {:induction false} TotalsAppend(a: seq<Transaction>, b: seq<Transaction>, me: Id, partner: Id)
    ensures Totals(a + b, me, partner) == Plus(Totals(a, me, partner), Totals(b, me, partner))
  {
    if b == [] {
      assert a + b == a;
    } else {
      var b', x := b[..|b| - 1], b[|b| - 1];
      assert (a + b)[..|a + b| - 1] == a + b';
      assert (a + b)[|a + b| - 1] == x;
      TotalsAppend(a, b', me, partner);
      assert Totals(a + b, me, partner) == Plus(Totals(a + b', me, partner), Contribution(x, me, partner));
      assert Totals(b, me, partner) == Plus(Totals(b', me, partner), Contribution(x, me, partner));
    }
  }

  lemma CancelCommon<T>(a: seq<T>, x: T, b1: seq<T>, b2: seq<T>)
    requires multiset(a + [x]) == multiset(b1 + [x] + b2)
    ensures multiset(a) == multiset(b1 + b2)
  {
    var m, n := multiset(a), multiset(b1 + b2);
    assert m + multiset{x} == n + multiset{x} by {
      assert b1 + [x] + b2 == b1 + ([x] + b2);
    }
    forall y ensures m[y] == n[y] {
      assert (m + multiset{x})[y] == (n + multiset{x})[y];
    }
  }

  /** The totals do not depend on the order in which the expenses are visited. */
  lemma {:induction false} TotalsPermutation(a: seq<Transaction>, b: seq<Transaction>, me: Id, partner: Id)
    requires multiset(a) == multiset(b)
    ensures Totals(a, me, partner) == Totals(b, me, partner)
    decreases |a|
  {
    if a == [] {
      assert |b| == |multiset(b)| == 0;
    } else {
      var a', x := a[..|a| - 1], a[|a| - 1];
      assert a == a' + [x];
      assert x in multiset(b);
      var k :| 0 <= k < |b| && b[k] == x;
      var b1, b2 := b[..k], b[k + 1..];
      assert b == b1 + [x] + b2;
      CancelCommon(a', x, b1, b2);
      TotalsPermutation(a', b1 + b2, me, partner);
      var c := Contribution(x, me, partner);
      assert Totals(a, me, partner) == Plus(Totals(a', me, partner), c);
      TotalsAppend(b1, b2, me, partner);
      TotalsAppend(b1 + [x], b2, me, partner);
      assert (b1 + [x])[..|b1|] == b1;
      PlusRearrange(Totals(b1, me, partner), Totals(b2, me, partner), c);
    }
  }

  lemma PlusRearrange(p: Figures, q: Figures, c: Figures)
    ensures Plus(Plus(p, q), c) == Plus(Plus(p, c), q)
  {
  }

  /** `Figures` as the other partner computes them. */
  function Swapped(f: Figures): Figures
  {
    Figures(f.partnerPaid, f.myPaid, f.splitAmount)
  }

  lemma {:induction false} TotalsSwapped(txs: seq<Transaction>, me: Id, partner: Id)
    requires me != partner && WellFormedId(me) && WellFormedId(partner)
    requires forall i :: 0 <= i < |txs| ==> txs[i].userId == me || txs[i].userId == partner
    ensures Totals(txs, partner, me) == Swapped(Totals(txs, me, partner))
  {
    if txs != [] {
      var p, tx := txs[..|txs| - 1], txs[|txs| - 1];
      TotalsSwapped(p, me, partner);
      assert Contribution(tx, partner, me) == Swapped(Contribution(tx, me, partner));
      assert Totals(txs, me, partner) == Plus(Totals(p, me, partner), Contribution(tx, me, partner));
      assert Totals(txs, partner, me) == Plus(Totals(p, partner, me), Contribution(tx, partner, me));
    }
  }

  /**
   * Exchanging the roles of the two partners exchanges `myPaid` and
   * `partnerPaid`, so it negates the balance and keeps `totalShared`,
   * provided both ids are distinct real ids and every expense was logged by
   * one of them (as the routes select them).
   */
  lemma SwapRoles(txs: seq<Transaction>, me: Id, partner: Id)
    requires me != partner && WellFormedId(me) && WellFormedId(partner)
    requires forall i :: 0 <= i < |txs| ==> txs[i].userId == me || txs[i].userId == partner
    ensures Totals(txs, partner, me).myPaid == Totals(txs, me, partner).partnerPaid
    ensures Totals(txs, partner, me).partnerPaid == Totals(txs, me, partner).myPaid
    ensures Balance(Totals(txs, partner, me)) == -Balance(Totals(txs, me, partner))
    ensures TotalShared(Totals(txs, partner, me)) == TotalShared(Totals(txs, me, partner))
  {
    TotalsSwapped(txs, me, partner);
  }

  predicate NonNegativeAmounts(txs: seq<Transaction>)
  {
    forall i :: 0 <= i < |txs| ==> txs[i].amount >= 0.0
  }

  lemma {:induction false} TotalsNonNegative(txs: seq<Transaction>, me: Id, partner: Id)
    requires NonNegativeAmounts(txs)
    ensures Totals(txs, me, partner).myPaid >= 0.0
    ensures Totals(txs, me, partner).partnerPaid >= 0.0
    ensures Totals(txs, me, partner).splitAmount >= 0.0
  {
    if txs != [] {
      var p, x := txs[..|txs| - 1], txs[|txs| - 1];
      TotalsNonNegative(p, me, partner);
      assert Totals(txs, me, partner) == Plus(Totals(p, me, partner), Contribution(x, me, partner));
    }
  }

  /**
   * With non-negative amounts every total is non-negative and the balance is
   * at most half of `totalShared` either way.
   */
  lemma TotalsBounds(txs: seq<Transaction>, me: Id, partner: Id)
    requires NonNegativeAmounts(txs)
    ensures var f := Totals(txs, me, partner);
      f.myPaid >= 0.0 && f.partnerPaid >= 0.0 && f.splitAmount >= 0.0 && TotalShared(f) >= 0.0
      && -TotalShared(f) / 2.0 <= Balance(f) <= TotalShared(f) / 2.0
  {
    TotalsNonNegative(txs, me, partner);
  }

  lemma {:induction false} TotalsWhenCallerPaid(txs: seq<Transaction>, me: Id, partner: Id)
    requires me != SplitMarker
    requires forall i :: 0 <= i < |txs| ==> txs[i].paidBy == Some(me)
    ensures Totals(txs, me, partner) == Figures(AmountSum(txs), 0.0, 0.0)
  {
    if txs != [] {
      var p, x := txs[..|txs| - 1], txs[|txs| - 1];
      TotalsWhenCallerPaid(p, me, partner);
      assert Contribution(x, me, partner) == Figures(x.amount, 0.0, 0.0);
      assert Totals(txs, me, partner) == Plus(Totals(p, me, partner), Contribution(x, me, partner));
      assert AmountSum(txs) == AmountSum(p) + x.amount;
    }
  }

  /** When the caller paid every expense, all of it is shared and the partner owes half of it. */
  lemma OnlyCallerPaid(txs: seq<Transaction>, me: Id, partner: Id)
    requires me != SplitMarker
    requires forall i :: 0 <= i < |txs| ==> txs[i].paidBy == Some(me)
    ensures Totals(txs, me, partner).myPaid == AmountSum(txs)
    ensures TotalShared(Totals(txs, me, partner)) == AmountSum(txs)
    ensures Balance(Totals(txs, me, partner)) == AmountSum(txs) / 2.0
  {
    TotalsWhenCallerPaid(txs, me, partner);
  }

  lemma {:induction false} TotalsWhenAllSplit(txs: seq<Transaction>, me: Id, partner: Id)
    requires forall i :: 0 <= i < |txs| ==> txs[i].paidBy == Some(SplitMarker)
    ensures Totals(txs, me, partner) == Figures(0.0, 0.0, AmountSum(txs) / 2.0)
  {
    if txs != [] {
      var p, x := txs[..|txs| - 1], txs[|txs| - 1];
      TotalsWhenAllSplit(p, me, partner);
      assert Contribution(x, me, partner) == Figures(0.0, 0.0, x.amount / 2.0);
      assert Totals(txs, me, partner) == Plus(Totals(p, me, partner), Contribution(x, me, partner));
      assert AmountSum(txs) == AmountSum(p) + x.amount;
    }
  }

  /** When every expense is split, nobody owes anything and half of their sum is shared. */
  lemma OnlySplit(txs: seq<Transaction>, me: Id, partner: Id)
    requires forall i :: 0 <= i < |txs| ==> txs[i].paidBy == Some(SplitMarker)
    ensures Totals(txs, me, partner).splitAmount == AmountSum(txs) / 2.0
    ensures Balance(Totals(txs, me, partner)) == 0.0
    ensures TotalShared(Totals(txs, me, partner)) == AmountSum(txs) / 2.0
  {
    TotalsWhenAllSplit(txs, me, partner);
  }

  /** The caller pays 100 and the partner 40: 140 shared, and the partner owes 30. */
  lemma CallerAndPartnerExample(me: Id, partner: Id, t1: Transaction, t2: Transaction)
    requires WellFormedId(me) && WellFormedId(partner) && me != partner
    requires t1.amount == 100.0 && t1.paidBy == Some(me)
    requires t2.amount == 40.0 && t2.paidBy == Some(partner)
    ensures Totals([t1, t2], me, partner) == Figures(100.0, 40.0, 0.0)
    ensures TotalShared(Totals([t1, t2], me, partner)) == 140.0
    ensures Balance(Totals([t1, t2], me, partner)) == 30.0
  {
    var c1, c2 := Contribution(t1, me, partner), Contribution(t2, me, partner);
    assert c1 == Figures(100.0, 0.0, 0.0);
    assert Classify(t2, me, partner) == Partner;
    assert c2 == Figures(0.0, 40.0, 0.0);
    assert Totals([t1], me, partner) == c1 by {
      assert [t1][..0] == [];
    }
    assert Totals([t1, t2], me, partner) == Plus(Totals([t1], me, partner), c2) by {
      assert [t1, t2][..1] == [t1];
    }
  }

}
