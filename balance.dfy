/**
 * The balance route (GET): the couple's running balance over every shared
 * expense either partner logged. Unlike settling up, it does not skip
 * expenses that are already attached to a settlement.
 */
module BalanceRoute {
  import opened Wrappers
  import opened Schema
  import opened Store
  import opened Sequences
  import opened Text
  import opened Ledger
  import opened SettlementsRoute

  const NoActivePartnerFound: Failure := Failure(404, "No active partner found")

  /** The `select` of a user that the route returns: id, name and email. */
  datatype PublicUser = PublicUser(id: Id, name: Option<string>, email: string)

  function Public(u: User): PublicUser
  {
    PublicUser(u.id, u.name, u.email)
  }

  /** The response body of a successful call. */
  datatype BalanceReport = BalanceReport(
    totalShared: real,
    myPaid: real,
    partnerPaid: real,
    splitAmount: real,
    balance: real,
    partnerInfo: PublicUser,
    transactionCount: nat)

  /** The `where` of the route: shared, and logged by either partner. */
  predicate IsSharedOfPair(tx: Transaction, me: Id, partner: Id)
  {
    tx.isShared && (tx.userId == me || tx.userId == partner)
  }

  function SharedOfPair(txs: seq<Transaction>, me: Id, partner: Id): seq<Transaction>
  {
    Filter(txs, (tx: Transaction) => IsSharedOfPair(tx, me, partner))
  }

  /** The report for `me` and the partner on the other side of `link`. */
  function Report(txs: seq<Transaction>, users: seq<User>, link: PartnerLink, me: Id): BalanceReport
    requires FindUser(users, PartnerOf(link, me)).Some?
  {
    var partner := PartnerOf(link, me);
    var shared := SharedOfPair(txs, me, partner);
    var f := Totals(shared, me, partner);
    BalanceReport(TotalShared(f), f.myPaid, f.partnerPaid, f.splitAmount, Balance(f),
                  Public(FindUser(users, partner).value), |shared|)
  }

  /** GET: the figures, the balance and the partner's public record. */
  method Get(db: Db, session: Option<Id>) returns (r: Result<BalanceReport>)
    requires LinksValid(db.links, db.users)
    ensures !Truthy(session) ==> r == Err(Unauthorized)
    ensures Truthy(session) ==> (r == Err(NoActivePartnerFound) <==> FindAcceptedLink(db.links, session.value).None?)
    ensures Truthy(session) && FindAcceptedLink(db.links, session.value).Some? ==> r.Ok?
    ensures r.Ok? ==>
              && Truthy(session) && FindAcceptedLink(db.links, session.value).Some?
              && var me := session.value;
                 var link := FindAcceptedLink(db.links, me).value;
                 && FindUser(db.users, PartnerOf(link, me)).Some?
                 && r.value == Report(db.transactions, db.users, link, me)
  {
    if !Truthy(session) {
      return Err(Unauthorized);
    }
    var me := session.value;
    var partnerLink := FindAcceptedLink(db.links, me);
    if partnerLink.None? {
      return Err(NoActivePartnerFound);
    }
    var link := partnerLink.value;
    PartnerExists(db.links, db.users, link, me);
    var report := Respond(db.transactions, db.users, link, me);
    r := Ok(report);
  }

  /** The body of a successful GET: select the pair's shared rows, tally them, look the partner up. */
  method Respond(txs: seq<Transaction>, users: seq<User>, link: PartnerLink, me: Id) returns (report: BalanceReport)
    requires FindUser(users, PartnerOf(link, me)).Some?
    ensures var partner := PartnerOf(link, me);
            var shared := SharedOfPair(txs, me, partner);
            var f := Totals(shared, me, partner);
            && report.partnerInfo == Public(FindUser(users, partner).value) && report.transactionCount == |shared|
            && report.myPaid == f.myPaid && report.partnerPaid == f.partnerPaid && report.splitAmount == f.splitAmount
            && report.totalShared == TotalShared(f) && report.balance == Balance(f)
    ensures report == Report(txs, users, link, me)
  {
    var partnerId := if link.user1Id == me then link.user2Id else link.user1Id;
    var sharedTransactions := SharedOfPair(txs, me, partnerId);

    var myPaid, partnerPaid, splitAmount := Tally(sharedTransactions, me, partnerId);
    var totalShared := myPaid + partnerPaid + splitAmount;
    var shouldPayEach := totalShared / 2.0;
    var iActuallyPaid := myPaid + splitAmount / 2.0;
    var balance := iActuallyPaid - shouldPayEach;

    var infoId := if link.user1Id == partnerId then link.user1Id else link.user2Id;
    assert infoId == partnerId;
    var partnerUser := FindUser(users, infoId);
    report := BalanceReport(totalShared, myPaid, partnerPaid, splitAmount, balance,
                            Public(partnerUser.value), |sharedTransactions|);
  }

  /** The route's `forEach` over the selected expenses, updating the three accumulators. */
  method Tally(txs: seq<Transaction>, me: Id, partner: Id) returns (myPaid: real, partnerPaid: real, splitAmount: real)
    ensures Figures(myPaid, partnerPaid, splitAmount) == Totals(txs, me, partner)
  {
    myPaid, partnerPaid, splitAmount := 0.0, 0.0, 0.0;
    var i := 0;
    while i < |txs|
      invariant 0 <= i <= |txs|
      invariant Figures(myPaid, partnerPaid, splitAmount) == Totals(txs[..i], me, partner)
    {
      var tx := txs[i];
      if tx.paidBy == Some(SplitMarker) {
        splitAmount := splitAmount + tx.amount / 2.0;
      } else if tx.paidBy == Some(me) {
        myPaid := myPaid + tx.amount;
      } else if tx.paidBy == Some(partner) {
        partnerPaid := partnerPaid + tx.amount;
      } else if tx.paidBy == Some(LegacyPartnerMarker) {
        if tx.userId == me {
          partnerPaid := partnerPaid + tx.amount;
        } else {
          myPaid := myPaid + tx.amount;
        }
      }
      assert txs[..i + 1][..i] == txs[..i];
      i := i + 1;
    }
    assert txs[..|txs|] == txs;
  }

  /** The link's foreign keys: the partner is a user. */
  lemma PartnerExists(links: seq<PartnerLink>, users: seq<User>, link: PartnerLink, me: Id)
    requires LinksValid(links, users) && link in links
    ensures FindUser(users, PartnerOf(link, me)).Some?
  {
    var k :| 0 <= k < |links| && links[k] == link;
  }

  // ----- How the route's selection relates to the settle-up's

  /** The settle-up selects exactly the still-unsettled rows of the route's selection. */
  lemma UnsettledWithinShared(txs: seq<Transaction>, me: Id, partner: Id)
    ensures forall x :: x in UnsettledShared(txs, me, partner) <==>
                          x in SharedOfPair(txs, me, partner) && x.settlementId.None?
  {
  }

  /** `a` and `b` hold the same expenses, row by row, up to their settlement references. */
  predicate SameUpToSettlement(a: seq<Transaction>, b: seq<Transaction>)
  {
    |a| == |b| && forall i :: 0 <= i < |a| ==> a[i].(settlementId := None) == b[i].(settlementId := None)
  }

  /** Attaching to a settlement does not change what an expense contributes. */
  lemma {:induction false} TotalsIgnoreSettlement(a: seq<Transaction>, b: seq<Transaction>, me: Id, partner: Id)
    requires SameUpToSettlement(a, b)
    ensures Totals(a, me, partner) == Totals(b, me, partner)
  {
    if a != [] {
      var n := |a| - 1;
      assert a[n].(settlementId := None) == b[n].(settlementId := None);
      assert Contribution(a[n], me, partner) == Contribution(b[n], me, partner);
      TotalsIgnoreSettlement(a[..n], b[..n], me, partner);
    }
  }

  /**
   * The route's selection after a settle-up is the selection before it, up
   * to the settlement references.
   */
  lemma {:induction false} SettledSelection(txs: seq<Transaction>, me: Id, partner: Id, sid: Id)
    ensures SameUpToSettlement(SharedOfPair(Settled(txs, me, partner, sid), me, partner), SharedOfPair(txs, me, partner))
  {
    if txs != [] {
      var settled := Settled(txs, me, partner, sid);
      var x, y := txs[0], settled[0];
      var rest := txs[1..];
      assert settled[1..] == Settled(rest, me, partner, sid);
      var sb, sa := SharedOfPair(rest, me, partner), SharedOfPair(settled[1..], me, partner);
      SettledSelection(rest, me, partner, sid);
      assert IsSharedOfPair(y, me, partner) == IsSharedOfPair(x, me, partner);
      SharedOfPairFirst(txs, me, partner);
      SharedOfPairFirst(settled, me, partner);
      if IsSharedOfPair(x, me, partner) {
        SameUpToSettlementCons(y, x, sa, sb);
      }
    }
  }

  lemma SameUpToSettlementCons(y: Transaction, x: Transaction, a: seq<Transaction>, b: seq<Transaction>)
    requires SameUpToSettlement(a, b) && y.(settlementId := None) == x.(settlementId := None)
    ensures SameUpToSettlement([y] + a, [x] + b)
  {
    forall i | 0 < i < |a| + 1 ensures ([y] + a)[i] == a[i - 1] && ([x] + b)[i] == b[i - 1] {
    }
  }

  /** The route's selection of a non-empty table: its first row if selected, then the selection of the rest. */
  lemma SharedOfPairFirst(txs: seq<Transaction>, me: Id, partner: Id)
    requires txs != []
    ensures SharedOfPair(txs, me, partner) ==
              if IsSharedOfPair(txs[0], me, partner) then [txs[0]] + SharedOfPair(txs[1..], me, partner)
              else SharedOfPair(txs[1..], me, partner)
  {
  }

  /**
   * A settle-up leaves this route's figures, balance and count exactly as
   * they were: settled expenses stay in its selection.
   */
  lemma SettleLeavesReportUnchanged(txs: seq<Transaction>, me: Id, partner: Id, sid: Id)
    ensures var before := SharedOfPair(txs, me, partner);
            var after := SharedOfPair(Settled(txs, me, partner, sid), me, partner);
            && |after| == |before|
            && Totals(after, me, partner) == Totals(before, me, partner)
  {
    SettledSelection(txs, me, partner, sid);
    TotalsIgnoreSettlement(SharedOfPair(Settled(txs, me, partner, sid), me, partner), SharedOfPair(txs, me, partner), me, partner);
  }
}
