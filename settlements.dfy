/**
 * The settlements route: `calculateSplit`, the listing of a couple's latest
 * settlements (GET) and settling up (POST), which records one settlement
 * and attaches to it every unsettled shared expense of the couple.
 */
module SettlementsRoute {
  import opened Wrappers
  import opened Schema
  import opened Store
  import opened Sequences
  import opened Text
  import opened Ledger

  const NoActivePartner: Failure := Failure(404, "No active partner")
  const NothingToSettle: Failure := Failure(400, "Nothing to settle")

  /** `calculateSplit`: one pass over the expenses, then the balance arithmetic. */
  method CalculateSplit(txs: seq<Transaction>, me: Id, partner: Id) returns (balance: real, totalShared: real)
    ensures balance == Balance(Totals(txs, me, partner))
    ensures totalShared == TotalShared(Totals(txs, me, partner))
  {
    var myPaid, partnerPaid, splitAmount := 0.0, 0.0, 0.0;
    var i := 0;
    while i < |txs|
      invariant 0 <= i <= |txs|
      invariant Figures(myPaid, partnerPaid, splitAmount) == Totals(txs[..i], me, partner)
    {
      var tx := txs[i];
      if tx.paidBy == Some(SplitMarker) {
        splitAmount := splitAmount + tx.amount / 2.0;
      } else if tx.paidBy == Some(me) {
        myPaid := myPaid + tx.amount;
      } else if tx.paidBy == Some(partner) {
        partnerPaid := partnerPaid + tx.amount;
      } else if tx.paidBy == Some(LegacyPartnerMarker) {
        if tx.userId == me {
          partnerPaid := partnerPaid + tx.amount;
        } else {
          myPaid := myPaid + tx.amount;
        }
      }
      assert txs[..i + 1][..i] == txs[..i];
      i := i + 1;
    }
    assert txs[..|txs|] == txs;
    totalShared := myPaid + partnerPaid + splitAmount;
    var shouldPayEach := totalShared / 2.0;
    var iActuallyPaid := myPaid + splitAmount / 2.0;
    balance := iActuallyPaid - shouldPayEach;
  }

  /** The number of settlements the listing returns at most. */
  const ListingSize: nat := 20

  predicate NewerFirst(a: Settlement, b: Settlement)
  {
    a.createdAt >= b.createdAt
  }

  /** The `where` of the listing: the settlements of one partner link. */
  function SettlementsOf(settlements: seq<Settlement>, linkId: Id): seq<Settlement>
  {
    Filter(settlements, (s: Settlement) => s.partnerLinkId == linkId)
  }

  /**
   * The couple's settlements, newest first, at most twenty of them: none left
   * out is newer than one returned.
   */
  function LatestSettlements(settlements: seq<Settlement>, linkId: Id): (r: seq<Settlement>)
    ensures |r| == Min(ListingSize, |SettlementsOf(settlements, linkId)|)
    ensures forall i :: 0 <= i < |r| ==> r[i] in settlements && r[i].partnerLinkId == linkId
    ensures multiset(r) <= multiset(SettlementsOf(settlements, linkId))
    ensures Sorted(r, NewerFirst)
    ensures forall s :: s in settlements && s.partnerLinkId == linkId && s !in r ==>
              forall i :: 0 <= i < |r| ==> r[i].createdAt >= s.createdAt
  {
    var mine := SettlementsOf(settlements, linkId);
    var sorted := SortBy(mine, NewerFirst);
    assert |sorted| == |multiset(sorted)| == |mine|;
    var r := sorted[..Min(ListingSize, |sorted|)];
    SortedPrefix(mine, sorted, NewerFirst, r);
    r
  }

  /** GET: the latest settlements of the caller's active couple. */
  method Get(db: Db, session: Option<Id>) returns (r: Result<seq<Settlement>>)
    ensures !Truthy(session) ==> r == Err(Unauthorized)
    ensures Truthy(session) && FindAcceptedLink(db.links, session.value).None? ==> r == Err(NoActivePartner)
    ensures Truthy(session) && FindAcceptedLink(db.links, session.value).Some? ==>
              r == Ok(LatestSettlements(db.settlements, FindAcceptedLink(db.links, session.value).value.id))
  {
    if !Truthy(session) {
      return Err(Unauthorized);
    }
    var partnerLink := FindAcceptedLink(db.links, session.value);
    if partnerLink.None? {
      return Err(NoActivePartner);
    }
    r := Ok(LatestSettlements(db.settlements, partnerLink.value.id));
  }

  /** The `where` of the settle-up query: shared, not yet settled, logged by either partner. */
  predicate IsUnsettledShared(tx: Transaction, me: Id, partner: Id)
  {
    tx.isShared && tx.settlementId.None? && (tx.userId == me || tx.userId == partner)
  }

  function UnsettledShared(txs: seq<Transaction>, me: Id, partner: Id): seq<Transaction>
  {
    Filter(txs, (tx: Transaction) => IsUnsettledShared(tx, me, partner))
  }

  /**
   * Connecting the unsettled expenses by id reaches exactly the rows that
   * satisfy the settle-up query, because transaction ids are unique.
   */
  lemma ConnectReachesExactlyUnsettled(txs: seq<Transaction>, me: Id, partner: Id)
    requires Distinct(TransactionIds(txs))
    ensures forall j :: 0 <= j < |txs| ==>
              (txs[j].id in TransactionIds(UnsettledShared(txs, me, partner)) <==> IsUnsettledShared(txs[j], me, partner))
  {
    var unsettled := UnsettledShared(txs, me, partner);
    forall j | 0 <= j < |txs|
      ensures txs[j].id in TransactionIds(unsettled) <==> IsUnsettledShared(txs[j], me, partner)
    {
      ReachedById(txs, unsettled, me, partner, j);
    }
  }

  /** One row of the table, against any selection that holds exactly its unsettled shared rows. */
  lemma ReachedById(txs: seq<Transaction>, unsettled: seq<Transaction>, me: Id, partner: Id, j: int)
    requires Distinct(TransactionIds(txs)) && 0 <= j < |txs|
    requires forall x :: x in unsettled <==> x in txs && IsUnsettledShared(x, me, partner)
    ensures txs[j].id in TransactionIds(unsettled) <==> IsUnsettledShared(txs[j], me, partner)
  {
    var ids := TransactionIds(unsettled);
    if IsUnsettledShared(txs[j], me, partner) {
      assert txs[j] in unsettled;
      var k :| 0 <= k < |unsettled| && unsettled[k] == txs[j];
      assert ids[k] == txs[j].id;
    }
    if txs[j].id in ids {
      var k :| 0 <= k < |ids| && ids[k] == txs[j].id;
      assert unsettled[k] in txs;
      var m :| 0 <= m < |txs| && txs[m] == unsettled[k];
      assert TransactionIds(txs)[m] == TransactionIds(txs)[j];
    }
  }

  /** The result of a successful settle-up. */
  datatype SettleReceipt = SettleReceipt(settlement: Settlement, clearedTransactions: nat, totalShared: real)

  /** POST: settle up with the active partner. */
  method Post(db: Db, session: Option<Id>, now: Instant) returns (r: Result<SettleReceipt>)
    requires db.Valid()
    modifies db
    ensures db.Valid()
    ensures db.users == old(db.users) && db.links == old(db.links) && db.categories == old(db.categories)
    ensures !Truthy(session) ==> r == Err(Unauthorized)
    ensures Truthy(session) && FindAcceptedLink(old(db.links), session.value).None? ==> r == Err(NoActivePartner)
    ensures Truthy(session) && FindAcceptedLink(old(db.links), session.value).Some? ==>
              var me := session.value;
              var partner := PartnerOf(FindAcceptedLink(old(db.links), me).value, me);
              && (r == Err(NothingToSettle) <==> UnsettledShared(old(db.transactions), me, partner) == [])
              && (UnsettledShared(old(db.transactions), me, partner) != [] ==> r.Ok?)
    ensures r.Err? ==> db.transactions == old(db.transactions) && db.settlements == old(db.settlements)
    ensures r.Ok? ==>
              && Truthy(session) && FindAcceptedLink(old(db.links), session.value).Some?
              && var me := session.value;
                 var link := FindAcceptedLink(old(db.links), me).value;
                 var partner := PartnerOf(link, me);
                 var unsettled := UnsettledShared(old(db.transactions), me, partner);
                 var s := r.value.settlement;
                 && unsettled != []
                 && s == Settlement(s.id, link.id, me, Balance(Totals(unsettled, me, partner)), now)
                 && s.id !in SettlementIds(old(db.settlements))
                 && db.settlements == old(db.settlements) + [s]
                 && r.value.clearedTransactions == |unsettled|
                 && r.value.totalShared == TotalShared(Totals(unsettled, me, partner))
                 && db.transactions == Settled(old(db.transactions), me, partner, s.id)
                 && UnsettledShared(db.transactions, me, partner) == []
  {
    if !Truthy(session) {
      return Err(Unauthorized);
    }
    var me := session.value;
    var partnerLink := FindAcceptedLink(db.links, me);
    if partnerLink.None? {
      return Err(NoActivePartner);
    }
    var link := partnerLink.value;
    var partnerId := if link.user1Id == me then link.user2Id else link.user1Id;
    assert partnerId == PartnerOf(link, me);
    var unsettled := UnsettledShared(db.transactions, me, partnerId);
    if |unsettled| == 0 {
      return Err(NothingToSettle);
    }
    var balance, totalShared := CalculateSplit(unsettled, me, partnerId);

    var settlement := Settlement(FreshId(SettlementIds(db.settlements)), link.id, me, balance, now);
    var ids := TransactionIds(unsettled);
    var txs := db.transactions;
    var connected := Connect(txs, ids, settlement.id);
    ConnectIsSettled(txs, me, partnerId, connected, settlement.id);
    SettleKeepsValid(txs, connected, db.categories, db.settlements, db.links, settlement, link);
    NothingLeftToSettle(txs, me, partnerId, settlement.id);
    Commit(db, settlement, connected);
    r := Ok(SettleReceipt(settlement, |unsettled|, totalShared));
  }

  /** The settle-up's database transaction: create the settlement, then attach the rows. */
  method Commit(db: Db, settlement: Settlement, connected: seq<Transaction>)
    requires db.Valid()
    requires TransactionsValid(connected, db.categories, db.settlements + [settlement])
    requires SettlementsValid(db.settlements + [settlement], db.links)
    modifies db
    ensures db.Valid()
    ensures db.users == old(db.users) && db.links == old(db.links) && db.categories == old(db.categories)
    ensures db.settlements == old(db.settlements) + [settlement] && db.transactions == connected
  {
    db.settlements := db.settlements + [settlement];
    db.transactions := connected;
  }

  /** `connect`: every row whose id is listed gets `settlementId` set to `sid`. */
  method Connect(txs: seq<Transaction>, ids: seq<Id>, sid: Id) returns (connected: seq<Transaction>)
    ensures |connected| == |txs|
    ensures forall j :: 0 <= j < |txs| ==>
              connected[j] == if txs[j].id in ids then txs[j].(settlementId := Some(sid)) else txs[j]
  {
    connected := [];
    var i := 0;
    while i < |txs|
      invariant 0 <= i <= |txs| && |connected| == i
      invariant forall j :: 0 <= j < i ==>
                  connected[j] == if txs[j].id in ids then txs[j].(settlementId := Some(sid)) else txs[j]
    {
      if txs[i].id in ids {
        connected := connected + [txs[i].(settlementId := Some(sid))];
      } else {
        connected := connected + [txs[i]];
      }
      i := i + 1;
    }
  }

  /** The transactions table after a settle-up: each unsettled shared row now points at `sid`. */
  function Settled(txs: seq<Transaction>, me: Id, partner: Id, sid: Id): (r: seq<Transaction>)
    ensures |r| == |txs|
    ensures forall i :: 0 <= i < |txs| ==>
              r[i] == if IsUnsettledShared(txs[i], me, partner) then txs[i].(settlementId := Some(sid)) else txs[i]
  {
    seq(|txs|, i requires 0 <= i < |txs| =>
      if IsUnsettledShared(txs[i], me, partner) then txs[i].(settlementId := Some(sid)) else txs[i])
  }

  /** With unique ids, connecting by the ids of the unsettled rows is exactly `Settled`. */
  lemma ConnectIsSettled(txs: seq<Transaction>, me: Id, partner: Id, connected: seq<Transaction>, sid: Id)
    requires Distinct(TransactionIds(txs))
    requires |connected| == |txs|
    requires forall j :: 0 <= j < |txs| ==>
               connected[j] == if txs[j].id in TransactionIds(UnsettledShared(txs, me, partner))
                               then txs[j].(settlementId := Some(sid)) else txs[j]
    ensures connected == Settled(txs, me, partner, sid)
  {
    ConnectReachesExactlyUnsettled(txs, me, partner);
  }

  /** After a settle-up, no row satisfies the settle-up query any more. */
  lemma NothingLeftToSettle(txs: seq<Transaction>, me: Id, partner: Id, sid: Id)
    ensures UnsettledShared(Settled(txs, me, partner, sid), me, partner) == []
  {
    var connected := Settled(txs, me, partner, sid);
    forall x | x in connected ensures !IsUnsettledShared(x, me, partner) {
      var i :| 0 <= i < |connected| && connected[i] == x;
    }
  }

  lemma SettleKeepsValid(txs: seq<Transaction>, connected: seq<Transaction>, categories: seq<Category>,
                         settlements: seq<Settlement>, links: seq<PartnerLink>, s: Settlement, link: PartnerLink)
    requires TransactionsValid(txs, categories, settlements) && SettlementsValid(settlements, links)
    requires link in links && s.partnerLinkId == link.id && s.id !in SettlementIds(settlements)
    requires |connected| == |txs|
    requires forall i :: 0 <= i < |txs| ==>
               connected[i] == txs[i] || connected[i] == txs[i].(settlementId := Some(s.id))
    ensures TransactionsValid(connected, categories, settlements + [s])
    ensures SettlementsValid(settlements + [s], links)
  {
    var ids := SettlementIds(settlements + [s]);
    assert ids == SettlementIds(settlements) + [s.id];
    assert TransactionIds(connected) == TransactionIds(txs);
    assert link.id in LinkIds(links) by {
      var k :| 0 <= k < |links| && links[k] == link;
      assert LinkIds(links)[k] == link.id;
    }
  }
}
