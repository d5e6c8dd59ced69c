/**
 * The records the routes read and write, as the relational store holds them,
 * and the store's minting of fresh record ids.
 */
module Schema {
  import opened Wrappers

  /** A record id (a cuid in the store). */
  type Id = string

  /** A point in time, in milliseconds since the Unix epoch. */
  type Instant = int

  datatype User = User(id: Id, email: string, password: string, name: Option<string>)

  datatype LinkStatus = Pending | Accepted | Rejected

  /** A partner link; `user1Id` is the inviter and `user2Id` the invitee. */
  datatype PartnerLink = PartnerLink(id: Id, user1Id: Id, user2Id: Id, invitedBy: Id, status: LinkStatus)

  datatype Category = Category(id: Id, name: string, userId: Id)

  /**
   * An expense logged by `userId`. When shared, `paidBy` names the payer: a
   * user id, "split" for a 50/50 expense, or the legacy "partner" marker.
   * `settlementId` is set once a settlement has cleared it.
   */
  datatype Transaction = Transaction(
    id: Id, amount: real, description: string, date: Instant, categoryId: Id,
    userId: Id, isShared: bool, paidBy: Option<string>, settlementId: Option<Id>)

  datatype Settlement = Settlement(id: Id, partnerLinkId: Id, settledById: Id, balanceSnapshot: real, createdAt: Instant)

  /** The `paidBy` value of an expense split 50/50. */
  const SplitMarker: string := "split"

  /** The legacy `paidBy` value meaning "the logger's partner paid". */
  const LegacyPartnerMarker: string := "partner"

  /** An id the store can mint: never empty and never one of the two `paidBy` markers. */
  predicate WellFormedId(id: Id)
  {
    id != "" && id != SplitMarker && id != LegacyPartnerMarker
  }

  predicate Distinct(ids: seq<Id>)
  {
    forall i, j :: 0 <= i < j < |ids| ==> ids[i] != ids[j]
  }

  function LongestLength(ids: seq<Id>): (n: nat)
    ensures forall i :: 0 <= i < |ids| ==> |ids[i]| <= n
  {
    if ids == [] then 0
    else
      var m := LongestLength(ids[1..]);
      assert forall i :: 1 <= i < |ids| ==> ids[i] == ids[1..][i - 1];
      if |ids[0]| > m then |ids[0]| else m
  }

  /** The id the store gives a new record: one that no record in `used` has. */
  function FreshId(used: seq<Id>): (r: Id)
    ensures forall i :: 0 <= i < |used| ==> used[i] != r
    ensures WellFormedId(r)
  {
    var r := seq(LongestLength(used) + 1, _ => 'c');
    assert r[0] == 'c';
    r
  }

  function UserIds(users: seq<User>): (ids: seq<Id>)
    ensures |ids| == |users| && forall i :: 0 <= i < |users| ==> ids[i] == users[i].id
  {
    seq(|users|, i requires 0 <= i < |users| => users[i].id)
  }

  function LinkIds(links: seq<PartnerLink>): (ids: seq<Id>)
    ensures |ids| == |links| && forall i :: 0 <= i < |links| ==> ids[i] == links[i].id
  {
    seq(|links|, i requires 0 <= i < |links| => links[i].id)
  }

  function CategoryIds(categories: seq<Category>): (ids: seq<Id>)
    ensures |ids| == |categories| && forall i :: 0 <= i < |categories| ==> ids[i] == categories[i].id
  {
    seq(|categories|, i requires 0 <= i < |categories| => categories[i].id)
  }

  function TransactionIds(txs: seq<Transaction>): (ids: seq<Id>)
    ensures |ids| == |txs| && forall i :: 0 <= i < |txs| ==> ids[i] == txs[i].id
  {
    seq(|txs|, i requires 0 <= i < |txs| => txs[i].id)
  }

  function SettlementIds(settlements: seq<Settlement>): (ids: seq<Id>)
    ensures |ids| == |settlements| && forall i :: 0 <= i < |settlements| ==> ids[i] == settlements[i].id
  {
    seq(|settlements|, i requires 0 <= i < |settlements| => settlements[i].id)
  }
}
