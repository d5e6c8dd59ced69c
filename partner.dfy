/**
 * The partner route: the caller's partner status (GET) and sending a partner
 * invite (POST), which runs a fixed chain of guards over the link table and
 * then inserts one pending link.
 */
module PartnerRoute {
  import opened Wrappers
  import opened Schema
  import opened Store
  import opened Sequences
  import opened Text

  // ----- GET

  /** The `where` of the pending-invites query: a pending link with `u` on either side. */
  predicate IsPendingFor(link: PartnerLink, u: Id)
  {
    link.status == Pending && (link.user1Id == u || link.user2Id == u)
  }

  /** The response body of GET. */
  datatype PartnerStatus = PartnerStatus(
    activePartner: Option<PartnerLink>,
    pendingInvites: seq<PartnerLink>,
    isCoupleMode: bool)

  /** The status of `me`: the first accepted link, every pending link, and whether a couple is formed. */
  function Status(links: seq<PartnerLink>, me: Id): (s: PartnerStatus)
    ensures s.isCoupleMode <==> HasActivePartner(links, me)
    ensures s.isCoupleMode <==> s.activePartner.Some?
    ensures s.activePartner.Some? ==> s.activePartner.value in links && IsAcceptedFor(s.activePartner.value, me)
    ensures s.activePartner == FindAcceptedLink(links, me)
    ensures forall l :: l in s.pendingInvites <==> l in links && IsPendingFor(l, me)
    ensures forall l :: multiset(s.pendingInvites)[l] == if IsPendingFor(l, me) then multiset(links)[l] else 0
    ensures forall l :: l in s.pendingInvites ==> l.user1Id == me || l.user2Id == me
  {
    var activePartner := FindAcceptedLink(links, me);
    PartnerStatus(activePartner, Filter(links, (l: PartnerLink) => IsPendingFor(l, me)), activePartner.Some?)
  }

  /** GET: the caller's partner status. */
  method Get(db: Db, session: Option<Id>) returns (r: Result<PartnerStatus>)
    ensures !Truthy(session) ==> r == Err(Unauthorized)
    ensures Truthy(session) ==> r == Ok(Status(db.links, session.value))
  {
    if !Truthy(session) {
      return Err(Unauthorized);
    }
    r := Ok(Status(db.links, session.value));
  }

  // ----- POST

  const EmailRequired: Failure := Failure(400, "Partner email is required")
  const AlreadyActive: Failure := Failure(400, "You already have an active partner")
  const EmailNotFound: Failure := Failure(404, "User with this email not found")
  const InviteSelf: Failure := Failure(400, "You cannot invite yourself")
  const InviteeActive: Failure := Failure(400, "This user already has an active partner")
  const InviteSent: Failure := Failure(400, "Invite already sent")

  /** A pending link between `a` and `b`, in either direction. */
  predicate PendingBetween(links: seq<PartnerLink>, a: Id, b: Id)
  {
    exists i :: 0 <= i < |links| && links[i].status == Pending &&
      ((links[i].user1Id == a && links[i].user2Id == b) || (links[i].user1Id == b && links[i].user2Id == a))
  }

  /** No two pending links join the same unordered pair of users. */
  predicate PendingPairsUnique(links: seq<PartnerLink>)
  {
    forall i, j :: 0 <= i < j < |links| && links[i].status == Pending && links[j].status == Pending ==>
      !((links[i].user1Id == links[j].user1Id && links[i].user2Id == links[j].user2Id) ||
        (links[i].user1Id == links[j].user2Id && links[i].user2Id == links[j].user1Id))
  }

  /** Appending a pending link for a pair that has none keeps pending pairs unique. */
  lemma InviteKeepsPendingPairsUnique(links: seq<PartnerLink>, link: PartnerLink)
    requires PendingPairsUnique(links)
    requires !PendingBetween(links, link.user1Id, link.user2Id)
    ensures PendingPairsUnique(links + [link])
  {
    var all := links + [link];
    forall i, j | 0 <= i < j < |all| && all[i].status == Pending && all[j].status == Pending
      ensures !((all[i].user1Id == all[j].user1Id && all[i].user2Id == all[j].user2Id) ||
                (all[i].user1Id == all[j].user2Id && all[i].user2Id == all[j].user1Id))
    {
      if j == |links| {
        assert all[i] == links[i] && all[j] == link;
      }
    }
  }

  /** The link an accepted invite request inserts. */
  function Invite(id: Id, me: Id, invitee: Id): PartnerLink
  {
    PartnerLink(id, me, invitee, me, Pending)
  }

  /** POST: invite the user with `partnerEmail`. */
  method Post(db: Db, session: Option<Id>, partnerEmail: Option<string>) returns (r: Result<PartnerLink>)
    requires db.Valid()
    modifies db
    ensures db.Valid()
    ensures db.users == old(db.users) && db.categories == old(db.categories)
    ensures db.transactions == old(db.transactions) && db.settlements == old(db.settlements)
    ensures r.Err? ==> db.links == old(db.links)
    ensures !Truthy(session) ==> r == Err(Unauthorized)
    ensures Truthy(session) && !Truthy(partnerEmail) ==> r == Err(EmailRequired)
    ensures Truthy(session) && Truthy(partnerEmail) && HasActivePartner(old(db.links), session.value) ==>
              r == Err(AlreadyActive)
    ensures Truthy(session) && Truthy(partnerEmail) && !HasActivePartner(old(db.links), session.value) ==>
              var me := session.value;
              var invitee := FindUserByEmail(old(db.users), partnerEmail.value);
              && (invitee.None? ==> r == Err(EmailNotFound))
              && (invitee.Some? && invitee.value.id == me ==> r == Err(InviteSelf))
              && (invitee.Some? && invitee.value.id != me && HasActivePartner(old(db.links), invitee.value.id) ==>
                    r == Err(InviteeActive))
              && (invitee.Some? && invitee.value.id != me && !HasActivePartner(old(db.links), invitee.value.id) ==>
                    && (PendingBetween(old(db.links), me, invitee.value.id) ==> r == Err(InviteSent))
                    && (!PendingBetween(old(db.links), me, invitee.value.id) ==>
                          if me in UserIds(old(db.users)) then r.Ok? else r == Err(InternalError)))
    ensures r.Ok? ==>
              && Truthy(session) && Truthy(partnerEmail)
              && var me := session.value;
                 var invitee := FindUserByEmail(old(db.users), partnerEmail.value);
                 && invitee.Some? && invitee.value.id != me
                 && !HasActivePartner(old(db.links), me) && !HasActivePartner(old(db.links), invitee.value.id)
                 && !PendingBetween(old(db.links), me, invitee.value.id)
                 && r.value == Invite(r.value.id, me, invitee.value.id)
                 && r.value.id !in LinkIds(old(db.links))
                 && db.links == old(db.links) + [r.value]
    ensures r.Ok? && PendingPairsUnique(old(db.links)) ==> PendingPairsUnique(db.links)
  {
    if !Truthy(session) {
      return Err(Unauthorized);
    }
    var me := session.value;
    if !Truthy(partnerEmail) {
      return Err(EmailRequired);
    }
    var existingActive := FindAcceptedLink(db.links, me);
    if existingActive.Some? {
      return Err(AlreadyActive);
    }
    var partnerUser := FindUserByEmail(db.users, partnerEmail.value);
    if partnerUser.None? {
      return Err(EmailNotFound);
    }
    var invitee := partnerUser.value;
    if invitee.id == me {
      return Err(InviteSelf);
    }
    var partnerHasActive := FindAcceptedLink(db.links, invitee.id);
    if partnerHasActive.Some? {
      return Err(InviteeActive);
    }
    var existingInvite := FindPendingBetween(db.links, me, invitee.id);
    if existingInvite.Some? {
      return Err(InviteSent);
    }
    if me !in UserIds(db.users) {
      // The foreign key on `user1Id` rejects the insert.
      return Err(InternalError);
    }
    var link := Invite(FreshId(LinkIds(db.links)), me, invitee.id);
    InviteKeepsValid(db.links, db.users, db.settlements, link, invitee);
    if PendingPairsUnique(db.links) {
      InviteKeepsPendingPairsUnique(db.links, link);
    }
    AddLink(db, link);
    r := Ok(link);
  }

  /** The `findFirst` of an existing invite: a pending link between `a` and `b` in either direction. */
  function FindPendingBetween(links: seq<PartnerLink>, a: Id, b: Id): (r: Option<PartnerLink>)
    ensures r.None? <==> !PendingBetween(links, a, b)
    ensures r.Some? ==> r.value in links && IsPendingLinkOf(r.value, a, b)
    ensures r.Some? ==> exists i :: 0 <= i < |links| && links[i] == r.value && NonePendingBefore(links, a, b, i)
  {
    if links == [] then None
    else if IsPendingLinkOf(links[0], a, b) then
      assert NonePendingBefore(links, a, b, 0);
      Some(links[0])
    else
      var r := FindPendingBetween(links[1..], a, b);
      assert forall i :: 1 <= i < |links| ==> links[i] == links[1..][i - 1];
      assert PendingBetween(links[1..], a, b) ==> PendingBetween(links, a, b) by {
        if PendingBetween(links[1..], a, b) {
          var i :| 0 <= i < |links[1..]| && links[1..][i].status == Pending &&
            ((links[1..][i].user1Id == a && links[1..][i].user2Id == b) ||
             (links[1..][i].user1Id == b && links[1..][i].user2Id == a));
          assert links[i + 1] == links[1..][i];
        }
      }
      if r.Some? then
        var i :| 0 <= i < |links[1..]| && links[1..][i] == r.value && NonePendingBefore(links[1..], a, b, i);
        assert NonePendingBefore(links, a, b, i + 1);
        r
      else r
  }

  /** A pending link that joins `a` and `b`, in either direction. */
  predicate IsPendingLinkOf(link: PartnerLink, a: Id, b: Id)
  {
    link.status == Pending && ((link.user1Id == a && link.user2Id == b) || (link.user1Id == b && link.user2Id == a))
  }

  /** No link before position `i` is a pending link of `a` and `b`. */
  predicate NonePendingBefore(links: seq<PartnerLink>, a: Id, b: Id, i: int)
    requires 0 <= i <= |links|
  {
    forall j :: 0 <= j < i ==> !IsPendingLinkOf(links[j], a, b)
  }

  lemma InviteKeepsValid(links: seq<PartnerLink>, users: seq<User>, settlements: seq<Settlement>,
                         link: PartnerLink, invitee: User)
    requires LinksValid(links, users) && SettlementsValid(settlements, links)
    requires link.id !in LinkIds(links)
    requires invitee in users && link.user2Id == invitee.id
    requires link.user1Id in UserIds(users) && link.invitedBy == link.user1Id
    ensures LinksValid(links + [link], users) && SettlementsValid(settlements, links + [link])
  {
    assert LinkIds(links + [link]) == LinkIds(links) + [link.id];
    var k :| 0 <= k < |users| && users[k] == invitee;
    assert UserIds(users)[k] == invitee.id;
  }

  /** The `create` of the link. */
  method AddLink(db: Db, link: PartnerLink)
    requires db.Valid()
    requires LinksValid(db.links + [link], db.users) && SettlementsValid(db.settlements, db.links + [link])
    modifies db
    ensures db.Valid()
    ensures db.users == old(db.users) && db.categories == old(db.categories)
    ensures db.transactions == old(db.transactions) && db.settlements == old(db.settlements)
    ensures db.links == old(db.links) + [link]
  {
    db.links := db.links + [link];
  }
}
