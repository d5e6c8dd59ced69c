/**
 * The relational store the routes query, as in-memory tables: one `Db` object
 * whose fields are the five tables in insertion order. `where` clauses of the
 * routes become the predicates and lookups below.
 */
module Store {
  import opened Wrappers
  import opened Schema

  /** The `where` of every active-partner lookup: an accepted link with `u` on either side. */
  predicate IsAcceptedFor(link: PartnerLink, u: Id)
  {
    link.status == Accepted && (link.user1Id == u || link.user2Id == u)
  }

  /** `findFirst` over the links with `IsAcceptedFor`. */
  function FindAcceptedLink(links: seq<PartnerLink>, u: Id): (r: Option<PartnerLink>)
    ensures r.None? <==> forall i :: 0 <= i < |links| ==> !IsAcceptedFor(links[i], u)
    ensures r.Some? ==> r.value in links && IsAcceptedFor(r.value, u)
    ensures r.Some? ==> exists i :: 0 <= i < |links| && links[i] == r.value && NoneAcceptedBefore(links, u, i)
  {
    if links == [] then None
    else if IsAcceptedFor(links[0], u) then
      assert NoneAcceptedBefore(links, u, 0);
      Some(links[0])
    else
      var r := FindAcceptedLink(links[1..], u);
      assert forall i :: 1 <= i < |links| ==> links[i] == links[1..][i - 1];
      if r.Some? then
        var i :| 0 <= i < |links[1..]| && links[1..][i] == r.value && NoneAcceptedBefore(links[1..], u, i);
        assert NoneAcceptedBefore(links, u, i + 1);
        r
      else r
  }

  /** No link before position `i` is accepted for `u`. */
  predicate NoneAcceptedBefore(links: seq<PartnerLink>, u: Id, i: int)
    requires 0 <= i <= |links|
  {
    forall j :: 0 <= j < i ==> !IsAcceptedFor(links[j], u)
  }

  /** Whether `u` is in an accepted link. */
  predicate HasActivePartner(links: seq<PartnerLink>, u: Id)
  {
    exists i :: 0 <= i < |links| && IsAcceptedFor(links[i], u)
  }

  /** The member of `link` other than `u`: `user2Id` if `u` is `user1Id`, else `user1Id`. */
  function PartnerOf(link: PartnerLink, u: Id): (p: Id)
    ensures (link.user1Id == u || link.user2Id == u) ==> p == link.user1Id || p == link.user2Id
    ensures link.user1Id != link.user2Id && (link.user1Id == u || link.user2Id == u) ==> p != u
  {
    if link.user1Id == u then link.user2Id else link.user1Id
  }

  /** `findUnique` of a user by email. */
  function FindUserByEmail(users: seq<User>, email: string): (r: Option<User>)
    ensures r.None? <==> forall i :: 0 <= i < |users| ==> users[i].email != email
    ensures r.Some? ==> r.value in users && r.value.email == email
  {
    if users == [] then None
    else if users[0].email == email then Some(users[0])
    else
      var r := FindUserByEmail(users[1..], email);
      assert forall i :: 1 <= i < |users| ==> users[i] == users[1..][i - 1];
      r
  }

  /** `findUnique` of a user by id. */
  function FindUser(users: seq<User>, id: Id): (r: Option<User>)
    ensures r.None? <==> id !in UserIds(users)
    ensures r.Some? ==> r.value in users && r.value.id == id
  {
    if users == [] then None
    else if users[0].id == id then Some(users[0])
    else
      var r := FindUser(users[1..], id);
      assert UserIds(users) == [users[0].id] + UserIds(users[1..]);
      r
  }

  /** `findUnique` of a category by id. */
  function FindCategory(categories: seq<Category>, id: Id): (r: Option<Category>)
    ensures r.None? <==> id !in CategoryIds(categories)
    ensures r.Some? ==> r.value in categories && r.value.id == id
  {
    if categories == [] then None
    else if categories[0].id == id then Some(categories[0])
    else
      var r := FindCategory(categories[1..], id);
      assert CategoryIds(categories) == [categories[0].id] + CategoryIds(categories[1..]);
      r
  }

  // ----- Integrity of the tables: unique ids and emails, foreign keys, unique category names per user

  ghost predicate UsersValid(users: seq<User>)
  {
    && Distinct(UserIds(users))
    && (forall i, j :: 0 <= i < j < |users| ==> users[i].email != users[j].email)
    && (forall i :: 0 <= i < |users| ==> WellFormedId(users[i].id))
  }

  ghost predicate LinksValid(links: seq<PartnerLink>, users: seq<User>)
  {
    && Distinct(LinkIds(links))
    && (forall i :: 0 <= i < |links| ==>
          links[i].user1Id in UserIds(users) && links[i].user2Id in UserIds(users) && links[i].invitedBy in UserIds(users))
  }

  /** Names of one user's categories are pairwise distinct. */
  ghost predicate UniqueNamesPerUser(categories: seq<Category>)
  {
    forall i, j :: 0 <= i < j < |categories| && categories[i].userId == categories[j].userId ==>
      categories[i].name != categories[j].name
  }

  ghost predicate CategoriesValid(categories: seq<Category>, users: seq<User>)
  {
    && Distinct(CategoryIds(categories))
    && (forall i :: 0 <= i < |categories| ==> categories[i].userId in UserIds(users))
    && UniqueNamesPerUser(categories)
  }

  ghost predicate TransactionsValid(txs: seq<Transaction>, categories: seq<Category>, settlements: seq<Settlement>)
  {
    && Distinct(TransactionIds(txs))
    && (forall i :: 0 <= i < |txs| ==> txs[i].categoryId in CategoryIds(categories))
    && (forall i :: 0 <= i < |txs| && txs[i].settlementId.Some? ==> txs[i].settlementId.value in SettlementIds(settlements))
  }

  ghost predicate SettlementsValid(settlements: seq<Settlement>, links: seq<PartnerLink>)
  {
    && Distinct(SettlementIds(settlements))
    && (forall i :: 0 <= i < |settlements| ==> settlements[i].partnerLinkId in LinkIds(links))
  }

  /** The database: its tables, each in insertion order. */
  class Db {
    var users: seq<User>
    var links: seq<PartnerLink>
    var categories: seq<Category>
    var transactions: seq<Transaction>
    var settlements: seq<Settlement>

    ghost predicate Valid()
      reads this
    {
      && UsersValid(users)
      && LinksValid(links, users)
      && CategoriesValid(categories, users)
      && TransactionsValid(transactions, categories, settlements)
      && SettlementsValid(settlements, links)
    }

    /** An empty database. */
    constructor ()
      ensures Valid()
      ensures users == [] && links == [] && categories == [] && transactions == [] && settlements == []
    {
      users, links, categories, transactions, settlements := [], [], [], [], [];
    }
  }
}
