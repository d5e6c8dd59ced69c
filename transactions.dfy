/**
 * The transactions route: listing with a view mode and optional category and
 * date filters (GET), and logging a new expense (POST), which normalises who
 * paid for a shared expense.
 */
module TransactionsRoute {
  import opened Wrappers
  import opened Schema
  import opened Store
  import opened Sequences
  import opened Text

  // ----- GET

  /**
   * An explicit `viewMode` wins; otherwise `isShared` "true" means the shared
   * view and "false" the personal one; anything else is every visible row.
   */
  function DerivedViewMode(viewMode: Option<string>, isShared: Option<string>): (m: string)
    ensures Truthy(viewMode) ==> m == viewMode.value
    ensures !Truthy(viewMode) ==> (m == "shared" <==> isShared == Some("true"))
    ensures !Truthy(viewMode) ==> (m == "personal" <==> isShared == Some("false"))
    ensures m != ""
  {
    if Truthy(viewMode) then viewMode.value
    else if isShared == Some("true") then "shared"
    else if isShared == Some("false") then "personal"
    else "all"
  }

  /** A `where` input of the ORM over the transaction table. */
  datatype Where =
    | UserIs(userId: Id)
    | SharedIs(isShared: bool)
    | CategoryIs(categoryId: Id)
    | DateWithin(gte: Option<Instant>, lte: Option<Instant>)
    | And(all: seq<Where>)
    | Or(any: seq<Where>)

  /** Whether the row `tx` satisfies `w`. */
  predicate Admits(w: Where, tx: Transaction)
  {
    match w
    case UserIs(u) => tx.userId == u
    case SharedIs(b) => tx.isShared == b
    case CategoryIs(c) => tx.categoryId == c
    case DateWithin(gte, lte) => (gte.Some? ==> gte.value <= tx.date) && (lte.Some? ==> tx.date <= lte.value)
    case And(ws) => forall i :: 0 <= i < |ws| ==> Admits(ws[i], tx)
    case Or(ws) => exists i :: 0 <= i < |ws| && Admits(ws[i], tx)
  }

  /**
   * Which rows a view shows: the caller's own non-shared rows in the personal
   * view; the couple's shared rows in the shared view; otherwise all of the
   * caller's rows and the partner's shared ones.
   */
  predicate Visible(mode: string, me: Id, partnerId: Option<Id>, tx: Transaction)
  {
    var partner := Truthy(partnerId) && tx.userId == partnerId.value;
    if mode == "personal" then tx.userId == me && !tx.isShared
    else if mode == "shared" then tx.isShared && (tx.userId == me || partner)
    else tx.userId == me || (partner && tx.isShared)
  }

  /** The `visibilityFilter` of the route, reassigned by view mode and partner. */
  method VisibilityFilter(mode: string, me: Id, partnerId: Option<Id>) returns (w: Where)
    ensures forall tx :: Admits(w, tx) <==> Visible(mode, me, partnerId, tx)
  {
    w := UserIs(me);
    if mode == "personal" {
      w := And([UserIs(me), SharedIs(false)]);
    } else if mode == "shared" {
      if Truthy(partnerId) {
        w := And([SharedIs(true), Or([UserIs(me), UserIs(partnerId.value)])]);
      } else {
        w := And([UserIs(me), SharedIs(true)]);
      }
    } else if Truthy(partnerId) {
      w := Or([UserIs(me), And([UserIs(partnerId.value), SharedIs(true)])]);
    }
    forall tx ensures Admits(w, tx) <==> Visible(mode, me, partnerId, tx) {
      if mode == "personal" {
        AndPair(UserIs(me), SharedIs(false), tx);
      } else if mode == "shared" && Truthy(partnerId) {
        OrPair(UserIs(me), UserIs(partnerId.value), tx);
        AndPair(SharedIs(true), Or([UserIs(me), UserIs(partnerId.value)]), tx);
      } else if mode == "shared" {
        AndPair(UserIs(me), SharedIs(true), tx);
      } else if Truthy(partnerId) {
        AndPair(UserIs(partnerId.value), SharedIs(true), tx);
        OrPair(UserIs(me), And([UserIs(partnerId.value), SharedIs(true)]), tx);
      }
    }
  }

  lemma AndPair(a: Where, b: Where, tx: Transaction)
    ensures Admits(And([a, b]), tx) <==> Admits(a, tx) && Admits(b, tx)
  {
    var ws := [a, b];
    assert ws[0] == a && ws[1] == b;
  }

  lemma OrPair(a: Where, b: Where, tx: Transaction)
    ensures Admits(Or([a, b]), tx) <==> Admits(a, tx) || Admits(b, tx)
  {
    var ws := [a, b];
    assert ws[0] == a && ws[1] == b;
  }

  /** Every condition of `ws` admits `tx`. */
  predicate AdmitsAll(ws: seq<Where>, tx: Transaction)
  {
    forall i :: 0 <= i < |ws| ==> Admits(ws[i], tx)
  }

  lemma AdmitsAllPush(ws: seq<Where>, w: Where, tx: Transaction)
    ensures AdmitsAll(ws + [w], tx) <==> AdmitsAll(ws, tx) && Admits(w, tx)
  {
    assert forall i :: 0 <= i < |ws| ==> (ws + [w])[i] == ws[i];
    assert (ws + [w])[|ws|] == w;
  }

  /** Every view mode other than "personal" and "shared" shows the same rows as "all". */
  lemma OtherModesShowAll(mode: string, me: Id, partnerId: Option<Id>, tx: Transaction)
    requires mode != "personal" && mode != "shared"
    ensures Visible(mode, me, partnerId, tx) == Visible("all", me, partnerId, tx)
  {
  }

  /**
   * A partner's row is visible only if it is shared; the personal view shows
   * only the caller's non-shared rows; without a partner, only the caller's
   * rows are ever visible.
   */
  lemma VisibilityRules(mode: string, me: Id, partnerId: Option<Id>, tx: Transaction)
    ensures Visible(mode, me, partnerId, tx) && tx.userId != me ==> tx.isShared && Truthy(partnerId) && tx.userId == partnerId.value
    ensures mode == "personal" ==> (Visible(mode, me, partnerId, tx) <==> tx.userId == me && !tx.isShared)
    ensures !Truthy(partnerId) && Visible(mode, me, partnerId, tx) ==> tx.userId == me
    ensures mode != "personal" && tx.userId == me && tx.isShared ==> Visible(mode, me, partnerId, tx)
  {
  }

  /** The query parameters the listing reads; dates are already parsed. */
  datatype Query = Query(
    categoryId: Option<string>,
    isShared: Option<string>,
    startDate: Option<string>,
    endDate: Option<string>,
    viewMode: Option<string>)

  /** Whether `tx` passes the conjunction of the visibility, category and date conditions. */
  predicate Matches(q: Query, me: Id, partnerId: Option<Id>, parseDate: string -> Instant, tx: Transaction)
  {
    && Visible(DerivedViewMode(q.viewMode, q.isShared), me, partnerId, tx)
    && (Truthy(q.categoryId) ==> tx.categoryId == q.categoryId.value)
    && (Truthy(q.startDate) ==> parseDate(q.startDate.value) <= tx.date)
    && (Truthy(q.endDate) ==> tx.date <= parseDate(q.endDate.value))
  }

  /** The `where` of the listing: the visibility filter, with the other filters pushed after it. */
  method BuildWhere(q: Query, me: Id, partnerId: Option<Id>, parseDate: string -> Instant) returns (w: Where)
    ensures forall tx :: Admits(w, tx) <==> Matches(q, me, partnerId, parseDate, tx)
  {
    var visibility := VisibilityFilter(DerivedViewMode(q.viewMode, q.isShared), me, partnerId);
    var filters := [visibility];
    assert filters[0] == visibility;
    if Truthy(q.categoryId) {
      forall tx: Transaction ensures AdmitsAll(filters + [CategoryIs(q.categoryId.value)], tx) <==>
                                     AdmitsAll(filters, tx) && tx.categoryId == q.categoryId.value {
        AdmitsAllPush(filters, CategoryIs(q.categoryId.value), tx);
      }
      filters := filters + [CategoryIs(q.categoryId.value)];
    }
    if Truthy(q.startDate) || Truthy(q.endDate) {
      var gte := if Truthy(q.startDate) then Some(parseDate(q.startDate.value)) else None;
      var lte := if Truthy(q.endDate) then Some(parseDate(q.endDate.value)) else None;
      forall tx: Transaction ensures AdmitsAll(filters + [DateWithin(gte, lte)], tx) <==>
                                     AdmitsAll(filters, tx) && Admits(DateWithin(gte, lte), tx) {
        AdmitsAllPush(filters, DateWithin(gte, lte), tx);
      }
      filters := filters + [DateWithin(gte, lte)];
    }
    assert forall tx :: AdmitsAll(filters, tx) <==> Matches(q, me, partnerId, parseDate, tx);
    w := if |filters| > 1 then And(filters) else filters[0];
    assert |filters| <= 1 ==> filters == [visibility];
  }

  predicate LaterFirst(a: Transaction, b: Transaction)
  {
    a.date >= b.date
  }

  /** The `findMany` of the listing: the matching rows, latest date first. */
  function Listing(txs: seq<Transaction>, w: Where): (r: seq<Transaction>)
    ensures forall x :: x in r <==> x in txs && Admits(w, x)
    ensures forall x :: multiset(r)[x] == if Admits(w, x) then multiset(txs)[x] else 0
    ensures Sorted(r, LaterFirst)
  {
    var kept := Filter(txs, (tx: Transaction) => Admits(w, tx));
    var r := SortBy(kept, LaterFirst);
    assert forall x :: x in r <==> x in multiset(r);
    assert forall x :: x in kept <==> x in multiset(kept);
    r
  }

  /** GET: the caller's visible rows that pass the filters, latest first. */
  method Get(db: Db, session: Option<Id>, q: Query, parseDate: string -> Instant) returns (r: Result<seq<Transaction>>)
    ensures !Truthy(session) <==> r == Err(Unauthorized)
    ensures Truthy(session) ==> r.Ok?
    ensures r.Ok? ==>
              var me := session.value;
              var link := FindAcceptedLink(db.links, me);
              var partnerId := if link.Some? then Some(PartnerOf(link.value, me)) else None;
              && (forall x :: x in r.value <==> x in db.transactions && Matches(q, me, partnerId, parseDate, x))
              && (forall x :: multiset(r.value)[x] ==
                               if Matches(q, me, partnerId, parseDate, x) then multiset(db.transactions)[x] else 0)
              && Sorted(r.value, LaterFirst)
  {
    if !Truthy(session) {
      return Err(Unauthorized);
    }
    var me := session.value;
    var activeLink := FindAcceptedLink(db.links, me);
    var partnerId := if activeLink.Some? then
                       Some(if activeLink.value.user1Id == me then activeLink.value.user2Id else activeLink.value.user1Id)
                     else None;
    var w := BuildWhere(q, me, partnerId, parseDate);
    r := Ok(Listing(db.transactions, w));
  }

  // ----- POST

  const MissingFields: Failure := Failure(400, "Missing required fields")
  const InvalidCategory: Failure := Failure(400, "Invalid category")

  /** The request body; `amount` is already a number, `date` is parsed by `parseDate`. */
  datatype NewTransaction = NewTransaction(
    amount: Option<real>,
    description: Option<string>,
    date: Option<string>,
    categoryId: Option<string>,
    isShared: Option<bool>,
    paidBy: Option<string>)

  /** All four required fields are present and truthy; an amount of 0 counts as missing. */
  predicate HasRequiredFields(body: NewTransaction)
  {
    && body.amount.Some? && body.amount.value != 0.0
    && Truthy(body.description) && Truthy(body.date) && Truthy(body.categoryId)
  }

  /**
   * `normalizedPaidBy`: who paid for the new expense, from the body's
   * `paidBy`, the caller and the caller's active link.
   */
  function NormalizedPaidBy(isShared: bool, paidBy: Option<string>, me: Id, link: Option<PartnerLink>): Option<string>
  {
    if !isShared then None
    else if paidBy == Some(SplitMarker) then Some(SplitMarker)
    else if paidBy == Some(me) then Some(me)
    else if Truthy(paidBy) && paidBy.value != LegacyPartnerMarker then paidBy
    else if link.Some? then Some(PartnerOf(link.value, me))
    else None
  }

  /**
   * The cases of `normalizedPaidBy`: a personal expense has no payer; "split"
   * and the caller's id are kept; any other non-empty value except "partner"
   * is kept verbatim; "partner", "" or nothing become the partner's id when
   * there is a link, and nothing otherwise.
   */
  lemma NormalizedPaidByRules(isShared: bool, paidBy: Option<string>, me: Id, link: Option<PartnerLink>)
    ensures !isShared ==> NormalizedPaidBy(isShared, paidBy, me, link) == None
    ensures isShared && (paidBy == Some(SplitMarker) || paidBy == Some(me)) ==> NormalizedPaidBy(isShared, paidBy, me, link) == paidBy
    ensures isShared && Truthy(paidBy) && paidBy.value != LegacyPartnerMarker ==> NormalizedPaidBy(isShared, paidBy, me, link) == paidBy
    ensures isShared && (!Truthy(paidBy) || paidBy == Some(LegacyPartnerMarker)) && paidBy != Some(me) ==>
              NormalizedPaidBy(isShared, paidBy, me, link) == if link.Some? then Some(PartnerOf(link.value, me)) else None
  {
  }

  /** A normalised payer is never the legacy "partner" marker when the ids involved are well formed. */
  lemma NormalizedNeverLegacy(isShared: bool, paidBy: Option<string>, me: Id, link: Option<PartnerLink>)
    requires WellFormedId(me)
    requires link.Some? ==> WellFormedId(link.value.user1Id) && WellFormedId(link.value.user2Id)
    ensures NormalizedPaidBy(isShared, paidBy, me, link) != Some(LegacyPartnerMarker)
  {
  }

  /** The row that POST inserts. */
  function NewRow(id: Id, body: NewTransaction, me: Id, link: Option<PartnerLink>, parseDate: string -> Instant): Transaction
    requires HasRequiredFields(body)
  {
    var isShared := body.isShared == Some(true);
    Transaction(id, body.amount.value, body.description.value, parseDate(body.date.value), body.categoryId.value,
                me, isShared, NormalizedPaidBy(isShared, body.paidBy, me, link), None)
  }

  /** Whether the caller owns a category with the given id. */
  predicate OwnsCategory(categories: seq<Category>, id: Id, me: Id)
  {
    FindCategory(categories, id).Some? && FindCategory(categories, id).value.userId == me
  }

  /** POST: log a new expense of the caller. */
  method Post(db: Db, session: Option<Id>, body: NewTransaction, parseDate: string -> Instant) returns (r: Result<Transaction>)
    requires db.Valid()
    modifies db
    ensures db.Valid()
    ensures db.users == old(db.users) && db.links == old(db.links) && db.categories == old(db.categories)
    ensures db.settlements == old(db.settlements)
    ensures !Truthy(session) ==> r == Err(Unauthorized)
    ensures Truthy(session) && !HasRequiredFields(body) ==> r == Err(MissingFields)
    ensures Truthy(session) && HasRequiredFields(body) ==>
              (r == Err(InvalidCategory) <==> !OwnsCategory(old(db.categories), body.categoryId.value, session.value))
    ensures (Truthy(session) && HasRequiredFields(body) &&
             OwnsCategory(old(db.categories), body.categoryId.value, session.value)) ==> r.Ok?
    ensures r.Err? ==> db.transactions == old(db.transactions)
    ensures r.Ok? ==>
              && Truthy(session) && HasRequiredFields(body)
              && var me := session.value;
                 && r.value == NewRow(r.value.id, body, me, FindAcceptedLink(old(db.links), me), parseDate)
                 && r.value.id !in TransactionIds(old(db.transactions))
                 && r.value.paidBy != Some(LegacyPartnerMarker)
                 && db.transactions == old(db.transactions) + [r.value]
  {
    if !Truthy(session) {
      return Err(Unauthorized);
    }
    var me := session.value;
    if !HasRequiredFields(body) {
      return Err(MissingFields);
    }
    var category := FindCategory(db.categories, body.categoryId.value);
    if category.None? || category.value.userId != me {
      return Err(InvalidCategory);
    }
    var activeLink := FindAcceptedLink(db.links, me);
    var isShared := body.isShared == Some(true);
    var normalizedPaidBy := NormalizedPaidBy(isShared, body.paidBy, me, activeLink);
    var tx := Transaction(FreshId(TransactionIds(db.transactions)), body.amount.value, body.description.value,
                          parseDate(body.date.value), body.categoryId.value, me, isShared, normalizedPaidBy, None);
    PayerWellFormed(db.users, db.links, db.categories, category.value, activeLink, me, isShared, body.paidBy);
    InsertKeepsValid(db.transactions, db.categories, db.settlements, tx);
    Append(db, tx);
    r := Ok(tx);
  }

  /** The ids around a new row are users' ids, so its payer is never the legacy marker. */
  lemma PayerWellFormed(users: seq<User>, links: seq<PartnerLink>, categories: seq<Category>, category: Category,
                        link: Option<PartnerLink>, me: Id, isShared: bool, paidBy: Option<string>)
    requires UsersValid(users) && LinksValid(links, users) && CategoriesValid(categories, users)
    requires category in categories && category.userId == me
    requires link.Some? ==> link.value in links
    ensures NormalizedPaidBy(isShared, paidBy, me, link) != Some(LegacyPartnerMarker)
  {
    var k :| 0 <= k < |categories| && categories[k] == category;
    var i :| 0 <= i < |users| && UserIds(users)[i] == me;
    if link.Some? {
      var j :| 0 <= j < |links| && links[j] == link.value;
      var a :| 0 <= a < |users| && UserIds(users)[a] == link.value.user1Id;
      var b :| 0 <= b < |users| && UserIds(users)[b] == link.value.user2Id;
    }
    NormalizedNeverLegacy(isShared, paidBy, me, link);
  }

  lemma InsertKeepsValid(txs: seq<Transaction>, categories: seq<Category>, settlements: seq<Settlement>, tx: Transaction)
    requires TransactionsValid(txs, categories, settlements)
    requires tx.id !in TransactionIds(txs) && tx.categoryId in CategoryIds(categories) && tx.settlementId.None?
    ensures TransactionsValid(txs + [tx], categories, settlements)
  {
    assert TransactionIds(txs + [tx]) == TransactionIds(txs) + [tx.id];
  }

  /** The `create`: one row appended to the transaction table. */
  method Append(db: Db, tx: Transaction)
    requires db.Valid() && TransactionsValid(db.transactions + [tx], db.categories, db.settlements)
    modifies db
    ensures db.Valid()
    ensures db.users == old(db.users) && db.links == old(db.links) && db.categories == old(db.categories)
    ensures db.settlements == old(db.settlements) && db.transactions == old(db.transactions) + [tx]
  {
    db.transactions := db.transactions + [tx];
  }
}
