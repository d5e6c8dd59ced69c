/**
 * The categories route: the caller's categories by name (GET) and creating
 * a category with a trimmed, non-blank name that the caller does not
 * already use (POST).
 */
module CategoriesRoute {
  import opened Wrappers
  import opened Schema
  import opened Store
  import opened Sequences
  import opened Text

  predicate NameOrder(a: Category, b: Category)
  {
    LessEq(a.name, b.name)
  }

  lemma NameOrderIsTotalPreorder()
    ensures TotalPreorder(NameOrder)
  {
    forall a: Category, b: Category ensures NameOrder(a, b) || NameOrder(b, a) {
      LessEqTotal(a.name, b.name);
    }
    forall a: Category, b: Category, c: Category | NameOrder(a, b) && NameOrder(b, c) ensures NameOrder(a, c) {
      LessEqTransitive(a.name, b.name, c.name);
    }
  }

  /** The `findMany` of GET: the categories owned by `me`, by name. */
  function OwnCategories(categories: seq<Category>, me: Id): (r: seq<Category>)
    ensures forall c :: c in r <==> c in categories && c.userId == me
    ensures forall c :: multiset(r)[c] == if c.userId == me then multiset(categories)[c] else 0
    ensures Sorted(r, NameOrder)
  {
    var mine := Filter(categories, (c: Category) => c.userId == me);
    NameOrderIsTotalPreorder();
    var r := SortBy(mine, NameOrder);
    assert forall c :: c in r <==> c in multiset(r);
    assert forall c :: c in mine <==> c in multiset(mine);
    r
  }

  /** GET: the caller's categories. */
  method Get(db: Db, session: Option<Id>) returns (r: Result<seq<Category>>)
    ensures !Truthy(session) ==> r == Err(Unauthorized)
    ensures Truthy(session) ==> r == Ok(OwnCategories(db.categories, session.value))
  {
    if !Truthy(session) {
      return Err(Unauthorized);
    }
    r := Ok(OwnCategories(db.categories, session.value));
  }

  const NameRequired: Failure := Failure(400, "Category name is required")
  const AlreadyExists: Failure := Failure(400, "Category already exists")

  /** Whether `me` owns a category called exactly `name`. */
  predicate HasCategoryNamed(categories: seq<Category>, me: Id, name: string)
  {
    exists i :: 0 <= i < |categories| && categories[i].userId == me && categories[i].name == name
  }

  /** The `findFirst` of POST: the caller's category with this exact name. */
  function FindNamed(categories: seq<Category>, me: Id, name: string): (r: Option<Category>)
    ensures r.None? <==> !HasCategoryNamed(categories, me, name)
    ensures r.Some? ==> r.value in categories && r.value.userId == me && r.value.name == name
  {
    if categories == [] then None
    else if categories[0].userId == me && categories[0].name == name then Some(categories[0])
    else
      var r := FindNamed(categories[1..], me, name);
      assert forall i :: 1 <= i < |categories| ==> categories[i] == categories[1..][i - 1];
      r
  }

  /** Adding a category under a name its owner does not use keeps every user's names distinct. */
  lemma NewNameKeepsNamesUnique(categories: seq<Category>, c: Category)
    requires UniqueNamesPerUser(categories)
    requires !HasCategoryNamed(categories, c.userId, c.name)
    ensures UniqueNamesPerUser(categories + [c])
  {
    var all := categories + [c];
    forall i, j | 0 <= i < j < |all| && all[i].userId == all[j].userId ensures all[i].name != all[j].name {
      if j == |categories| {
        assert all[i] == categories[i];
      }
    }
  }

  /** POST: create a category for the caller. */
  method Post(db: Db, session: Option<Id>, name: Option<string>) returns (r: Result<Category>)
    requires db.Valid()
    modifies db
    ensures db.Valid()
    ensures db.users == old(db.users) && db.links == old(db.links)
    ensures db.transactions == old(db.transactions) && db.settlements == old(db.settlements)
    ensures r.Err? ==> db.categories == old(db.categories)
    ensures !Truthy(session) ==> r == Err(Unauthorized)
    ensures Truthy(session) ==> (r == Err(NameRequired) <==> !Truthy(name) || Trim(name.value) == "")
    ensures Truthy(session) && Truthy(name) && Trim(name.value) != "" ==>
              (r == Err(AlreadyExists) <==> HasCategoryNamed(old(db.categories), session.value, Trim(name.value)))
    ensures (&& Truthy(session) && Truthy(name) && Trim(name.value) != ""
             && !HasCategoryNamed(old(db.categories), session.value, Trim(name.value))
             && session.value in UserIds(old(db.users))) ==> r.Ok?
    ensures (&& Truthy(session) && Truthy(name) && Trim(name.value) != ""
             && !HasCategoryNamed(old(db.categories), session.value, Trim(name.value))
             && session.value !in UserIds(old(db.users))) ==> r == Err(InternalError)
    ensures r.Ok? ==>
              && Truthy(session) && Truthy(name) && Trim(name.value) != ""
              && !HasCategoryNamed(old(db.categories), session.value, Trim(name.value))
              && session.value in UserIds(old(db.users))
              && r.value == Category(r.value.id, Trim(name.value), session.value)
              && r.value.id !in CategoryIds(old(db.categories))
              && db.categories == old(db.categories) + [r.value]
  {
    if !Truthy(session) {
      return Err(Unauthorized);
    }
    var me := session.value;
    if !Truthy(name) || Trim(name.value) == "" {
      return Err(NameRequired);
    }
    var trimmed := Trim(name.value);
    var existing := FindNamed(db.categories, me, trimmed);
    if existing.Some? {
      return Err(AlreadyExists);
    }
    if me !in UserIds(db.users) {
      // The foreign key on `userId` rejects the insert.
      return Err(InternalError);
    }
    var category := Category(FreshId(CategoryIds(db.categories)), trimmed, me);
    NewCategoryKeepsValid(db.categories, db.users, category);
    AddCategories(db, [category]);
    r := Ok(category);
  }

  lemma NewCategoryKeepsValid(categories: seq<Category>, users: seq<User>, c: Category)
    requires CategoriesValid(categories, users)
    requires c.id !in CategoryIds(categories) && c.userId in UserIds(users)
    requires !HasCategoryNamed(categories, c.userId, c.name)
    ensures CategoriesValid(categories + [c], users)
  {
    assert CategoryIds(categories + [c]) == CategoryIds(categories) + [c.id];
    NewNameKeepsNamesUnique(categories, c);
  }

  /** The `create` (or `createMany`) of categories: rows appended to the category table. */
  method AddCategories(db: Db, rows: seq<Category>)
    requires db.Valid() && CategoriesValid(db.categories + rows, db.users)
    modifies db
    ensures db.Valid()
    ensures db.users == old(db.users) && db.links == old(db.links)
    ensures db.transactions == old(db.transactions) && db.settlements == old(db.settlements)
    ensures db.categories == old(db.categories) + rows
  {
    CategoryIdsGrow(db.categories, rows, db.transactions);
    db.categories := db.categories + rows;
  }

  /** Rows keep their category references when categories are added. */
  lemma CategoryIdsGrow(categories: seq<Category>, rows: seq<Category>, txs: seq<Transaction>)
    ensures forall id :: id in CategoryIds(categories) ==> id in CategoryIds(categories + rows)
  {
    forall id | id in CategoryIds(categories) ensures id in CategoryIds(categories + rows) {
      var k :| 0 <= k < |categories| && CategoryIds(categories)[k] == id;
      assert CategoryIds(categories + rows)[k] == id;
    }
  }
}
