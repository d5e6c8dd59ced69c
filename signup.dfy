/**
 * The sign-up route: it checks the credentials, refuses an email already in
 * use, inserts the user with a hashed password and gives the new user the
 * eight default categories.
 */
module SignupRoute {
  import opened Wrappers
  import opened Schema
  import opened Store
  import opened Text
  import CategoriesRoute

  const CredentialsRequired: Failure := Failure(400, "Email and password are required")
  const UserExists: Failure := Failure(400, "User already exists")

  /** The categories every new user starts with, in creation order. */
  const DefaultCategoryNames: seq<string> :=
    ["Groceries", "Rent", "Transportation", "Entertainment", "Utilities", "Healthcare", "Food & Dining", "Shopping"]

  lemma DefaultNamesDistinct()
    ensures |DefaultCategoryNames| == 8
    ensures forall i, j :: 0 <= i < j < |DefaultCategoryNames| ==> DefaultCategoryNames[i] != DefaultCategoryNames[j]
  {
  }

  /** `n` ids the store mints one after another: pairwise distinct and none of them in `used`. */
  function FreshIds(n: nat, used: seq<Id>): (ids: seq<Id>)
    ensures |ids| == n && Distinct(ids)
    ensures forall i :: 0 <= i < n ==> ids[i] !in used
  {
    if n == 0 then []
    else
      var id := FreshId(used);
      var rest := FreshIds(n - 1, used + [id]);
      assert id !in used;
      assert forall i :: 0 <= i < n - 1 ==> rest[i] != id && rest[i] !in used;
      [id] + rest
  }

  /**
   * The rows of the bulk category insert: one per name, in order, all owned
   * by `userId`, each with an id the store has not used before.
   */
  function DefaultRows(names: seq<string>, userId: Id, used: seq<Id>): (rows: seq<Category>)
    ensures |rows| == |names|
    ensures forall i :: 0 <= i < |rows| ==> rows[i].name == names[i] && rows[i].userId == userId
    ensures forall i :: 0 <= i < |rows| ==> rows[i].id !in used
    ensures Distinct(CategoryIds(rows))
  {
    var ids := FreshIds(|names|, used);
    seq(|names|, i requires 0 <= i < |names| => Category(ids[i], names[i], userId))
  }

  /** POST: register a user. Returns the new user's id. */
  method Post(db: Db, email: Option<string>, password: Option<string>, name: Option<string>, hash: string -> string)
    returns (r: Result<Id>)
    requires db.Valid()
    modifies db
    ensures db.Valid()
    ensures db.links == old(db.links) && db.transactions == old(db.transactions) && db.settlements == old(db.settlements)
    ensures r.Err? ==> db.users == old(db.users) && db.categories == old(db.categories)
    ensures r == Err(CredentialsRequired) <==> !Truthy(email) || !Truthy(password)
    ensures Truthy(email) && Truthy(password) ==>
              (r == Err(UserExists) <==> FindUserByEmail(old(db.users), email.value).Some?)
    ensures Truthy(email) && Truthy(password) && FindUserByEmail(old(db.users), email.value).None? ==> r.Ok?
    ensures r.Ok? ==>
              && Truthy(email) && Truthy(password)
              && FindUserByEmail(old(db.users), email.value).None?
              && r.value !in UserIds(old(db.users))
              && |db.users| == |old(db.users)| + 1 && db.users[..|old(db.users)|] == old(db.users)
              && var u := db.users[|old(db.users)|];
                 && u.id == r.value && u.email == email.value && u.password == hash(password.value)
                 && (u.name.None? <==> !Truthy(name))
                 && (Truthy(name) ==> u.name == name)
    ensures r.Ok? ==>
              && |db.categories| == |old(db.categories)| + |DefaultCategoryNames|
              && db.categories[..|old(db.categories)|] == old(db.categories)
              && var added := db.categories[|old(db.categories)|..];
                 && (forall i :: 0 <= i < |added| ==> added[i].name == DefaultCategoryNames[i] && added[i].userId == r.value)
                 && (forall c :: c in db.categories && c.userId == r.value <==> c in added)
  {
    if !Truthy(email) || !Truthy(password) {
      return Err(CredentialsRequired);
    }
    var existing := FindUserByEmail(db.users, email.value);
    if existing.Some? {
      return Err(UserExists);
    }
    var hashed := hash(password.value);
    var user := User(FreshId(UserIds(db.users)), email.value, hashed, if Truthy(name) then name else None);
    var oldUsers, oldCategories := db.users, db.categories;
    NewUserKeepsValid(db.users, db.links, db.categories, user);
    AddUser(db, user);
    var rows := DefaultRows(DefaultCategoryNames, user.id, CategoryIds(db.categories));
    DefaultsKeepValid(oldCategories, oldUsers, user, rows);
    CategoriesRoute.AddCategories(db, rows);
    assert db.categories[..|oldCategories|] == oldCategories;
    assert db.categories[|oldCategories|..] == rows;
    OnlyDefaultsOwned(oldCategories, oldUsers, rows, user.id);
    r := Ok(user.id);
  }

  /**
   * A user inserted with a fresh id and an unused email keeps the users valid,
   * and every row referring to a user still does.
   */
  lemma NewUserKeepsValid(users: seq<User>, links: seq<PartnerLink>, categories: seq<Category>, u: User)
    requires UsersValid(users) && LinksValid(links, users) && CategoriesValid(categories, users)
    requires u.id == FreshId(UserIds(users))
    requires forall i :: 0 <= i < |users| ==> users[i].email != u.email
    ensures UsersValid(users + [u]) && LinksValid(links, users + [u]) && CategoriesValid(categories, users + [u])
  {
    var all := users + [u];
    assert UserIds(all) == UserIds(users) + [u.id];
    forall id | id in UserIds(users) ensures id in UserIds(all) {
      var k :| 0 <= k < |users| && UserIds(users)[k] == id;
      assert UserIds(all)[k] == id;
    }
  }

  /**
   * The default rows, owned by a new user that owns nothing yet, keep the
   * categories valid: their ids are fresh and their names pairwise distinct.
   */
  lemma DefaultsKeepValid(categories: seq<Category>, users: seq<User>, u: User, rows: seq<Category>)
    requires CategoriesValid(categories, users)
    requires u.id !in UserIds(users)
    requires rows == DefaultRows(DefaultCategoryNames, u.id, CategoryIds(categories))
    ensures CategoriesValid(categories + rows, users + [u])
  {
    var all := categories + rows;
    DefaultNamesDistinct();
    assert UserIds(users + [u]) == UserIds(users) + [u.id];
    forall i | 0 <= i < |categories| ensures categories[i].userId != u.id {
    }
    forall i, j | 0 <= i < j < |all| && all[i].userId == all[j].userId ensures all[i].name != all[j].name {
      if j < |categories| {
        assert all[i] == categories[i] && all[j] == categories[j];
      } else if i >= |categories| {
        assert all[i] == rows[i - |categories|] && all[j] == rows[j - |categories|];
      }
    }
    forall i, j | 0 <= i < j < |all| ensures CategoryIds(all)[i] != CategoryIds(all)[j] {
      if j >= |categories| {
        if i >= |categories| {
          assert CategoryIds(rows)[i - |categories|] != CategoryIds(rows)[j - |categories|];
        } else {
          assert CategoryIds(categories)[i] == categories[i].id;
        }
      }
    }
  }

  /** After sign-up, the new user owns exactly the default rows. */
  lemma OnlyDefaultsOwned(categories: seq<Category>, users: seq<User>, rows: seq<Category>, owner: Id)
    requires forall i :: 0 <= i < |categories| ==> categories[i].userId in UserIds(users)
    requires owner !in UserIds(users)
    requires forall i :: 0 <= i < |rows| ==> rows[i].userId == owner
    ensures forall c :: c in categories + rows && c.userId == owner <==> c in rows
  {
    forall c | c in categories ensures c.userId != owner {
      var k :| 0 <= k < |categories| && categories[k] == c;
    }
  }

  /** The `create` of the user. */
  method AddUser(db: Db, u: User)
    requires db.Valid()
    requires UsersValid(db.users + [u]) && LinksValid(db.links, db.users + [u])
    requires CategoriesValid(db.categories, db.users + [u])
    modifies db
    ensures db.Valid()
    ensures db.links == old(db.links) && db.categories == old(db.categories)
    ensures db.transactions == old(db.transactions) && db.settlements == old(db.settlements)
    ensures db.users == old(db.users) + [u]
  {
    db.users := db.users + [u];
  }
}
