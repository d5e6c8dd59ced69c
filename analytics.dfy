/**
 * The analytics route (GET): the caller's own expenses grouped by month and
 * by category name in one pass, the top eight categories, and summary
 * figures (total, average, this month, change against the comparison month).
 */
module AnalyticsRoute {
  import opened Wrappers
  import opened Schema
  import opened Store
  import opened Sequences
  import opened Text
  import opened Grouping

  /** An expense of the caller joined to its category's name. */
  datatype Row = Row(amount: real, date: Instant, categoryName: string)

  predicate EarlierFirst(a: Transaction, b: Transaction)
  {
    a.date <= b.date
  }

  /** The `findMany` of the route: the caller's expenses, oldest first. */
  function OwnTransactions(txs: seq<Transaction>, me: Id): (r: seq<Transaction>)
    ensures forall x :: x in r <==> x in txs && x.userId == me
    ensures forall x :: multiset(r)[x] == if x.userId == me then multiset(txs)[x] else 0
    ensures Sorted(r, EarlierFirst)
  {
    var mine := Filter(txs, (tx: Transaction) => tx.userId == me);
    var r := SortBy(mine, EarlierFirst);
    assert forall x :: x in r <==> x in multiset(r);
    assert forall x :: x in mine <==> x in multiset(mine);
    r
  }

  /** Every expense of `txs` names an existing category. */
  predicate CategoriesExist(txs: seq<Transaction>, categories: seq<Category>)
  {
    forall i :: 0 <= i < |txs| ==> txs[i].categoryId in CategoryIds(categories)
  }

  /** The `include: { category: true }` of the query. */
  function Join(txs: seq<Transaction>, categories: seq<Category>): (rows: seq<Row>)
    requires CategoriesExist(txs, categories)
    ensures |rows| == |txs|
    ensures forall i :: 0 <= i < |txs| ==>
              && rows[i].amount == txs[i].amount && rows[i].date == txs[i].date
              && exists c :: c in categories && c.id == txs[i].categoryId && c.name == rows[i].categoryName
  {
    seq(|txs|, i requires 0 <= i < |txs| =>
      Row(txs[i].amount, txs[i].date, FindCategory(categories, txs[i].categoryId).value.name))
  }

  /** The rows keyed by month, through the locale month key of their dates. */
  function MonthEntries(rows: seq<Row>, monthKey: Instant -> string): (es: seq<Entry>)
    ensures |es| == |rows|
    ensures forall i :: 0 <= i < |rows| ==> es[i] == Entry(monthKey(rows[i].date), rows[i].amount)
  {
    seq(|rows|, i requires 0 <= i < |rows| => Entry(monthKey(rows[i].date), rows[i].amount))
  }

  /** The rows keyed by category name. */
  function CategoryEntries(rows: seq<Row>): (es: seq<Entry>)
    ensures |es| == |rows|
    ensures forall i :: 0 <= i < |rows| ==> es[i] == Entry(rows[i].categoryName, rows[i].amount)
  {
    seq(|rows|, i requires 0 <= i < |rows| => Entry(rows[i].categoryName, rows[i].amount))
  }

  /**
   * The members every plain object inherits from `Object.prototype`. The
   * tables of the route are plain objects, so looking one of these names up
   * finds the inherited member, which is truthy: the route then creates no
   * bucket for it, and the amounts added land on the inherited member, which
   * the response never shows.
   */
  const InheritedNames: set<string> := {
    "constructor", "__defineGetter__", "__defineSetter__", "hasOwnProperty", "__lookupGetter__",
    "__lookupSetter__", "isPrototypeOf", "propertyIsEnumerable", "toString", "valueOf", "__proto__",
    "toLocaleString"}

  predicate IsInherited(key: string)
  {
    key in InheritedNames
  }

  /** The entries that reach a table's own buckets: those whose key is not an inherited name. */
  function Tabled(es: seq<Entry>): (r: seq<Entry>)
    ensures forall i :: 0 <= i < |r| ==> !IsInherited(r[i].key)
  {
    if es == [] then []
    else
      var p, x := Tabled(es[..|es| - 1]), es[|es| - 1];
      if IsInherited(x.key) then p else p + [x]
  }

  lemma TabledAppend(es: seq<Entry>, e: Entry)
    ensures Tabled(es + [e]) == if IsInherited(e.key) then Tabled(es) else Tabled(es) + [e]
  {
    assert (es + [e])[..|es|] == es;
  }

  /** The eight chart colours, handed out in turn. */
  const CategoryColors: seq<string> := [
    "hsl(173, 80%, 40%)", "hsl(160, 84%, 39%)", "hsl(43, 74%, 66%)", "hsl(27, 87%, 67%)",
    "hsl(10, 79%, 63%)", "hsl(200, 80%, 50%)", "hsl(142, 71%, 45%)", "hsl(24, 70%, 60%)"]

  /** The colour handed to the bucket created `i`-th: the palette taken round and round. */
  function ColorAt(i: nat): string
  {
    CategoryColors[i % |CategoryColors|]
  }

  datatype MonthBucket = MonthBucket(month: string, total: real, count: nat)
  datatype CategoryBucket = CategoryBucket(category: string, total: real, count: nat, color: string)

  /** The month buckets, in order of first appearance. */
  function MonthBuckets(es: seq<Entry>): (r: seq<MonthBucket>)
    ensures |r| == |FirstSeen(es)|
  {
    var ks := FirstSeen(es);
    seq(|ks|, i requires 0 <= i < |ks| => MonthBucket(ks[i], KeyTotal(es, ks[i]), KeyCount(es, ks[i])))
  }

  /** The category buckets, in order of first appearance; the k-th gets colour k mod 8. */
  function CategoryBuckets(es: seq<Entry>): (r: seq<CategoryBucket>)
    ensures |r| == |FirstSeen(es)|
  {
    var ks := FirstSeen(es);
    seq(|ks|, i requires 0 <= i < |ks| =>
      CategoryBucket(ks[i], KeyTotal(es, ks[i]), KeyCount(es, ks[i]), ColorAt(i)))
  }

  /** `monthlyData` (its own keys) and their order: one bucket per key of `t`, in order of first appearance. */
  ghost predicate MonthTable(monthlyData: map<string, MonthBucket>, months: seq<string>, t: seq<Entry>)
  {
    && months == FirstSeen(t)
    && (forall k :: k in monthlyData <==> k in months)
    && (forall k :: k in monthlyData ==> monthlyData[k] == MonthBucket(k, KeyTotal(t, k), KeyCount(t, k)))
  }

  /** `monthlyData` and its order after the expenses `es`. */
  ghost predicate MonthState(monthlyData: map<string, MonthBucket>, months: seq<string>, es: seq<Entry>)
  {
    MonthTable(monthlyData, months, Tabled(es))
  }

  /** `categoryData` (its own keys), their order and `colorIndex`: one coloured bucket per key of `t`. */
  ghost predicate CategoryTable(categoryData: map<string, CategoryBucket>, categories: seq<string>, colorIndex: nat,
                                t: seq<Entry>)
  {
    && categories == FirstSeen(t) && colorIndex == |categories|
    && (forall k :: k in categoryData <==> k in categories)
    && ColouredBuckets(categoryData, categories, t)
  }

  /** The `j`-th category has the sum and count of its entries in `t` and colour `j`. */
  ghost predicate ColouredBuckets(categoryData: map<string, CategoryBucket>, categories: seq<string>, t: seq<Entry>)
  {
    forall j :: 0 <= j < |categories| ==>
      && categories[j] in categoryData
      && categoryData[categories[j]] ==
         CategoryBucket(categories[j], KeyTotal(t, categories[j]), KeyCount(t, categories[j]), ColorAt(j))
  }

  /** `categoryData`, its order and `colorIndex` after the expenses `es`. */
  ghost predicate CategoryState(categoryData: map<string, CategoryBucket>, categories: seq<string>, colorIndex: nat,
                                es: seq<Entry>)
  {
    CategoryTable(categoryData, categories, colorIndex, Tabled(es))
  }

  /**
   * The monthly half of the `forEach` body: create the month's bucket if the
   * lookup finds nothing, then add the expense. An inherited name is found,
   * so no bucket of the table changes.
   */
  method AddToMonth(monthlyData: map<string, MonthBucket>, months: seq<string>, ghost es: seq<Entry>,
                    month: string, amount: real)
    returns (monthlyData': map<string, MonthBucket>, months': seq<string>)
    requires MonthState(monthlyData, months, es)
    ensures MonthState(monthlyData', months', es + [Entry(month, amount)])
  {
    TabledAppend(es, Entry(month, amount));
    if IsInherited(month) {
      return monthlyData, months;
    }
    monthlyData', months' := PutMonth(monthlyData, months, Tabled(es), month, amount);
  }

  /** Create the bucket of `month` if it has none, then add the expense to it. */
  method PutMonth(monthlyData: map<string, MonthBucket>, months: seq<string>, ghost t: seq<Entry>,
                  month: string, amount: real)
    returns (monthlyData': map<string, MonthBucket>, months': seq<string>)
    requires MonthTable(monthlyData, months, t)
    ensures MonthTable(monthlyData', months', t + [Entry(month, amount)])
  {
    AppendEntry(t, Entry(month, amount));
    monthlyData', months' := monthlyData, months;
    if month !in monthlyData' {
      monthlyData' := monthlyData'[month := MonthBucket(month, 0.0, 0)];
      months' := months' + [month];
      AbsentKey(t, month);
    }
    var m := monthlyData'[month];
    monthlyData' := monthlyData'[month := m.(total := m.total + amount, count := m.count + 1)];
  }

  /**
   * The category half of the `forEach` body: a category the lookup does not
   * find takes the next colour, then the expense is added. An inherited name
   * is found, so it takes no colour and no bucket of the table changes.
   */
  method AddToCategory(categoryData: map<string, CategoryBucket>, categories: seq<string>, colorIndex: nat,
                       ghost es: seq<Entry>, categoryName: string, amount: real)
    returns (categoryData': map<string, CategoryBucket>, categories': seq<string>, colorIndex': nat)
    requires CategoryState(categoryData, categories, colorIndex, es)
    ensures CategoryState(categoryData', categories', colorIndex', es + [Entry(categoryName, amount)])
  {
    TabledAppend(es, Entry(categoryName, amount));
    if IsInherited(categoryName) {
      return categoryData, categories, colorIndex;
    }
    categoryData', categories', colorIndex' := PutCategory(categoryData, categories, colorIndex, Tabled(es),
                                                           categoryName, amount);
  }

  /** Give `categoryName` a bucket and the next colour if it has none, then add the expense to it. */
  method PutCategory(categoryData: map<string, CategoryBucket>, categories: seq<string>, colorIndex: nat,
                     ghost t: seq<Entry>, categoryName: string, amount: real)
    returns (categoryData': map<string, CategoryBucket>, categories': seq<string>, colorIndex': nat)
    requires CategoryTable(categoryData, categories, colorIndex, t)
    ensures CategoryTable(categoryData', categories', colorIndex', t + [Entry(categoryName, amount)])
  {
    var e := Entry(categoryName, amount);
    if categoryName !in categoryData {
      NewCategoryStep(categoryData, categories, colorIndex, t, e);
      categoryData' := categoryData[categoryName := CategoryBucket(categoryName, 0.0, 0, ColorAt(colorIndex))];
      categories' := categories + [categoryName];
      colorIndex' := colorIndex + 1;
    } else {
      OldCategoryStep(categoryData, categories, colorIndex, t, e);
      categoryData', categories', colorIndex' := categoryData, categories, colorIndex;
    }
    var c := categoryData'[categoryName];
    categoryData' := categoryData'[categoryName := c.(total := c.total + amount, count := c.count + 1)];
  }

  /** A category seen for the first time: a bucket holding the one expense, with the next colour. */
  lemma NewCategoryStep(categoryData: map<string, CategoryBucket>, categories: seq<string>, colorIndex: nat,
                        t: seq<Entry>, e: Entry)
    requires CategoryTable(categoryData, categories, colorIndex, t) && e.key !in categoryData
    ensures CategoryTable(categoryData[e.key := CategoryBucket(e.key, e.amount, 1, ColorAt(colorIndex))],
                          categories + [e.key], colorIndex + 1, t + [e])
  {
    AppendEntry(t, e);
    AbsentKey(t, e.key);
    NewBucket(categoryData, categories, t, e);
  }

  lemma NewBucket(categoryData: map<string, CategoryBucket>, categories: seq<string>, t: seq<Entry>, e: Entry)
    requires ColouredBuckets(categoryData, categories, t) && e.key !in categories
    requires KeyTotal(t, e.key) == 0.0 && KeyCount(t, e.key) == 0
    requires forall k :: KeyTotal(t + [e], k) == KeyTotal(t, k) + (if e.key == k then e.amount else 0.0)
    requires forall k :: KeyCount(t + [e], k) == KeyCount(t, k) + (if e.key == k then 1 else 0)
    ensures ColouredBuckets(categoryData[e.key := CategoryBucket(e.key, e.amount, 1, ColorAt(|categories|))],
                            categories + [e.key], t + [e])
  {
    var cd, cs, u := categoryData[e.key := CategoryBucket(e.key, e.amount, 1, ColorAt(|categories|))],
                     categories + [e.key], t + [e];
    forall j | 0 <= j < |cs|
      ensures cs[j] in cd && cd[cs[j]] == CategoryBucket(cs[j], KeyTotal(u, cs[j]), KeyCount(u, cs[j]), ColorAt(j))
    {
      if j < |categories| {
        assert cs[j] == categories[j] != e.key;
        assert KeyTotal(u, cs[j]) == KeyTotal(t, cs[j]) && KeyCount(u, cs[j]) == KeyCount(t, cs[j]);
      } else {
        assert cs[j] == e.key && KeyTotal(u, e.key) == e.amount && KeyCount(u, e.key) == 1;
      }
    }
  }

  /** A category seen before: its bucket takes the expense, and its colour stays. */
  lemma OldCategoryStep(categoryData: map<string, CategoryBucket>, categories: seq<string>, colorIndex: nat,
                        t: seq<Entry>, e: Entry)
    requires CategoryTable(categoryData, categories, colorIndex, t) && e.key in categoryData
    ensures var c := categoryData[e.key];
            CategoryTable(categoryData[e.key := c.(total := c.total + e.amount, count := c.count + 1)],
                          categories, colorIndex, t + [e])
  {
    AppendEntry(t, e);
    var j0 :| 0 <= j0 < |categories| && categories[j0] == e.key;
    forall j | 0 <= j < |categories| && j != j0 ensures categories[j] != e.key {
    }
    GrownBucket(categoryData, categories, t, e, j0);
  }

  lemma GrownBucket(categoryData: map<string, CategoryBucket>, categories: seq<string>, t: seq<Entry>, e: Entry,
                    j0: int)
    requires ColouredBuckets(categoryData, categories, t)
    requires 0 <= j0 < |categories| && categories[j0] == e.key
    requires forall j :: 0 <= j < |categories| && j != j0 ==> categories[j] != e.key
    requires forall k :: KeyTotal(t + [e], k) == KeyTotal(t, k) + (if e.key == k then e.amount else 0.0)
    requires forall k :: KeyCount(t + [e], k) == KeyCount(t, k) + (if e.key == k then 1 else 0)
    ensures var c := categoryData[e.key];
            ColouredBuckets(categoryData[e.key := c.(total := c.total + e.amount, count := c.count + 1)],
                            categories, t + [e])
  {
  }

  /**
   * The `forEach` of the route: one pass that creates a bucket the first time
   * a month or a category is seen (a new category takes the next colour) and
   * then adds the expense to it; a key that is an inherited name gets no
   * bucket of its own.
   */
  method Aggregate(rows: seq<Row>, monthKey: Instant -> string)
    returns (monthlyData: map<string, MonthBucket>, months: seq<string>,
             categoryData: map<string, CategoryBucket>, categories: seq<string>)
    ensures months == FirstSeen(Tabled(MonthEntries(rows, monthKey)))
    ensures forall k :: k in monthlyData <==> k in months
    ensures forall i :: 0 <= i < |months| ==>
              monthlyData[months[i]] == MonthBuckets(Tabled(MonthEntries(rows, monthKey)))[i]
    ensures categories == FirstSeen(Tabled(CategoryEntries(rows)))
    ensures forall k :: k in categoryData <==> k in categories
    ensures forall i :: 0 <= i < |categories| ==>
              categoryData[categories[i]] == CategoryBuckets(Tabled(CategoryEntries(rows)))[i]
  {
    ghost var es := MonthEntries(rows, monthKey);
    ghost var cs := CategoryEntries(rows);
    monthlyData, months, categoryData, categories := map[], [], map[], [];
    var colorIndex := 0;
    var i := 0;
    assert es[..0] == [] && cs[..0] == [];
    while i < |rows|
      invariant 0 <= i <= |rows|
      invariant MonthState(monthlyData, months, es[..i])
      invariant CategoryState(categoryData, categories, colorIndex, cs[..i])
    {
      var tx := rows[i];
      assert es[..i + 1] == es[..i] + [Entry(monthKey(tx.date), tx.amount)];
      assert cs[..i + 1] == cs[..i] + [Entry(tx.categoryName, tx.amount)];
      monthlyData, months := AddToMonth(monthlyData, months, es[..i], monthKey(tx.date), tx.amount);
      categoryData, categories, colorIndex := AddToCategory(categoryData, categories, colorIndex, cs[..i],
                                                            tx.categoryName, tx.amount);
      i := i + 1;
    }
    assert es[..|rows|] == es && cs[..|rows|] == cs;
    MonthTableBuckets(monthlyData, months, Tabled(es));
    CategoryTableBuckets(categoryData, categories, colorIndex, Tabled(cs));
  }

  lemma MonthTableBuckets(monthlyData: map<string, MonthBucket>, months: seq<string>, t: seq<Entry>)
    requires MonthTable(monthlyData, months, t)
    ensures forall i :: 0 <= i < |months| ==> months[i] in monthlyData && monthlyData[months[i]] == MonthBuckets(t)[i]
  {
  }

  lemma CategoryTableBuckets(categoryData: map<string, CategoryBucket>, categories: seq<string>, colorIndex: nat,
                             t: seq<Entry>)
    requires CategoryTable(categoryData, categories, colorIndex, t)
    ensures forall i :: 0 <= i < |categories| ==>
              categories[i] in categoryData && categoryData[categories[i]] == CategoryBuckets(t)[i]
  {
  }

  predicate HigherTotalFirst(a: CategoryBucket, b: CategoryBucket)
  {
    a.total >= b.total
  }

  /** The number of categories the route returns at most. */
  const TopCount: nat := 8

  /** `sort` by non-increasing total, then the first eight: none left out has a higher total. */
  function TopCategories(buckets: seq<CategoryBucket>): (r: seq<CategoryBucket>)
    ensures |r| == Min(TopCount, |buckets|)
    ensures forall i :: 0 <= i < |r| ==> r[i] in buckets
    ensures multiset(r) <= multiset(buckets)
    ensures Sorted(r, HigherTotalFirst)
    ensures forall b :: b in buckets && b !in r ==> forall i :: 0 <= i < |r| ==> r[i].total >= b.total
  {
    var sorted := SortBy(buckets, HigherTotalFirst);
    assert |sorted| == |multiset(sorted)| == |buckets|;
    var r := sorted[..Min(TopCount, |sorted|)];
    SortedPrefix(buckets, sorted, HigherTotalFirst, r);
    r
  }

  /** `totalSpent / n`, or 0 for no expenses. */
  function Average(total: real, n: nat): (avg: real)
    ensures n == 0 ==> avg == 0.0
    ensures n > 0 ==> avg * (n as real) == total
  {
    if n > 0 then total / (n as real) else 0.0
  }

  /** `Object.keys(monthlyData).sort()`: the month keys in code-point order. */
  function SortedMonths(months: seq<string>): (r: seq<string>)
    ensures multiset(r) == multiset(months)
    ensures Sorted(r, LessEq)
  {
    LessEqIsTotalPreorder();
    SortBy(months, LessEq)
  }

  lemma LessEqIsTotalPreorder()
    ensures TotalPreorder(LessEq)
  {
    forall a, b ensures LessEq(a, b) || LessEq(b, a) {
      LessEqTotal(a, b);
    }
    forall a, b, c | LessEq(a, b) && LessEq(b, c) ensures LessEq(a, c) {
      LessEqTransitive(a, b, c);
    }
  }

  /** The comparison month: the second-to-last key in sorted order, if there are two keys. */
  function ComparisonMonth(sortedMonths: seq<string>): (m: Option<string>)
    ensures m.Some? <==> |sortedMonths| > 1
    ensures m.Some? ==> m.value in sortedMonths
  {
    if |sortedMonths| > 1 then Some(sortedMonths[|sortedMonths| - 2]) else None
  }

  /** The percentage change from the comparison month's spend to this month's; 0 without a positive base. */
  function MonthOverMonthChange(currentMonthSpent: real, lastMonthSpent: real): (change: real)
    ensures lastMonthSpent <= 0.0 ==> change == 0.0
    ensures lastMonthSpent > 0.0 ==> change * lastMonthSpent == (currentMonthSpent - lastMonthSpent) * 100.0
  {
    if lastMonthSpent > 0.0 then (currentMonthSpent - lastMonthSpent) / lastMonthSpent * 100.0 else 0.0
  }

  datatype Summary = Summary(
    totalSpent: real,
    avgTransactionAmount: real,
    currentMonthSpent: real,
    monthOverMonthChange: real,
    totalTransactions: nat)

  /** The response body of the route. */
  datatype Analytics = Analytics(monthlyTrends: seq<MonthBucket>, topCategories: seq<CategoryBucket>, summary: Summary)

  /** The expenses the route aggregates: the caller's own, oldest first, with their category names. */
  function OwnRows(txs: seq<Transaction>, categories: seq<Category>, me: Id): (rows: seq<Row>)
    requires CategoriesExist(txs, categories)
    ensures |rows| == |OwnTransactions(txs, me)|
    ensures forall i :: 0 <= i < |rows| ==>
              rows[i].amount == OwnTransactions(txs, me)[i].amount && rows[i].date == OwnTransactions(txs, me)[i].date
  {
    var own := OwnTransactions(txs, me);
    assert CategoriesExist(own, categories) by {
      forall i | 0 <= i < |own| ensures own[i].categoryId in CategoryIds(categories) {
        assert own[i] in txs;
      }
    }
    Join(own, categories)
  }

  /** GET: the caller's analytics; `now` and `monthKey` stand for the clock and the locale formatting. */
  method Get(db: Db, session: Option<Id>, now: Instant, monthKey: Instant -> string) returns (r: Result<Analytics>)
    requires CategoriesExist(db.transactions, db.categories)
    ensures !Truthy(session) ==> r == Err(Unauthorized)
    ensures Truthy(session) ==> r.Ok?
    ensures r.Ok? ==>
              var rows := OwnRows(db.transactions, db.categories, session.value);
              var es := Tabled(MonthEntries(rows, monthKey));
              var cs := Tabled(CategoryEntries(rows));
              var months := SortedMonths(FirstSeen(es));
              var last := ComparisonMonth(months);
              var lastMonthSpent := if last.Some? && last.value != "" then KeyTotal(es, last.value) else 0.0;
              && r.value.monthlyTrends == MonthBuckets(es)
              && r.value.topCategories == TopCategories(CategoryBuckets(cs))
              && r.value.summary.totalSpent == RowsTotal(rows)
              && r.value.summary.totalTransactions == |rows|
              && r.value.summary.avgTransactionAmount == Average(RowsTotal(rows), |rows|)
              && r.value.summary.currentMonthSpent == KeyTotal(es, monthKey(now))
              && r.value.summary.monthOverMonthChange == MonthOverMonthChange(KeyTotal(es, monthKey(now)), lastMonthSpent)
  {
    if !Truthy(session) {
      return Err(Unauthorized);
    }
    var rows := OwnRows(db.transactions, db.categories, session.value);
    r := Summarise(rows, now, monthKey);
  }

  /** The body of a successful GET, from the selected rows on. */
  method Summarise(rows: seq<Row>, now: Instant, monthKey: Instant -> string) returns (r: Result<Analytics>)
    ensures r.Ok?
    ensures var es := Tabled(MonthEntries(rows, monthKey));
            var cs := Tabled(CategoryEntries(rows));
            var months := SortedMonths(FirstSeen(es));
            var last := ComparisonMonth(months);
            var lastMonthSpent := if last.Some? && last.value != "" then KeyTotal(es, last.value) else 0.0;
            && r.value.monthlyTrends == MonthBuckets(es)
            && r.value.topCategories == TopCategories(CategoryBuckets(cs))
            && r.value.summary.totalSpent == RowsTotal(rows)
            && r.value.summary.totalTransactions == |rows|
            && r.value.summary.avgTransactionAmount == Average(RowsTotal(rows), |rows|)
            && r.value.summary.currentMonthSpent == KeyTotal(es, monthKey(now))
            && r.value.summary.monthOverMonthChange == MonthOverMonthChange(KeyTotal(es, monthKey(now)), lastMonthSpent)
  {
    ghost var es := Tabled(MonthEntries(rows, monthKey));
    var monthlyData, monthOrder, categoryData, categoryOrder := Aggregate(rows, monthKey);

    var monthlyTrends := seq(|monthOrder|, i requires 0 <= i < |monthOrder| => monthlyData[monthOrder[i]]);
    assert monthlyTrends == MonthBuckets(es);
    var categoryValues := seq(|categoryOrder|, i requires 0 <= i < |categoryOrder| => categoryData[categoryOrder[i]]);
    assert categoryValues == CategoryBuckets(Tabled(CategoryEntries(rows)));
    var topCategories := TopCategories(categoryValues);

    var totalSpent := RowsTotal(rows);
    var avgTransactionAmount := Average(totalSpent, |rows|);

    var currentMonthSpent, lastMonthSpent := MonthFigures(monthlyData, monthOrder, es, monthKey(now));
    var monthOverMonthChange := MonthOverMonthChange(currentMonthSpent, lastMonthSpent);

    r := Ok(Analytics(monthlyTrends, topCategories,
                      Summary(totalSpent, avgTransactionAmount, currentMonthSpent, monthOverMonthChange, |rows|)));
  }

  /**
   * The spending of the current month and of the comparison month (the
   * second-latest month key), each 0 when it has no bucket.
   */
  method MonthFigures(monthlyData: map<string, MonthBucket>, monthOrder: seq<string>, ghost es: seq<Entry>,
                      currentMonth: string)
    returns (currentMonthSpent: real, lastMonthSpent: real)
    requires monthOrder == FirstSeen(es)
    requires forall k :: k in monthlyData <==> k in monthOrder
    requires forall i :: 0 <= i < |monthOrder| ==> monthlyData[monthOrder[i]] == MonthBuckets(es)[i]
    ensures currentMonthSpent == KeyTotal(es, currentMonth)
    ensures var last := ComparisonMonth(SortedMonths(FirstSeen(es)));
            lastMonthSpent == if last.Some? && last.value != "" then KeyTotal(es, last.value) else 0.0
  {
    currentMonthSpent := if currentMonth in monthlyData then monthlyData[currentMonth].total else 0.0;
    LookupIsKeyTotal(monthlyData, monthOrder, es, currentMonth);

    var months := SortedMonths(monthOrder);
    var lastMonth := ComparisonMonth(months);
    lastMonthSpent := 0.0;
    if lastMonth.Some? && lastMonth.value != "" {
      assert lastMonth.value in multiset(months);
      LookupIsKeyTotal(monthlyData, monthOrder, es, lastMonth.value);
      lastMonthSpent := monthlyData[lastMonth.value].total;
    }
  }

  /** Looking a month up in the aggregated buckets gives its total, or 0 when it never occurs. */
  lemma LookupIsKeyTotal(monthlyData: map<string, MonthBucket>, months: seq<string>, es: seq<Entry>, key: string)
    requires months == FirstSeen(es)
    requires forall k :: k in monthlyData <==> k in months
    requires forall i :: 0 <= i < |months| ==> monthlyData[months[i]] == MonthBuckets(es)[i]
    ensures (if key in monthlyData then monthlyData[key].total else 0.0) == KeyTotal(es, key)
  {
    if key in monthlyData {
      var j :| 0 <= j < |months| && months[j] == key;
    } else {
      AbsentKey(es, key);
    }
  }

  /** The `reduce` of the route: the sum of the amounts. */
  function RowsTotal(rows: seq<Row>): real
  {
    if rows == [] then 0.0 else RowsTotal(rows[..|rows| - 1]) + rows[|rows| - 1].amount
  }

  /** Keying the rows does not change their total. */
  lemma {:induction false} EntriesTotal(rows: seq<Row>, monthKey: Instant -> string)
    ensures Total(MonthEntries(rows, monthKey)) == RowsTotal(rows)
    ensures Total(CategoryEntries(rows)) == RowsTotal(rows)
  {
    if rows != [] {
      var p := rows[..|rows| - 1];
      assert MonthEntries(rows, monthKey)[..|rows| - 1] == MonthEntries(p, monthKey);
      assert CategoryEntries(rows)[..|rows| - 1] == CategoryEntries(p);
      EntriesTotal(p, monthKey);
    }
  }

  // ----- Properties

  /** The sum of the amounts of the entries whose key is an inherited name. */
  function InheritedTotal(es: seq<Entry>): real
  {
    if es == [] then 0.0
    else InheritedTotal(es[..|es| - 1]) + (if IsInherited(es[|es| - 1].key) then es[|es| - 1].amount else 0.0)
  }

  /**
   * The tables lose exactly the entries with inherited names: those amounts
   * are missing from the tabled total, an inherited name never has a bucket,
   * and every other key keeps its full total and count.
   */
  lemma {:induction false} TabledKeys(es: seq<Entry>, k: string)
    ensures Total(Tabled(es)) + InheritedTotal(es) == Total(es)
    ensures IsInherited(k) ==> !HasKey(Tabled(es), k)
    ensures !IsInherited(k) ==> KeyTotal(Tabled(es), k) == KeyTotal(es, k) && KeyCount(Tabled(es), k) == KeyCount(es, k)
  {
    if es != [] {
      var p, x := es[..|es| - 1], es[|es| - 1];
      TabledKeys(p, k);
      var t := Tabled(p);
      assert Tabled(es) == if IsInherited(x.key) then t else t + [x];
      if !IsInherited(x.key) {
        AppendEntry(t, x);
        AppendEntryKeys(t, x);
      }
    }
  }

  /** Without inherited names, the tables see every entry. */
  lemma {:induction false} TabledWhenNoneInherited(es: seq<Entry>)
    requires forall i :: 0 <= i < |es| ==> !IsInherited(es[i].key)
    ensures Tabled(es) == es
  {
    if es != [] {
      var p := es[..|es| - 1];
      TabledWhenNoneInherited(p);
      assert es == p + [es[|es| - 1]];
    }
  }

  /**
   * The monthly totals and the category totals each add up to the total
   * spent less the amounts filed under an inherited name, and the counts to
   * the number of the other expenses; with no inherited name among the keys,
   * to the total spent and the number of expenses. The category buckets are
   * taken before the top eight are chosen.
   */
  lemma BucketsPartition(rows: seq<Row>, monthKey: Instant -> string)
    ensures var ms := Tabled(MonthEntries(rows, monthKey));
            && SumOfTotals(FirstSeen(ms), ms) == RowsTotal(rows) - InheritedTotal(MonthEntries(rows, monthKey))
            && SumOfCounts(FirstSeen(ms), ms) == |ms|
    ensures var cs := Tabled(CategoryEntries(rows));
            && SumOfTotals(FirstSeen(cs), cs) == RowsTotal(rows) - InheritedTotal(CategoryEntries(rows))
            && SumOfCounts(FirstSeen(cs), cs) == |cs|
    ensures (forall i :: 0 <= i < |rows| ==> !IsInherited(monthKey(rows[i].date))) ==>
              var ms := Tabled(MonthEntries(rows, monthKey));
              SumOfTotals(FirstSeen(ms), ms) == RowsTotal(rows) && SumOfCounts(FirstSeen(ms), ms) == |rows|
    ensures (forall i :: 0 <= i < |rows| ==> !IsInherited(rows[i].categoryName)) ==>
              var cs := Tabled(CategoryEntries(rows));
              SumOfTotals(FirstSeen(cs), cs) == RowsTotal(rows) && SumOfCounts(FirstSeen(cs), cs) == |rows|
  {
    var es, cs := MonthEntries(rows, monthKey), CategoryEntries(rows);
    GroupsPartition(Tabled(es));
    GroupsPartition(Tabled(cs));
    EntriesTotal(rows, monthKey);
    TabledKeys(es, "");
    TabledKeys(cs, "");
    if forall i :: 0 <= i < |rows| ==> !IsInherited(monthKey(rows[i].date)) {
      TabledWhenNoneInherited(es);
    }
    if forall i :: 0 <= i < |rows| ==> !IsInherited(rows[i].categoryName) {
      TabledWhenNoneInherited(cs);
    }
  }

  /** `row` carries the amount and date of an expense that `me` logged. */
  predicate FromOwnExpense(txs: seq<Transaction>, me: Id, row: Row)
  {
    exists tx :: tx in txs && tx.userId == me && tx.amount == row.amount && tx.date == row.date
  }

  /** Only the caller's expenses are aggregated, each exactly as stored. */
  lemma OnlyOwnExpenses(txs: seq<Transaction>, categories: seq<Category>, me: Id)
    requires CategoriesExist(txs, categories)
    ensures forall i :: 0 <= i < |OwnRows(txs, categories, me)| ==> FromOwnExpense(txs, me, OwnRows(txs, categories, me)[i])
  {
    RowsFromOwn(OwnTransactions(txs, me), txs, OwnRows(txs, categories, me), me);
  }

  lemma RowsFromOwn(own: seq<Transaction>, txs: seq<Transaction>, rows: seq<Row>, me: Id)
    requires forall x :: x in own ==> x in txs && x.userId == me
    requires |rows| == |own|
    requires forall i :: 0 <= i < |rows| ==> rows[i].amount == own[i].amount && rows[i].date == own[i].date
    ensures forall i :: 0 <= i < |rows| ==> FromOwnExpense(txs, me, rows[i])
  {
    forall i | 0 <= i < |rows| ensures FromOwnExpense(txs, me, rows[i]) {
      assert own[i] in own;
    }
  }

  /** The comparison month is not after any other key except the last one in sorted order. */
  lemma ComparisonMonthIsSecondLargest(sortedMonths: seq<string>)
    requires Sorted(sortedMonths, LessEq) && |sortedMonths| > 1
    ensures var m := ComparisonMonth(sortedMonths).value;
            && (forall j :: 0 <= j < |sortedMonths| - 1 ==> LessEq(sortedMonths[j], m))
            && LessEq(m, sortedMonths[|sortedMonths| - 1])
  {
    var n := |sortedMonths|;
    forall j | 0 <= j < n - 1 ensures LessEq(sortedMonths[j], sortedMonths[n - 2]) {
      if j < n - 2 {
        assert LessEq(sortedMonths[j], sortedMonths[n - 2]);
      } else {
        LessEqTotal(sortedMonths[j], sortedMonths[j]);
      }
    }
  }

  /**
   * The category buckets of the rows, in the order their names first appear
   * among the names that are not inherited: the k-th carries colour k mod 8,
   * and no bucket has an inherited name, so such a name takes no colour and
   * does not move the later ones.
   */
  lemma ColoursByFirstSeen(rows: seq<Row>)
    ensures var cs := Tabled(CategoryEntries(rows));
            forall i :: 0 <= i < |CategoryBuckets(cs)| ==>
              && CategoryBuckets(cs)[i].color == CategoryColors[i % 8]
              && CategoryBuckets(cs)[i].category == FirstSeen(cs)[i]
              && !IsInherited(CategoryBuckets(cs)[i].category)
  {
    var cs := Tabled(CategoryEntries(rows));
    var ks, b := FirstSeen(cs), CategoryBuckets(cs);
    assert |CategoryColors| == 8;
    forall i | 0 <= i < |b| ensures b[i].color == CategoryColors[i % 8] && b[i].category == ks[i] && !IsInherited(ks[i]) {
      assert HasKey(cs, ks[i]);
    }
  }

  /** A worked case: an expense in a category named "constructor", then one in "Food"; "Food" gets the first colour. */
  lemma InheritedNameExample()
    ensures var rows := [Row(5.0, 0, "constructor"), Row(3.0, 0, "Food")];
            CategoryBuckets(Tabled(CategoryEntries(rows))) == [CategoryBucket("Food", 3.0, 1, CategoryColors[0])]
  {
    var rows := [Row(5.0, 0, "constructor"), Row(3.0, 0, "Food")];
    var e1, e2 := Entry("constructor", 5.0), Entry("Food", 3.0);
    assert CategoryEntries(rows) == [e1] + [e2];
    ExampleNames();
    TabledDropsInherited(e1, e2);
    SingleEntryBuckets(e2);
  }

  lemma ExampleNames()
    ensures IsInherited("constructor") && !IsInherited("Food")
  {
  }

  lemma TabledDropsInherited(e1: Entry, e2: Entry)
    requires IsInherited(e1.key) && !IsInherited(e2.key)
    ensures Tabled([e1] + [e2]) == [e2]
  {
    TabledAppend([], e1);
    assert [] + [e1] == [e1];
    TabledAppend([e1], e2);
  }

  lemma SingleEntryBuckets(e: Entry)
    ensures CategoryBuckets([e]) == [CategoryBucket(e.key, e.amount, 1, CategoryColors[0])]
  {
    AppendEntry([], e);
    assert [] + [e] == [e];
  }
}
