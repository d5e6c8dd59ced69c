# FinanceManager core, modelled in Dafny

FinanceManager is a web application for couples. Each user logs expenses in
their own categories. Two users can link as partners through an invite. A
shared expense records who paid it: the caller, the partner, or `"split"` for
a 50/50 expense. Older rows may carry the legacy marker `"partner"`, meaning
"the logger's partner paid". The balance between the partners is the signed
amount one owes the other. Settling up clears the outstanding shared expenses
by attaching them to a settlement record. The analytics page groups a user's
spending by month and by category.

This project models the server side of that logic:

- the settlements, balance, transactions, partner, analytics, categories and
  sign-up route handlers;
- the month-range helper;
- the environment configuration.

The relational store becomes one `Db` object (module `Store`). Its five tables
are sequence fields in insertion order. A query's `where` clause becomes a
predicate over rows:

- `findFirst` returns the first matching row.
- `findMany` with `orderBy` is a stable sort of the matching rows.
- `create` appends a row whose id is fresh.

Every state-changing handler is a method that `modifies` the database. Each
one keeps the database invariant `Db.Valid()`, which requires:

- unique ids and unique emails;
- every foreign key refers to a row that exists;
- each user's category names are pairwise distinct.

Its `ensures` clauses state each guard's error response and the exact new
table contents. The `forEach` accumulations are loop methods. Each is proved
equal to a recursive specification function:

- `Ledger.Totals` for the payer classification;
- `Grouping.FirstSeen`, `KeyTotal` and `KeyCount` for the group-by.

The properties of those functions are proved as lemmas:

- order independence;
- the balance formula and its antisymmetry between the partners;
- bounds;
- that the groups partition the total.

Modules: `Wrappers`, `Text`, `Sequences`, `Schema`, `Store` (shared), `Ledger`
(the split arithmetic), `Grouping` (group-by), and one module per source file:
`SettlementsRoute`, `BalanceRoute`, `TransactionsRoute`, `PartnerRoute`,
`AnalyticsRoute`, `CategoriesRoute`, `SignupRoute`, `Dates`, `Env`.

Two behaviours of the code are worth stating outright, because a reader
might expect otherwise:

- **Settled expenses in the balance report.** The balance route counts every
  shared expense of the pair, settled or not (app/api/balance/route.ts:40-48).
  Only the settle-up route filters on the settlement reference
  (app/api/settlements/route.ts:100-105). `BalanceRoute.SettleLeavesReportUnchanged`
  proves that a settle-up leaves the balance report's count and figures
  unchanged.
- **One step for settle-up.** The code creates the settlement and connects the
  rows in a single nested `create` (app/api/settlements/route.ts:120-132). The
  model treats that call as one step (`SettlementsRoute.Commit`).
- **Plain-object tables in analytics.** `monthlyData` and `categoryData` are
  plain objects (app/api/analytics/route.ts:29-32). A key that names a member
  inherited from `Object.prototype`, such as `"constructor"` or `"toString"`,
  is found by the truthiness lookup (route.ts:59, 67), so it never gets a
  bucket of its own and does not take a colour. `AnalyticsRoute.Tabled` keeps
  the entries that do reach the tables. Every statement about the buckets is
  made over those entries.

## Model

| member | source | states |
|---|---|---|
| Ledger.ClassifyRules | app/api/settlements/route.ts:15-29 | "split" always wins, then the caller's id, then the partner's id; the legacy "partner" marker credits the partner exactly when the caller logged the row; any other payer, absent included, lands in no bucket |
| Ledger.ContributionRules | app/api/settlements/route.ts:15-29 | one expense feeds at most one bucket; a split expense counts at half its amount; a dropped one contributes nothing |
| Ledger.Balance | app/api/settlements/route.ts:31-34 | the balance `myPaid + split/2 - total/2` equals `(myPaid - partnerPaid)/2`, so split expenses never move it |
| Ledger.TotalsAppend | app/api/settlements/route.ts:15-29 | the fold over a concatenation is the sum of the folds over the parts |
| Ledger.TotalsPermutation | app/api/settlements/route.ts:15-29 | the figures do not depend on the order of the transaction list (any permutation gives the same totals) |
| Ledger.TotalsSwapped | app/api/settlements/route.ts:15-29 | swapping caller and partner swaps `myPaid` and `partnerPaid` and keeps `splitAmount` |
| Ledger.SwapRoles | app/api/settlements/route.ts:15-34 | swapping caller and partner negates the balance and keeps `totalShared` |
| Ledger.TotalsNonNegative | app/api/settlements/route.ts:15-29 | with non-negative amounts every accumulator stays non-negative |
| Ledger.TotalsBounds | app/api/settlements/route.ts:15-34 | with non-negative amounts `totalShared >= 0` and the balance lies within plus or minus half of it |
| Ledger.TotalsWhenCallerPaid | app/api/settlements/route.ts:15-29 | when the caller paid every row, `myPaid` is the sum of the amounts and the other buckets are 0 |
| Ledger.OnlyCallerPaid | app/api/settlements/route.ts:15-34 | when the caller paid everything, the balance is half the total: the partner owes half |
| Ledger.TotalsWhenAllSplit | app/api/settlements/route.ts:15-29 | when every row is split, `splitAmount` is half the sum and the payer buckets are 0 |
| Ledger.OnlySplit | app/api/settlements/route.ts:15-34 | when every row is split, the balance is 0 and `totalShared` is half the sum |
| Ledger.CallerAndPartnerExample | app/api/settlements/route.ts:6-37 | a worked case: 100 paid by the caller and 40 by the partner give total 140 and balance 30 |
| SettlementsRoute.CalculateSplit | app/api/settlements/route.ts:6-37 | the `forEach` loop returns exactly `Balance` and `TotalShared` of `Totals` over the list |
| SettlementsRoute.LatestSettlements | app/api/settlements/route.ts:59-66 | at most 20 of the link's settlements, newest first, each taken no more often than it occurs among them (sub-multiset); no settlement of the link left out is newer than one listed; the count is min(20, the link's settlements) |
| SettlementsRoute.Get | app/api/settlements/route.ts:39-66 | 401 without a session; 404 "No active partner" without an accepted link; otherwise the latest listing for the first accepted link |
| SettlementsRoute.ConnectReachesExactlyUnsettled | app/api/settlements/route.ts:100-126 | with distinct ids, a row's id is among the connected ids exactly when it is a shared, unsettled row logged by the caller or the partner |
| SettlementsRoute.Post | app/api/settlements/route.ts:75-148 | 401; 404 "No active partner"; 400 "Nothing to settle" exactly when no shared unsettled row of the pair exists, and Ok whenever one does; on error nothing changes; on success one fresh settlement whose snapshot is the split balance of those rows, every one of them (and no other row) now refers to it, none of the pair's shared rows is left unsettled, the receipt counts them and carries `totalShared`; the database stays valid |
| SettlementsRoute.Connect | app/api/settlements/route.ts:125-127 | the connect loop sets the settlement reference of exactly the rows whose ids are listed and keeps every other field |
| SettlementsRoute.Settled | app/api/settlements/route.ts:100-127 | the table after a settle-up: each row of the pair that was shared and unsettled now has the new settlement id, every other row is unchanged |
| SettlementsRoute.ConnectIsSettled | app/api/settlements/route.ts:100-127 | the loop's result is exactly `Settled` |
| SettlementsRoute.NothingLeftToSettle | app/api/settlements/route.ts:100-127 | after a settle-up the pair has no shared unsettled row, so an immediate second settle-up fails with "Nothing to settle" |
| SettlementsRoute.SettleKeepsValid | app/api/settlements/route.ts:120-132 | the new settlement refers to an existing link and the connected rows to an existing settlement |
| SettlementsRoute.Commit | app/api/settlements/route.ts:120-132 | the settlement is appended and the connected table replaces the old one; everything else is unchanged |
| BalanceRoute.Get | app/api/balance/route.ts:7-99 | 401 without a session; 404 "No active partner found" exactly when the caller has no accepted link; with a session and such a link the answer is Ok and is `Report` for the first accepted link, whose partner is a stored user |
| BalanceRoute.Respond | app/api/balance/route.ts:34-99 | the report holds `Totals` over every shared row of the pair (settled ones included), the derived `totalShared` and balance, the partner's public fields and the row count |
| BalanceRoute.Tally | app/api/balance/route.ts:50-72 | the inlined loop computes exactly `Totals` of the rows |
| BalanceRoute.PartnerExists | app/api/balance/route.ts:34-89 | with the link table's foreign keys, the partner of an accepted link is a stored user |
| BalanceRoute.UnsettledWithinShared | app/api/balance/route.ts:40-48 | the settle-up selection is the balance selection restricted to unsettled rows |
| BalanceRoute.TotalsIgnoreSettlement | app/api/balance/route.ts:50-72 | the figures do not read the settlement reference |
| BalanceRoute.SettledSelection | app/api/balance/route.ts:40-48 | after a settle-up the balance selection holds the same rows apart from their settlement reference |
| BalanceRoute.SettleLeavesReportUnchanged | app/api/balance/route.ts:40-99 | a settle-up changes neither the balance report's row count nor its figures |
| TransactionsRoute.DerivedViewMode | app/api/transactions/route.ts:20-27 | a truthy `viewMode` is used as given; otherwise the mode is "shared" exactly when `isShared` is "true" and "personal" exactly when it is "false"; the mode is never empty |
| TransactionsRoute.VisibilityFilter | app/api/transactions/route.ts:49-78 | the where clause built by the reassignments admits exactly the rows `Visible` names for the mode and the optional partner |
| TransactionsRoute.OtherModesShowAll | app/api/transactions/route.ts:53-78 | a mode other than "personal" and "shared" behaves as "all" |
| TransactionsRoute.VisibilityRules | app/api/transactions/route.ts:49-78 | a visible row not logged by the caller is a shared row of the active partner; "personal" shows exactly the caller's unshared rows; without a partner only the caller's rows show; the caller's shared rows show in every mode but "personal" |
| TransactionsRoute.BuildWhere | app/api/transactions/route.ts:80-96 | the pushed filters, joined by AND when more than one, admit exactly the rows that are visible, in the category when one is given, and within the given date bounds |
| TransactionsRoute.Listing | app/api/transactions/route.ts:98-105 | the rows the clause admits and no others, each exactly as often as it is stored (multiset), latest date first |
| TransactionsRoute.Get | app/api/transactions/route.ts:7-105 | 401 exactly without a session; with a session always Ok: exactly the stored rows that match the query for the caller and their active partner, each as often as stored, latest first |
| TransactionsRoute.NormalizedPaidByRules | app/api/transactions/route.ts:156-167 | unshared rows store no payer; "split" and the caller's own id are kept; any other truthy payer except "partner" is kept; otherwise the active partner's id, or no payer without a partner |
| TransactionsRoute.NormalizedNeverLegacy | app/api/transactions/route.ts:156-167 | with well-formed ids the stored payer is never the legacy "partner" marker |
| TransactionsRoute.Post | app/api/transactions/route.ts:117-183 | 401; 400 "Missing required fields" when amount (0 included), description, date or category is falsy; 400 "Invalid category" exactly when the category does not exist or belongs to another user; Ok whenever the fields are present and the category is the caller's; on success one appended row with a fresh id, the caller as owner, the normalised payer, no settlement; on error nothing changes; the database stays valid |
| TransactionsRoute.PayerWellFormed | app/api/transactions/route.ts:156-167 | for a caller who owns a category, the normalised payer is never the legacy marker |
| TransactionsRoute.InsertKeepsValid | app/api/transactions/route.ts:169-183 | a row with a fresh id, an existing category and no settlement keeps the transaction table valid |
| TransactionsRoute.Append | app/api/transactions/route.ts:169-183 | the row is appended and the other tables are unchanged |
| PartnerRoute.Status | app/api/partner/route.ts:15-46 | `activePartner` is exactly the first accepted link of the caller (`FindAcceptedLink`), and `isCoupleMode` holds exactly when there is one; the pending invites hold each pending link on either side exactly as often as it is stored, and no other link |
| PartnerRoute.Get | app/api/partner/route.ts:7-46 | 401 exactly without a session; otherwise the caller's status |
| PartnerRoute.InviteKeepsPendingPairsUnique | app/api/partner/route.ts:126-163 | because of the "Invite already sent" guard, no two pending links ever join the same pair of users |
| PartnerRoute.FindPendingBetween | app/api/partner/route.ts:127-142 | none exactly when no pending link joins the two users in either direction; otherwise a pending link joining them, and the first such link in the table |
| PartnerRoute.Post | app/api/partner/route.ts:57-165 | the guards in order: 401, 400 "Partner email is required", 400 "You already have an active partner", 404 "User with this email not found", 400 "You cannot invite yourself", 400 "This user already has an active partner", 400 "Invite already sent", and 500 when the caller is not a stored user; on success one pending link from caller to invitee, invited by the caller, with a fresh id; pending pairs stay unique; the database stays valid |
| PartnerRoute.InviteKeepsValid | app/api/partner/route.ts:152-163 | the new link refers to stored users and keeps link ids distinct |
| PartnerRoute.AddLink | app/api/partner/route.ts:152-163 | the link is appended and the other tables are unchanged |
| Grouping.FirstSeen | app/api/analytics/route.ts:59-75 | the distinct group keys, in order of first appearance, without duplicates |
| Grouping.AbsentKey | app/api/analytics/route.ts:96 | a key that never occurs has total 0 and count 0 |
| Grouping.SumsAppend | app/api/analytics/route.ts:59-77 | the sums over keys extend by the new key's total and count |
| Grouping.SumsStep | app/api/analytics/route.ts:59-77 | one more entry adds its amount to the group sums exactly once |
| Grouping.AppendEntry | app/api/analytics/route.ts:59-77 | appending one entry adds its key to the first-seen order only when it is new, and adds its amount and one to its own key's total and count only |
| Grouping.GroupsPartition | app/api/analytics/route.ts:59-87 | the groups partition the rows: the group totals add up to the total spent and the group counts to the number of rows |
| AnalyticsRoute.OwnTransactions | app/api/analytics/route.ts:16-26 | exactly the caller's rows, each as often as it is stored (multiset), oldest first |
| AnalyticsRoute.Join | app/api/analytics/route.ts:20-66 | each row paired with its category's name |
| AnalyticsRoute.MonthEntries | app/api/analytics/route.ts:54-57 | each row keyed by its month label |
| AnalyticsRoute.CategoryEntries | app/api/analytics/route.ts:66 | each row keyed by its category name |
| AnalyticsRoute.Tabled | app/api/analytics/route.ts:59-77 | the entries that reach the tables: none of them has an inherited name as its key |
| AnalyticsRoute.TabledAppend | app/api/analytics/route.ts:59-77 | one more entry reaches the tables exactly when its key is not an inherited name, after the entries that reached them before |
| AnalyticsRoute.TabledKeys | app/api/analytics/route.ts:59-87 | the tables lose exactly the entries filed under inherited names: the tabled total plus those amounts is the whole total, an inherited name has no bucket, and every other key keeps its full total and count |
| AnalyticsRoute.TabledWhenNoneInherited | app/api/analytics/route.ts:59-77 | without inherited names every entry reaches the tables |
| AnalyticsRoute.AddToMonth | app/api/analytics/route.ts:59-63 | one loop step keeps the month table equal to the buckets of the rows seen so far whose label is not an inherited name; a row whose label is inherited leaves the table as it was |
| AnalyticsRoute.PutMonth | app/api/analytics/route.ts:59-63 | creating the month's bucket when it has none and then adding the expense keeps the month table equal to the buckets of the entries seen, the new one included |
| AnalyticsRoute.AddToCategory | app/api/analytics/route.ts:67-77 | one loop step keeps the category table and the colour counter equal to the buckets of the rows seen so far whose name is not inherited; a row whose name is inherited creates no bucket and does not advance the colour counter |
| AnalyticsRoute.PutCategory | app/api/analytics/route.ts:67-77 | a new name gets a bucket with the next colour and the counter advances; then the expense is added; the category table stays equal to the buckets of the entries seen, the new one included |
| AnalyticsRoute.Aggregate | app/api/analytics/route.ts:46-78 | the `forEach` builds exactly `MonthBuckets` and `CategoryBuckets` over the rows that reach the tables (`Tabled`): keys in first-seen order, per-key totals and counts, colours cycling by first appearance |
| AnalyticsRoute.TopCategories | app/api/analytics/route.ts:82-84 | min(8, buckets) buckets, each taken no more often than it occurs (sub-multiset), by descending total; no bucket left out has a larger total than one kept |
| AnalyticsRoute.Average | app/api/analytics/route.ts:88-90 | 0 with no rows, otherwise the value whose product with the count is the total |
| AnalyticsRoute.SortedMonths | app/api/analytics/route.ts:99 | the month labels rearranged (same multiset) into code-point order |
| AnalyticsRoute.ComparisonMonth | app/api/analytics/route.ts:100 | a comparison month exists exactly when there are two or more months, and it is one of them |
| AnalyticsRoute.ComparisonMonthIsSecondLargest | app/api/analytics/route.ts:99-100 | the comparison month is the second largest label: at least every label before it and at most the last one |
| AnalyticsRoute.MonthOverMonthChange | app/api/analytics/route.ts:101-104 | 0 unless the comparison month spent more than 0; otherwise the percentage change from it |
| AnalyticsRoute.Get | app/api/analytics/route.ts:7-116 | 401 exactly without a session; with a session always Ok: the month trends, the top categories over the tabled rows, the total and average over all the caller's rows, the current month's total (0 when absent), the month-over-month change and the row count |
| AnalyticsRoute.Summarise | app/api/analytics/route.ts:80-116 | always Ok: the trends are the month buckets and the top categories are taken from the category buckets of the tabled rows; total, average and count cover every row; the current month and the month-over-month change come from the per-month totals |
| AnalyticsRoute.MonthFigures | app/api/analytics/route.ts:92-101 | the current month's spending is its total (0 when it has no bucket); the comparison month's is its total when a non-empty comparison month exists, and 0 otherwise |
| AnalyticsRoute.LookupIsKeyTotal | app/api/analytics/route.ts:96-101 | reading a key from the aggregated table (0 when absent) gives that key's total |
| AnalyticsRoute.EntriesTotal | app/api/analytics/route.ts:87 | both keyings of the rows add up to the `reduce` total |
| AnalyticsRoute.BucketsPartition | app/api/analytics/route.ts:46-87 | the month buckets and the category buckets each add up to the total spent less the amounts filed under an inherited name, and their counts to the number of tabled rows; with no inherited name, to the total spent and the row count |
| AnalyticsRoute.OnlyOwnExpenses | app/api/analytics/route.ts:16-19 | every aggregated amount comes from a row the caller logged |
| AnalyticsRoute.ColoursByFirstSeen | app/api/analytics/route.ts:67-75 | the k-th category among the names that are not inherited, in order of first appearance, gets colour k mod 8; no bucket carries an inherited name, so such a name does not shift the later colours |
| AnalyticsRoute.InheritedNameExample | app/api/analytics/route.ts:67-77 | a worked case: an expense in "constructor" and then one in "Food" give a single bucket, "Food", with the first colour |
| CategoriesRoute.OwnCategories | app/api/categories/route.ts:13-16 | exactly the caller's categories, each as often as it is stored (multiset), ordered by name |
| CategoriesRoute.Get | app/api/categories/route.ts:6-18 | 401 exactly without a session; with a session always Ok with the caller's categories by name |
| CategoriesRoute.FindNamed | app/api/categories/route.ts:45-50 | finds the caller's category with exactly that name when one exists |
| CategoriesRoute.NewNameKeepsNamesUnique | app/api/categories/route.ts:45-64 | a name the owner does not already use keeps each user's category names distinct |
| CategoriesRoute.Post | app/api/categories/route.ts:28-66 | 401; 400 "Category name is required" exactly when the name is falsy or blank after trimming; 400 "Category already exists" exactly when the caller already has the trimmed name; 500 when the caller is not a stored user; Ok whenever none of these applies; on success one category with a fresh id, the trimmed name and the caller as owner; the database, per-user name uniqueness included, stays valid |
| CategoriesRoute.NewCategoryKeepsValid | app/api/categories/route.ts:59-64 | the new category keeps the category table valid |
| CategoriesRoute.AddCategories | app/api/categories/route.ts:59-64 | the rows are appended and the other tables are unchanged |
| Text.Trim | app/api/categories/route.ts:37-61 | the result is a slice `s[i..j]` of the input with only white space before `i` and from `j` on; it is empty exactly when the input is all white space, and otherwise starts and ends with a non-white-space character |
| Text.TrimIdempotent | app/api/categories/route.ts:37-61 | trimming a trimmed name changes nothing |
| SignupRoute.FreshIds | app/api/auth/signup/route.ts:51-56 | the bulk insert mints pairwise distinct ids, none of them already used |
| SignupRoute.DefaultRows | app/api/auth/signup/route.ts:41-57 | one row per default name, in order, all owned by the new user, with fresh distinct ids |
| SignupRoute.Post | app/api/auth/signup/route.ts:5-62 | 400 "Email and password are required" exactly when either is falsy; 400 "User already exists" exactly when the email is taken; Ok whenever both are given and the email is unused; on error nothing changes; on success one new user with a fresh id, the given email, the hash of the password as the stored password and no name when the given name is falsy; the new user owns exactly the eight default categories, in the listed order; the database stays valid |
| SignupRoute.NewUserKeepsValid | app/api/auth/signup/route.ts:32-38 | a user with a fresh id and an unused email keeps the database valid |
| SignupRoute.DefaultsKeepValid | app/api/auth/signup/route.ts:41-57 | the default rows keep category ids distinct and each user's names distinct |
| SignupRoute.OnlyDefaultsOwned | app/api/auth/signup/route.ts:41-57 | after sign-up the new user owns exactly the default rows |
| SignupRoute.AddUser | app/api/auth/signup/route.ts:32-38 | the user is appended and the other tables are unchanged |
| Dates.MakeDate | lib/utils.ts:22-23 | the normalisation of the `Date` fields once the year is fixed (month carry, day carry, day 0) always yields a valid calendar day |
| Dates.NewDate | lib/utils.ts:22-23 | `new Date(year, month, day)`: the two-digit year rule, then the normalisation; the result is always a valid calendar day |
| Dates.DayZeroIsLastDay | lib/utils.ts:23 | day 0 of the following month is the last day of the month, and for December it stays in the same year |
| Dates.YearLength | lib/utils.ts:23 | the month lengths add up to 366 days in a Gregorian leap year and 365 otherwise |
| Dates.PaddedValue | lib/utils.ts:25-26 | zero-padded digits read back as the number |
| Dates.ValuePadded | lib/utils.ts:25-26 | a digit string is the padding of its value |
| Dates.ParseRendered | lib/utils.ts:25-26 | a rendered YYYY-MM-DD date reads back as the same date |
| Dates.RenderedParse | lib/utils.ts:25-26 | a string that reads as a date is exactly that date's rendering |
| Dates.SameMonthPrefix | lib/utils.ts:25-26 | two days of one month share the `YYYY-MM-` prefix |
| Dates.MonthDateRange | lib/utils.ts:19-28 | `start` reads as day 1 and `end` as the last day (31, 30, 29 or 28) of the input's month, in the year the `Date` constructor uses (1900 + year for years 0 to 99); both share the same `YYYY-MM-` prefix |
| Dates.TwoDigitYears | lib/utils.ts:19-28 | a date in the years 0 to 99 gets the range of the same month in 1900 + year, starting on day 1 of that year |
| Dates.RangeIsOrdered | lib/utils.ts:19-28 | `start` comes strictly before `end` in string order |
| Env.EnsureEnv | lib/env.ts:6-17 | a set variable is used as it is, in every mode; the fallback is used only when the variable is unset and not in production; an empty or missing result throws the exact "Missing required environment variable" message |
| Env.LoadConfig | lib/env.ts:3-27 | `NODE_ENV` defaults to "development" and `isProduction` means it is "production"; `DATABASE_URL` is read first, with fallback `file:./dev.db`; `DIRECT_DATABASE_URL` defaults to the resolved `DATABASE_URL`, and a set empty value is kept; the secret falls back to the random value; it loads exactly when both reads succeed, and otherwise the error is the message of the first read that fails |
| Env.ProductionConfig | lib/env.ts:3-27 | in production the configuration loads exactly when both required variables are set and non-empty, and then uses them as given |
| Sequences.Filter | app/api/transactions/route.ts:98-105 | membership holds exactly for the elements the predicate accepts, each kept exactly as often as it occurs (multiset); the result is empty exactly when none is accepted |
| Sequences.FilterAppend | app/api/transactions/route.ts:98-105 | filtering a concatenation gives the filtered parts one after the other, so the kept elements keep their order |
| Sequences.FilterOne | app/api/transactions/route.ts:98-105 | a single element is kept exactly when the predicate accepts it |
| Sequences.SortBy | app/api/transactions/route.ts:104 | a permutation of the input that is sorted by the given total preorder |
| Sequences.SortedPrefix | app/api/settlements/route.ts:64-65 | the first n elements of a sorted permutation stay sorted, and every element left out may come after each kept one |
| Store.FindAcceptedLink | app/api/settlements/route.ts:46-53 | none exactly when no link is accepted with the user on either side; otherwise an accepted link of the user with no accepted link of theirs before it: the first one |
| Store.FindUserByEmail | app/api/partner/route.ts:91-93 | the user with this email, none exactly when no user has it |
| Store.PartnerOf | app/api/settlements/route.ts:95-98 | the other member of a link the user belongs to, never the user when the members differ |
| Schema.FreshId | app/api/transactions/route.ts:169-178 | a well-formed id, never "split" or "partner", used by no existing row |

## Left out

- HTTP and JSON plumbing, the session lookup and the catch-all 500 for store failures other than a missing caller row are not modelled. The caller's id is a parameter, and an absent or empty id is the 401 path.
- The `include` projections of related rows, such as `settledBy`, `user` and `category` with selected fields, are left out. Routes return rows; the balance report carries the partner's public fields.
- bcrypt is a parameter `hash`. SignupRoute.Post: states that the stored password is `hash(password)` but not that it differs from the plaintext, because that depends on bcrypt.
- Clock and locale are parameters: `now`, `monthKey` (the `toLocaleDateString` month label) and `parseDate` (`new Date(string)`). Invalid dates, `NaN` comparisons and the time-zone shift that `toISOString` adds outside UTC are not modelled. Dates.MonthDateRange: requires a year from 0 to 9999, which `toISOString` renders as four digits, and takes the input as calendar fields in UTC.
- Amounts are exact reals. `parseFloat` of string amounts and floating-point rounding are not modelled.
- Concurrency is not modelled, so two racing settle-ups cannot both claim the same rows here.
- The unseen `[id]` routes are not modelled: invite accept and reject, transaction delete, category rename and delete.
- Prisma's order among rows that tie on the `orderBy` key is unspecified. The model keeps insertion order (a stable sort).
- String order is by code point (`Text.LessEq`). JavaScript's default `sort` compares UTF-16 code units, so it puts a character above U+FFFF before one in U+E000 to U+FFFF; the model puts it after. The database's collation for `orderBy: { name: "asc" }` may differ from both.
- AnalyticsRoute.AddToCategory: for a key that is an inherited name, the source adds `total` and `count` onto the inherited `Object.prototype` member. The model leaves that write out; it changes no bucket of the table. The same holds for AddToMonth.
- Status: the pending-invites `findMany` (app/api/partner/route.ts:29-40) has no `orderBy`. The model lists those links in table order.
- AnalyticsRoute.Get: `Object.values` and `Object.keys` put integer-like keys first. The model keeps first-seen order for all keys. Month labels and category names are assumed not to look like integers.
- AnalyticsRoute.Get: requires only that every row's category exists, not the whole database invariant.
- BalanceRoute.Get: requires only the link table's foreign keys, not the whole database invariant.
- BalanceRoute.Tally: the loop is inlined in the handler at app/api/balance/route.ts:55-72. Here it is a separate method.
- Ledger.SwapRoles: also requires every row to be logged by the caller or the partner. A legacy "partner" row logged by a third user breaks the antisymmetry. Both routes only ever select rows of the pair.
- Env.LoadConfig: `randomBytes(32)` is a parameter `randomSecret`.
- The environment is read at module load and a failed read throws at import time. Here that is an explicit `LoadThrown` outcome.
