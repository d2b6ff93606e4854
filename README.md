# Expense Tracker — a Dafny model of the server core

The Expense Tracker is a small Flask service. Users register and log in. Each
request names its caller in a `User-Id` header. A user records expenses
(amount, description, category, date) and income (amount, description, date),
and reads them back. The service also serves a dashboard (totals, balance,
a per-category breakdown, the five most recent transactions), the data behind
six charts (category and source breakdowns, monthly and daily buckets,
income against expenses per month), and the totals of a PDF report.

This project models the server logic of `app.py` in Dafny and proves what its
handlers promise. It has these modules:

- `Identity` (identity.dfy): resolving the `User-Id` header through Python's
  `int()`, and the `if not user_id` guard.
- `Dates` (dates.dfy): naive timestamps, their chronological order, the
  `%Y-%m` / `%Y-%m-%d` bucket keys, and the best-effort date parsing of the
  create and update handlers.
- `Records` (records.dfy): the three tables' rows, the request bodies (a field
  is `None` when its key is absent), and the error answers.
- `Grouping` (grouping.dfy): the "add into a dict" loop every breakdown uses,
  with its sums and totals.
- `Ordering` (ordering.dfy): `sorted()`, the `[-7:]` and `[:5]` slices, and
  the stable newest-first sort.
- `Aggregate` (aggregate.dfy): the dashboard and chart computations.
- `Tracker` (tracker.dfy): the class `Store`, which holds the three tables.
  Its methods are the request handlers, and its invariant `Valid()` is the
  database's primary-key and unique constraints.

Amounts are whole cents (`int`). Opaque library calls are parameters:
- the SHA-256 password hash is `hash: string -> string`;
- `datetime.fromisoformat` is `fromIso: Parser`;
- the insertion time `datetime.utcnow()` is `now`;
- whether reportlab imported is `available`.

Two behaviours of the code are kept as written:
- No handler checks that the header's user id names an existing user. Any
  non-zero integer is accepted as an identity.
- The chart handlers answer an unidentified caller with "no image"
  (`{'image': None}`), not with 401.

## Model

| member | source | states |
|---|---|---|
| Identity.StripShape | app.py:111 | `int()` strips the text first: the stripped text has no whitespace at either end, is empty exactly when the text is all whitespace, and is the text itself when that has no whitespace at its ends |
| Identity.SignedShape | app.py:110-113 | on stripped text `int()` succeeds exactly when what follows one optional sign is a digit run (single underscores between digits allowed), and only a leading `-` gives a negative value |
| Identity.ParseInt | app.py:110-113 | `int()` of text that is blank after stripping fails; a successful parse implies the text holds a digit |
| Identity.CurrentUserId | app.py:104-113 | an absent or empty header gives no identity; any other header gives exactly what `int()` makes of it |
| Identity.ParseIntText | app.py:110-111 | `int(str(n)) == n` for every integer `n`, negative ones included |
| Identity.NatTextValue | app.py:111 | the decimal digits of `str(n)` read back as `n` |
| Identity.ParseNegative | app.py:111 | a minus sign followed by digits parses to the negated value |
| Identity.HeaderResolves | app.py:104-113 | the header `str(n)` resolves to `n`, and the `if not user_id` guard accepts it exactly when `n != 0` |
| Identity.NoDigitRefused | app.py:104-113 | a header without any digit is refused by every handler's guard |
| Dates.OrdinalOrder | app.py:390 | the sort key of a timestamp is smaller exactly when the timestamp is chronologically earlier, and equal exactly when the timestamps are equal; so sorting by it sorts by `isoformat()` |
| Dates.BucketKeysChronological | app.py:504-511 | a smaller month (day) key means an earlier timestamp, and equal keys mean the same calendar month (day) |
| Dates.MonthKey | app.py:504 | the key's digits are the year followed by the two-digit month, as in `strftime('%Y-%m')` |
| Dates.DayKey | app.py:615 | the key's digits are the year, the two-digit month and the two-digit day, as in `strftime('%Y-%m-%d')` |
| Dates.ReplaceChar | app.py:199-200 | after replacing every `Z` by `+00:00` no `Z` is left; text without a `Z` is unchanged |
| Dates.ParseIso | app.py:199-202 | both branches of the `'Z' in` test hand the parser the text with every `Z` rewritten to `+00:00`; text without a `Z` goes to the parser unchanged |
| Dates.ResolveDate | app.py:196-207 | a given datetime is taken as is; text that parses gives the parsed date; text that fails to parse leaves the fallback |
| Records.View | app.py:47-53 | `to_dict()` carries id, username, email and creation time, and never the password hash |
| Grouping.FirstSeen | app.py:358-363 | the dict's keys: all different, and a key is present exactly when some pair carries it |
| Grouping.Accumulate | app.py:358-363 | after the loop the keys are in order of first appearance, a key has a sum exactly when it occurs, and each sum is the total of that key's amounts |
| Grouping.TallyTotal | app.py:358-363 | the per-key sums add up to the total of all amounts |
| Grouping.BucketsTotal | app.py:510-512 | over any list of distinct keys covering every pair, the per-key sums add up to the total |
| Grouping.UnseenKeySumsZero | app.py:668 | a key no pair carries sums to 0, the `defaultdict` default |
| Grouping.PerKeyUnseen | app.py:682-684 | a column entry for a key that never occurs is 0 |
| Ordering.SortAsc | app.py:511 | `sorted()`: ascending, and a permutation of its input |
| Ordering.SortedKeys | app.py:511 | sorting distinct keys gives each key once, strictly ascending |
| Ordering.LastN | app.py:622 | for `n > 0`, `s[-n:]` has `min(n, len(s))` elements and is a suffix of `s` |
| Ordering.LastNKeepsGreatest | app.py:622 | `[-7:]` of ascending keys keeps the greatest ones: every dropped key is below every kept key, and something is dropped only when 7 are kept |
| Ordering.PerKeyLastN | app.py:622-623 | cutting the sorted keys and then reading their sums equals cutting the list of sums |
| Ordering.Take | app.py:391 | `s[:n]` has `min(n, len(s))` elements and is a prefix of `s` |
| Ordering.SortNewestFirst | app.py:390 | a descending sort by date that is a permutation of its input |
| Ordering.InsertStable | app.py:390 | inserting an element places it after every element of the same date already there |
| Ordering.SortStable | app.py:390 | the sort is stable, as Python's `sort(reverse=True)` is: for every date, the elements with that date keep their input order |
| Ordering.TakeNewest | app.py:391 | cutting a newest-first list keeps it newest first; nothing dropped is newer than anything kept |
| Ordering.Newest | app.py:366-367 | `order_by(date.desc()).limit(n)`: `min(n, len)` rows, newest first, all taken from the input, and no row left out is newer than a row kept |
| Aggregate.ExpenseTotalConcat | app.py:353 | `sum(expense.amount ...)` of two lists run together is the sum of their totals |
| Aggregate.IncomeTotalConcat | app.py:354 | `sum(income.amount ...)` of two lists run together is the sum of their totals |
| Aggregate.ExpensePairsTotal | app.py:353 | the amounts paired with any key add up to `sum(expense.amount ...)` |
| Aggregate.IncomePairsTotal | app.py:354 | the amounts paired with any key add up to `sum(income.amount ...)` |
| Aggregate.ExpenseKeys | app.py:359-363 | a key occurs in the expense pairs exactly when some expense has it |
| Aggregate.IncomeKeys | app.py:455-460 | a key occurs in the income pairs exactly when some income row has it |
| Aggregate.Source | app.py:456 | the source of an income row is its description when that is non-empty and `'Unspecified'` when it is empty, so never empty |
| Aggregate.CategoryTotals | app.py:358-363 | one entry per category present, in order of first appearance, each the sum of that category's amounts, together adding up to total expenses |
| Aggregate.SourceTotals | app.py:454-460 | one entry per source present (never the empty string), each the sum of its amounts, together adding up to total income |
| Aggregate.Buckets | app.py:510-512 | every key once, ascending, each with its sum, the sums adding up to the total |
| Aggregate.MonthlyIncome | app.py:502-512 | the months of the income rows once each, ascending, each with its income, adding up to total income |
| Aggregate.MonthlyExpenses | app.py:556-566 | the months of the expenses once each, ascending, each with its spending, adding up to total expenses |
| Aggregate.DailyExpenses | app.py:613-623 | at most 7 days, ascending, each with its sum and each a day some expense falls on; a day left out is earlier than every day shown, and only when 7 are shown |
| Aggregate.RowsCompared | app.py:668-684 | what the month loops give over the (month, amount) pairs holds of the rows: the months are exactly those of the caller's income and expense rows, and each column sums to that side's total |
| Aggregate.CombineMonthly | app.py:668-684 | the months of either list once each, ascending; each column holds that month's sum, 0 for a month the list lacks, and adds up to that list's total |
| Aggregate.MonthColumns | app.py:682-684 | the sorted month list is strictly ascending, covers both lists, and each column over it adds up to its list's total |
| Aggregate.ExpenseEntry | app.py:371-378 | an expense shown as a recent transaction keeps its amount, description and category, is marked as spending, and sorts by its own date |
| Aggregate.IncomeEntry | app.py:380-387 | an income row shown as a recent transaction keeps its amount and description, is marked as earning, has the category `'Income'`, and sorts by its own date |
| Aggregate.Pool | app.py:370-387 | the merged list holds the expense entries, then the income entries, in their order |
| Aggregate.RecentTiesExpenseFirst | app.py:369-391 | among recent transactions of the same date, the sorted list keeps the expenses (appended first) before the income rows, each side in its own order |
| Aggregate.PoolOrigin | app.py:370-387 | every merged entry is an expense entry (its own category) or an income entry (category `'Income'`) of one of the two lists |
| Aggregate.MergeRecent | app.py:369-391 | at most 5 entries, newest first, each from one of the two lists; no entry left out is newer than one kept |
| Tracker.NextId | app.py:41 | a new primary key is at least 1, above every id in use, and one past the largest id (1 in an empty table) |
| Tracker.Owned | app.py:172 | `filter_by(user_id=uid)`: exactly the rows `uid` owns |
| Tracker.FindOwned | app.py:219 | `filter_by(id=id, user_id=uid).first()`: the first row with that id and owner; none exactly when no row has both |
| Tracker.FindUser | app.py:156 | `filter_by(username=name).first()`: a row of that name; none exactly when no row has it |
| Tracker.PatchExpense | app.py:222-238 | id and owner never change; amount, description and category the body holds replace the old ones, the others stay; a date in the body becomes the new date when it is a datetime or parses, and the old date stays when it does not parse or is absent |
| Tracker.PatchIncome | app.py:310-325 | id and owner never change; amount and description the body holds replace the old ones, the others stay; a date in the body becomes the new date when it is a datetime or parses, and the old date stays when it does not parse or is absent |
| Tracker.CreateDate | app.py:194-207 | an absent or empty date keeps the insertion time; otherwise the date is resolved with the insertion time as fallback |
| Tracker.Store.constructor | app.py:92-93 | the tables start empty and the constraints hold |
| Tracker.Store.Register | app.py:123-145 | a missing field fails and changes nothing; a taken username or email fails and changes nothing; otherwise exactly one user is appended, with a fresh id and the hashed password; the constraints hold |
| Tracker.Store.Login | app.py:147-163 | a missing field fails with 400; otherwise login succeeds exactly when a user of that name has the hash of the given password, returns that user's view, and every failure is "invalid credentials" (401) |
| Tracker.Store.UsernameUnique | app.py:42 | with unique usernames, the row found by name is the only one of that name |
| Tracker.Store.GetExpenses | app.py:166-173 | refused exactly when the caller is not identified; an identified caller always succeeds, with the caller's expenses, each once, in table order |
| Tracker.Store.AddExpense | app.py:175-212 | the field check comes before the identity check; a complete body from an identified caller always succeeds; the new row belongs to the caller, gets a fresh id and the resolved date, and is appended; any failure changes nothing |
| Tracker.Store.UpdateExpense | app.py:214-242 | only the row the caller owns with that id is rewritten, by `PatchExpense`; otherwise not-found and no change |
| Tracker.Store.DeleteExpense | app.py:244-253 | only the row the caller owns with that id is removed; otherwise not-found and no change |
| Tracker.Store.GetIncome | app.py:256-262 | refused exactly when the caller is not identified; an identified caller always succeeds, with the caller's income rows, each once, in table order |
| Tracker.Store.AddIncome | app.py:264-300 | as for expenses, without a category: a complete body from an identified caller always succeeds and appends exactly the new row |
| Tracker.Store.UpdateIncome | app.py:302-329 | only the row the caller owns with that id is rewritten, by `PatchIncome`; otherwise not-found and no change |
| Tracker.Store.DeleteIncome | app.py:331-340 | only the row the caller owns with that id is removed; otherwise not-found and no change |
| Tracker.Store.GetDashboard | app.py:343-399 | succeeds exactly when the caller is identified, with the totals of the caller's rows, balance = income − expenses, the category breakdown, and the five newest of the two newest-five lists, newest first |
| Tracker.Store.ExpenseCategoriesChart | app.py:402-418 | no data exactly when the caller is unidentified or has no expenses; otherwise the category breakdown of the caller's expenses |
| Tracker.Store.IncomeSourcesChart | app.py:446-463 | no data exactly when the caller is unidentified or has no income; otherwise the source breakdown of the caller's income |
| Tracker.Store.IncomeByMonthChart | app.py:491-512 | no data exactly when the caller is unidentified or has no income; otherwise the ascending months with their income |
| Tracker.Store.ExpenseTrendsChart | app.py:545-566 | no data exactly when the caller is unidentified or has no expenses; otherwise the ascending months with their spending |
| Tracker.Store.DailyExpensesChart | app.py:602-623 | no data exactly when the caller is unidentified or has no expenses; otherwise at most seven days, ascending, each a day of one of the caller's expenses, with its sum; a day left out is earlier than every day shown, and only when seven are shown |
| Tracker.Store.IncomeVsExpensesChart | app.py:656-684 | no data exactly when the caller is unidentified or has neither expenses nor income; otherwise exactly the months of the caller's rows, ascending, with each side's monthly sums (0 where that side has none) adding up to its total |
| Tracker.Store.PdfReport | app.py:726-743 | a missing library fails before the identity is looked at; an identified caller gets the totals of their rows and the balance |
| Tracker.NoCategories | app.py:417-418 | the category breakdown is empty only for no expenses |
| Tracker.NoSources | app.py:462-463 | the source breakdown is empty only for no income |
| Tracker.KeyedAppend | app.py:41 | a row with the next id keeps the primary key unique and positive |
| Tracker.UniqueAppend | app.py:42-43 | a value no row holds keeps a unique column unique |
| Tracker.KeyedUpdate | app.py:222-224 | rewriting a row without touching its id keeps the key |
| Tracker.KeyedRemove | app.py:250 | deleting a row keeps the key |
| Tracker.FindsOwnRow | app.py:219 | with unique ids, a user's own row is the one found by its id |
| Tracker.ForeignRowNotFound | app.py:219 | a row someone else owns is not found by its id, so another user's row cannot be read, changed or deleted |
| Tracker.DeletesExactlyOne | app.py:249-250 | deleting row `k` shortens the table by one, keeps every other row, and leaves no row with the deleted id |

## Left out

- HTTP, JSON decoding, CORS and the static file routes (`/`, `/<path>`) are not modelled. The handlers take their request bodies and the header as values.
- SQLAlchemy sessions, commits and transactions are not modelled. A handler updates the tables in one step.
- Concurrent requests are not modelled.
- Chart rendering (matplotlib, base64 PNG) and PDF drawing (reportlab) are not modelled. The chart methods return the data the chart is drawn from; the report returns its summary figures.
- SHA-256 is the parameter `hash`, and `datetime.fromisoformat` is the parameter `fromIso`. Their own behaviour is not modelled.
- Amounts are integer cents. Floating-point rounding in sums is not modelled.
- Identity.ParseInt: only ASCII digits and ASCII whitespace are handled. Python's `int()` also accepts other Unicode digits and spaces.
- Identity.ParseInt: no length limit is modelled. Python's `int()` refuses text of more than 4300 digits with `ValueError`, which gives no identity and a 401.
- Identity.ParseIntText: the round trip is stated for every integer. Python's `str(n)` also refuses numbers of more than 4300 digits.
- Identity.HeaderResolves: integer width is not modelled. A user id outside the signed 64-bit range passes `int()`, but the database query then fails (app.py:172, 219, 249) with an overflow error and a 500.
- A JSON `null` or a non-string value in a body field is not modelled (bodies are `Option`s of typed fields). So a JSON `"date": null` in an update, and a date that is neither text nor a datetime, are out of scope. A decoded JSON body never holds a datetime, so the non-text branch of the date handling (app.py:203-204, 234-235) is modelled only for a datetime handed in directly.
- Time zones are left out: an aware datetime from a `+00:00` suffix is treated like a naive one.
- Dates.MonthKey and Dates.DayKey: the numeric keys order chronologically for every year. The `strftime('%Y')` text does not zero-pad years before 1000 on common C libraries, so for those years the text keys the source sorts order differently.
- Ordering.Newest: the order the database gives to rows with equal dates is unspecified. The model uses a stable sort over table order.
- Tracker.Store.Register: `created_at` comes from the parameter `now`.
- Tracker.Store.Register: the database's own rejection of a duplicate is not modelled, because the handler's duplicate check comes first.
- A user id in the header that names no user is accepted; nothing here checks that the user exists.
- Tracker.Store.PdfReport: the report's lists of recent rows and the "Generated on" time are not modelled, only its totals.
- The browser client (`app.js`) and the test-data script (`add_test_income.py`) are not part of this model.
