/** The request handlers over the three tables.

    A `Store` holds the user, expense and income tables as sequences of
    rows in insertion order; each handler is a method that reads the
    resolved identity from the `User-Id` header and, for the writing
    handlers, updates the table it owns.  The database's primary-key and
    unique constraints are the class invariant `Valid()`. */
module Tracker {
  import opened Wrappers
  import opened Identity
  import opened Dates
  import opened Records
  import opened Grouping
  import opened Ordering
  import opened Aggregate

  // ----- table helpers -----

  function ExpenseId(e: Expense): int { e.id }
  function ExpenseOwner(e: Expense): int { e.userId }
  function IncomeId(i: Income): int { i.id }
  function IncomeOwner(i: Income): int { i.userId }
  function UserId(u: User): int { u.id }
  function UserName(u: User): string { u.username }
  function UserEmail(u: User): string { u.email }

  /** One column of a table. */
  function Column<T, C>(rows: seq<T>, field: T -> C): (r: seq<C>)
    ensures |r| == |rows| && forall i :: 0 <= i < |rows| ==> r[i] == field(rows[i])
  {
    seq(|rows|, i requires 0 <= i < |rows| => field(rows[i]))
  }

  /** A unique column: no two rows agree on `field`. */
  ghost predicate Unique<T, C>(rows: seq<T>, field: T -> C) {
    forall i, j :: 0 <= i < j < |rows| ==> field(rows[i]) != field(rows[j])
  }

  /** A table's primary key: positive and unique. */
  ghost predicate Keyed<T>(rows: seq<T>, idOf: T -> int) {
    && Unique(rows, idOf)
    && (forall i :: 0 <= i < |rows| ==> idOf(rows[i]) >= 1)
  }

  /** The id SQLite gives a new row: one past the largest id in use, or 1
      in an empty table. */
  function NextId(ids: seq<int>): (n: int)
    ensures n >= 1 && forall i :: 0 <= i < |ids| ==> ids[i] < n
    ensures n == 1 || n - 1 in ids
  {
    if ids == [] then 1
    else
      var m := NextId(ids[..|ids| - 1]);
      if ids[|ids| - 1] >= m then ids[|ids| - 1] + 1 else m
  }

  /** `filter_by(user_id=uid).all()`: the rows `uid` owns, in table order. */
  function Owned<T(!new)>(rows: seq<T>, uid: int, ownerOf: T -> int): (r: seq<T>)
    ensures |r| <= |rows|
    ensures forall x :: x in r <==> x in rows && ownerOf(x) == uid
  {
    if rows == [] then []
    else
      var init := Owned(rows[..|rows| - 1], uid, ownerOf);
      var last := rows[|rows| - 1];
      assert rows == rows[..|rows| - 1] + [last];
      if ownerOf(last) == uid then init + [last] else init
  }

  /** `filter_by(id=id, user_id=uid).first()`: the position of the first
      row with that id and owner. */
  function FindOwned<T>(rows: seq<T>, id: int, uid: int, idOf: T -> int, ownerOf: T -> int): (r: Option<nat>)
    ensures r.Some? ==> r.value < |rows| && idOf(rows[r.value]) == id && ownerOf(rows[r.value]) == uid
    ensures r.Some? ==> forall i :: 0 <= i < r.value ==> !(idOf(rows[i]) == id && ownerOf(rows[i]) == uid)
    ensures r.None? <==> forall i :: 0 <= i < |rows| ==> !(idOf(rows[i]) == id && ownerOf(rows[i]) == uid)
  {
    if rows == [] then None
    else
      var n := |rows| - 1;
      var r := FindOwned(rows[..n], id, uid, idOf, ownerOf);
      if r.Some? then r
      else if idOf(rows[n]) == id && ownerOf(rows[n]) == uid then Some(n)
      else None
  }

  /** `filter_by(username=name).first()`. */
  function FindUser(users: seq<User>, name: string): (r: Option<nat>)
    ensures r.Some? ==> r.value < |users| && users[r.value].username == name
    ensures r.None? <==> forall i :: 0 <= i < |users| ==> users[i].username != name
  {
    if users == [] then None
    else
      var n := |users| - 1;
      var r := FindUser(users[..n], name);
      if r.Some? then r
      else if users[n].username == name then Some(n)
      else None
  }

  /** The registration check: a user already has this username or this email. */
  predicate Taken(users: seq<User>, name: string, email: string) {
    exists i :: 0 <= i < |users| && (users[i].username == name || users[i].email == email)
  }

  /** The row after a partial update: each field the body holds replaces
      the old one; a date that does not parse leaves the old date. */
  function PatchExpense(e: Expense, body: ExpenseBody, fromIso: Parser): (r: Expense)
    ensures r.id == e.id && r.userId == e.userId
    ensures r.amount == (if body.amount.Some? then body.amount.value else e.amount)
    ensures r.description == (if body.description.Some? then body.description.value else e.description)
    ensures r.category == (if body.category.Some? then body.category.value else e.category)
    ensures body.date.None? ==> r.date == e.date
    ensures body.date.Some? ==> r.date == ResolveDate(body.date.value, fromIso, e.date)
  {
    var date := if body.date.Some? then ResolveDate(body.date.value, fromIso, e.date) else e.date;
    e.(amount := body.amount.GetOr(e.amount),
       description := body.description.GetOr(e.description),
       category := body.category.GetOr(e.category),
       date := date)
  }

  function PatchIncome(i: Income, body: IncomeBody, fromIso: Parser): (r: Income)
    ensures r.id == i.id && r.userId == i.userId
    ensures r.amount == (if body.amount.Some? then body.amount.value else i.amount)
    ensures r.description == (if body.description.Some? then body.description.value else i.description)
    ensures body.date.None? ==> r.date == i.date
    ensures body.date.Some? ==> r.date == ResolveDate(body.date.value, fromIso, i.date)
  {
    var date := if body.date.Some? then ResolveDate(body.date.value, fromIso, i.date) else i.date;
    i.(amount := body.amount.GetOr(i.amount),
       description := body.description.GetOr(i.description),
       date := date)
  }

  /** The date of a new row: the body's date when it is present and truthy
      and parses, the insertion time `now` otherwise. */
  function CreateDate(date: Option<DateField>, fromIso: Parser, now: DateTime): (d: DateTime)
    ensures date.None? || !Truthy(date.value) ==> d == now
    ensures date.Some? && Truthy(date.value) ==> d == ResolveDate(date.value, fromIso, now)
  {
    if date.Some? && Truthy(date.value) then ResolveDate(date.value, fromIso, now) else now
  }

  /** What the dashboard answers with. */
  datatype Dashboard = Dashboard(
    balance: int, totalIncome: int, totalExpenses: int,
    categoryTotals: Tally<string>, recent: seq<RecentEntry>)

  /** The figures of the PDF report's summary. */
  datatype Report = Report(totalIncome: int, totalExpenses: int, balance: int)

  class Store {
    var users: seq<User>
    var expenses: seq<Expense>
    var incomes: seq<Income>

    /** Primary keys are positive and unique; usernames and emails are unique. */
    ghost predicate Valid()
      reads this
    {
      && Keyed(users, UserId)
      && Unique(users, UserName)
      && Unique(users, UserEmail)
      && Keyed(expenses, ExpenseId)
      && Keyed(incomes, IncomeId)
    }

    /** `db.create_all()` on a fresh database. */
    constructor ()
      ensures Valid()
      ensures users == [] && expenses == [] && incomes == []
    {
      users, expenses, incomes := [], [], [];
    }

    // ----- users -----

    /** `POST /api/auth/register`. */
    method Register(body: RegisterBody, hash: string -> string, now: DateTime) returns (err: Option<Error>)
      requires Valid()
      modifies this
      ensures Valid()
      ensures expenses == old(expenses) && incomes == old(incomes)
      ensures body.username.None? || body.email.None? || body.password.None? ==>
                err == Some(MissingFields) && users == old(users)
      ensures body.username.Some? && body.email.Some? && body.password.Some? ==>
                if Taken(old(users), body.username.value, body.email.value) then
                  err == Some(Duplicate) && users == old(users)
                else
                  err.None? &&
                  users == old(users) + [User(NextId(Column(old(users), UserId)), body.username.value,
                                              body.email.value, hash(body.password.value), now)]
    {
      if body.username.None? || body.email.None? || body.password.None? {
        return Some(MissingFields);
      }
      var name, email := body.username.value, body.email.value;
      if Taken(users, name, email) {
        return Some(Duplicate);
      }
      var user := User(NextId(Column(users, UserId)), name, email, hash(body.password.value), now);
      ghost var before := users;
      users := users + [user];
      KeyedAppend(before, user, UserId);
      UniqueAppend(before, user, UserName);
      UniqueAppend(before, user, UserEmail);
      err := None;
    }

    /** `POST /api/auth/login`: succeeds exactly when a user of that name
        exists and its stored hash is the hash of the given password. */
    method Login(body: LoginBody, hash: string -> string) returns (r: Result<UserView>)
      requires Valid()
      ensures body.username.None? || body.password.None? ==> r == Failure(MissingFields)
      ensures body.username.Some? && body.password.Some? ==>
                (r.Success? <==> exists u :: u in users && u.username == body.username.value
                                              && u.passwordHash == hash(body.password.value))
      ensures r.Failure? ==> r.error == MissingFields || r.error == InvalidCredentials
      ensures body.username.Some? && body.password.Some? && r.Failure? ==> r.error == InvalidCredentials
      ensures r.Success? ==> exists u :: u in users && View(u) == r.value && u.username == body.username.value
    {
      if body.username.None? || body.password.None? {
        return Failure(MissingFields);
      }
      var found := FindUser(users, body.username.value);
      if found.None? || users[found.value].passwordHash != hash(body.password.value) {
        if found.Some? {
          UsernameUnique(found.value);
        }
        return Failure(InvalidCredentials);
      }
      r := Success(View(users[found.value]));
    }

    /** With unique usernames, the row `FindUser` finds is the only one of
        that name. */
    lemma UsernameUnique(k: nat)
      requires Valid() && k < |users|
      ensures forall u :: u in users && u.username == users[k].username ==> u == users[k]
    {
      forall u | u in users && u.username == users[k].username ensures u == users[k] {
        var j :| 0 <= j < |users| && users[j] == u;
        assert UserName(users[j]) == UserName(users[k]);
      }
    }

    // ----- expenses -----

    /** `GET /api/expenses`. */
    method GetExpenses(header: Option<string>) returns (r: Result<seq<Expense>>)
      ensures !Authorized(CurrentUserId(header)) <==> r == Failure(Unauthorized)
      ensures Authorized(CurrentUserId(header)) ==>
                r == Success(Owned(expenses, CurrentUserId(header).value, ExpenseOwner))
      ensures r.Success? ==> forall e :: e in r.value <==> e in expenses && e.userId == CurrentUserId(header).value
    {
      var uid := CurrentUserId(header);
      if !Authorized(uid) {
        return Failure(Unauthorized);
      }
      r := Success(Owned(expenses, uid.value, ExpenseOwner));
    }

    /** `POST /api/expenses`: the field check comes before the identity
        check; the new row belongs to the caller and gets a fresh id. */
    method AddExpense(header: Option<string>, body: ExpenseBody, now: DateTime, fromIso: Parser)
      returns (r: Result<Expense>)
      requires Valid()
      modifies this
      ensures Valid()
      ensures users == old(users) && incomes == old(incomes)
      ensures body.amount.None? || body.description.None? || body.category.None? ==>
                r == Failure(MissingFields) && expenses == old(expenses)
      ensures body.amount.Some? && body.description.Some? && body.category.Some? && !Authorized(CurrentUserId(header)) ==>
                r == Failure(Unauthorized) && expenses == old(expenses)
      ensures r.Success? ==>
                && body.amount.Some? && body.description.Some? && body.category.Some?
                && Authorized(CurrentUserId(header))
                && r.value == Expense(NextId(Column(old(expenses), ExpenseId)), CurrentUserId(header).value,
                                      body.amount.value, body.description.value, body.category.value,
                                      CreateDate(body.date, fromIso, now))
                && expenses == old(expenses) + [r.value]
      ensures body.amount.Some? && body.description.Some? && body.category.Some? && Authorized(CurrentUserId(header)) ==>
                r.Success?
      ensures r.Success? || expenses == old(expenses)
    {
      if body.amount.None? || body.description.None? || body.category.None? {
        return Failure(MissingFields);
      }
      var uid := CurrentUserId(header);
      if !Authorized(uid) {
        return Failure(Unauthorized);
      }
      var expense := Expense(NextId(Column(expenses, ExpenseId)), uid.value, body.amount.value,
                             body.description.value, body.category.value, now);
      if body.date.Some? && Truthy(body.date.value) {
        expense := expense.(date := ResolveDate(body.date.value, fromIso, expense.date));
      }
      ghost var before := expenses;
      expenses := expenses + [expense];
      KeyedAppend(before, expense, ExpenseId);
      r := Success(expense);
    }

    /** `PUT /api/expenses/<id>`: only a row the caller owns is found; it
        alone changes, and only in the fields the body holds. */
    method UpdateExpense(id: nat, header: Option<string>, body: ExpenseBody, fromIso: Parser)
      returns (r: Result<Expense>)
      requires Valid()
      modifies this
      ensures Valid()
      ensures users == old(users) && incomes == old(incomes)
      ensures !Authorized(CurrentUserId(header)) ==> r == Failure(Unauthorized) && expenses == old(expenses)
      ensures Authorized(CurrentUserId(header)) ==>
                match FindOwned(old(expenses), id, CurrentUserId(header).value, ExpenseId, ExpenseOwner)
                case None => r == Failure(NotFound) && expenses == old(expenses)
                case Some(k) =>
                  && r == Success(PatchExpense(old(expenses)[k], body, fromIso))
                  && expenses == old(expenses)[k := r.value]
    {
      var uid := CurrentUserId(header);
      if !Authorized(uid) {
        return Failure(Unauthorized);
      }
      var found := FindOwned(expenses, id, uid.value, ExpenseId, ExpenseOwner);
      if found.None? {
        return Failure(NotFound);
      }
      var k := found.value;
      var expense := expenses[k];
      expense := expense.(amount := body.amount.GetOr(expense.amount));
      expense := expense.(description := body.description.GetOr(expense.description));
      expense := expense.(category := body.category.GetOr(expense.category));
      if body.date.Some? {
        expense := expense.(date := ResolveDate(body.date.value, fromIso, expense.date));
      }
      ghost var before := expenses;
      expenses := expenses[k := expense];
      KeyedUpdate(before, k, expense, ExpenseId);
      r := Success(expense);
    }

    /** `DELETE /api/expenses/<id>`: exactly the owned row with that id
        goes; anything else is not found and changes nothing. */
    method DeleteExpense(id: nat, header: Option<string>) returns (err: Option<Error>)
      requires Valid()
      modifies this
      ensures Valid()
      ensures users == old(users) && incomes == old(incomes)
      ensures !Authorized(CurrentUserId(header)) ==> err == Some(Unauthorized) && expenses == old(expenses)
      ensures Authorized(CurrentUserId(header)) ==>
                match FindOwned(old(expenses), id, CurrentUserId(header).value, ExpenseId, ExpenseOwner)
                case None => err == Some(NotFound) && expenses == old(expenses)
                case Some(k) => err.None? && expenses == old(expenses)[..k] + old(expenses)[k + 1..]
    {
      var uid := CurrentUserId(header);
      if !Authorized(uid) {
        return Some(Unauthorized);
      }
      var found := FindOwned(expenses, id, uid.value, ExpenseId, ExpenseOwner);
      if found.None? {
        return Some(NotFound);
      }
      var k := found.value;
      var rest := expenses[..k] + expenses[k + 1..];
      assert Keyed(rest, ExpenseId) by {
        KeyedRemove(expenses, k, ExpenseId);
      }
      expenses := rest;
      err := None;
    }

    // ----- income -----

    /** `GET /api/income`. */
    method GetIncome(header: Option<string>) returns (r: Result<seq<Income>>)
      ensures !Authorized(CurrentUserId(header)) <==> r == Failure(Unauthorized)
      ensures Authorized(CurrentUserId(header)) ==>
                r == Success(Owned(incomes, CurrentUserId(header).value, IncomeOwner))
      ensures r.Success? ==> forall i :: i in r.value <==> i in incomes && i.userId == CurrentUserId(header).value
    {
      var uid := CurrentUserId(header);
      if !Authorized(uid) {
        return Failure(Unauthorized);
      }
      r := Success(Owned(incomes, uid.value, IncomeOwner));
    }

    /** `POST /api/income`. */
    method AddIncome(header: Option<string>, body: IncomeBody, now: DateTime, fromIso: Parser)
      returns (r: Result<Income>)
      requires Valid()
      modifies this
      ensures Valid()
      ensures users == old(users) && expenses == old(expenses)
      ensures body.amount.None? || body.description.None? ==>
                r == Failure(MissingFields) && incomes == old(incomes)
      ensures body.amount.Some? && body.description.Some? && !Authorized(CurrentUserId(header)) ==>
                r == Failure(Unauthorized) && incomes == old(incomes)
      ensures r.Success? ==>
                && body.amount.Some? && body.description.Some?
                && Authorized(CurrentUserId(header))
                && r.value == Income(NextId(Column(old(incomes), IncomeId)), CurrentUserId(header).value,
                                     body.amount.value, body.description.value,
                                     CreateDate(body.date, fromIso, now))
                && incomes == old(incomes) + [r.value]
      ensures body.amount.Some? && body.description.Some? && Authorized(CurrentUserId(header)) ==> r.Success?
      ensures r.Success? || incomes == old(incomes)
    {
      if body.amount.None? || body.description.None? {
        return Failure(MissingFields);
      }
      var uid := CurrentUserId(header);
      if !Authorized(uid) {
        return Failure(Unauthorized);
      }
      var income := Income(NextId(Column(incomes, IncomeId)), uid.value, body.amount.value,
                           body.description.value, now);
      if body.date.Some? && Truthy(body.date.value) {
        income := income.(date := ResolveDate(body.date.value, fromIso, income.date));
      }
      ghost var before := incomes;
      incomes := incomes + [income];
      KeyedAppend(before, income, IncomeId);
      r := Success(income);
    }

    /** `PUT /api/income/<id>`. */
    method UpdateIncome(id: nat, header: Option<string>, body: IncomeBody, fromIso: Parser)
      returns (r: Result<Income>)
      requires Valid()
      modifies this
      ensures Valid()
      ensures users == old(users) && expenses == old(expenses)
      ensures !Authorized(CurrentUserId(header)) ==> r == Failure(Unauthorized) && incomes == old(incomes)
      ensures Authorized(CurrentUserId(header)) ==>
                match FindOwned(old(incomes), id, CurrentUserId(header).value, IncomeId, IncomeOwner)
                case None => r == Failure(NotFound) && incomes == old(incomes)
                case Some(k) =>
                  && r == Success(PatchIncome(old(incomes)[k], body, fromIso))
                  && incomes == old(incomes)[k := r.value]
    {
      var uid := CurrentUserId(header);
      if !Authorized(uid) {
        return Failure(Unauthorized);
      }
      var found := FindOwned(incomes, id, uid.value, IncomeId, IncomeOwner);
      if found.None? {
        return Failure(NotFound);
      }
      var k := found.value;
      var income := incomes[k];
      income := income.(amount := body.amount.GetOr(income.amount));
      income := income.(description := body.description.GetOr(income.description));
      if body.date.Some? {
        income := income.(date := ResolveDate(body.date.value, fromIso, income.date));
      }
      ghost var before := incomes;
      incomes := incomes[k := income];
      KeyedUpdate(before, k, income, IncomeId);
      r := Success(income);
    }

    /** `DELETE /api/income/<id>`. */
    method DeleteIncome(id: nat, header: Option<string>) returns (err: Option<Error>)
      requires Valid()
      modifies this
      ensures Valid()
      ensures users == old(users) && expenses == old(expenses)
      ensures !Authorized(CurrentUserId(header)) ==> err == Some(Unauthorized) && incomes == old(incomes)
      ensures Authorized(CurrentUserId(header)) ==>
                match FindOwned(old(incomes), id, CurrentUserId(header).value, IncomeId, IncomeOwner)
                case None => err == Some(NotFound) && incomes == old(incomes)
                case Some(k) => err.None? && incomes == old(incomes)[..k] + old(incomes)[k + 1..]
    {
      var uid := CurrentUserId(header);
      if !Authorized(uid) {
        return Some(Unauthorized);
      }
      var found := FindOwned(incomes, id, uid.value, IncomeId, IncomeOwner);
      if found.None? {
        return Some(NotFound);
      }
      var k := found.value;
      var rest := incomes[..k] + incomes[k + 1..];
      assert Keyed(rest, IncomeId) by {
        KeyedRemove(incomes, k, IncomeId);
      }
      incomes := rest;
      err := None;
    }

    // ----- dashboard, charts and report -----

    /** `GET /api/dashboard`. */
    method GetDashboard(header: Option<string>) returns (r: Result<Dashboard>)
      ensures !Authorized(CurrentUserId(header)) <==> r == Failure(Unauthorized)
      ensures Authorized(CurrentUserId(header)) <==> r.Success?
      ensures r.Success? ==>
                var uid := CurrentUserId(header).value;
                var es, ins := Owned(expenses, uid, ExpenseOwner), Owned(incomes, uid, IncomeOwner);
                && r.value.totalExpenses == ExpenseTotal(es)
                && r.value.totalIncome == IncomeTotal(ins)
                && r.value.balance == r.value.totalIncome - r.value.totalExpenses
                && CategoryBreakdown(r.value.categoryTotals, es)
                && r.value.recent == Newest(Pool(Newest(es, 5, ExpenseTime), Newest(ins, 5, IncomeTime)), 5, EntryTime)
                && |r.value.recent| <= 5
                && NewestFirst(r.value.recent, EntryTime)
    {
      var uid := CurrentUserId(header);
      if !Authorized(uid) {
        return Failure(Unauthorized);
      }
      var es := Owned(expenses, uid.value, ExpenseOwner);
      var ins := Owned(incomes, uid.value, IncomeOwner);
      var totalExpenses := ExpenseTotal(es);
      var totalIncome := IncomeTotal(ins);
      var categoryTotals := CategoryTotals(es);
      var recent := MergeRecent(Newest(es, 5, ExpenseTime), Newest(ins, 5, IncomeTime));
      r := Success(Dashboard(totalIncome - totalExpenses, totalIncome, totalExpenses, categoryTotals, recent));
    }

    /** `GET /api/chart/expense-categories`: no image without an identity
        or without expenses. */
    method ExpenseCategoriesChart(header: Option<string>) returns (r: Option<Tally<string>>)
      ensures r.None? <==> !Authorized(CurrentUserId(header)) || Owned(expenses, CurrentUserId(header).value, ExpenseOwner) == []
      ensures r.Some? ==>
                var es := Owned(expenses, CurrentUserId(header).value, ExpenseOwner);
                CategoryBreakdown(r.value, es)
    {
      var uid := CurrentUserId(header);
      if !Authorized(uid) {
        return None;
      }
      var es := Owned(expenses, uid.value, ExpenseOwner);
      var totals := CategoryTotals(es);
      if totals.keys == [] {
        NoCategories(es);
        return None;
      }
      r := Some(totals);
    }

    /** `GET /api/chart/income-sources`. */
    method IncomeSourcesChart(header: Option<string>) returns (r: Option<Tally<string>>)
      ensures r.None? <==> !Authorized(CurrentUserId(header)) || Owned(incomes, CurrentUserId(header).value, IncomeOwner) == []
      ensures r.Some? ==>
                var ins := Owned(incomes, CurrentUserId(header).value, IncomeOwner);
                SourceBreakdown(r.value, ins)
    {
      var uid := CurrentUserId(header);
      if !Authorized(uid) {
        return None;
      }
      var ins := Owned(incomes, uid.value, IncomeOwner);
      var sources := SourceTotals(ins);
      if sources.keys == [] {
        NoSources(ins);
        return None;
      }
      r := Some(sources);
    }

    /** `GET /api/chart/income-by-month`. */
    method IncomeByMonthChart(header: Option<string>) returns (r: Option<Series>)
      ensures r.None? <==> !Authorized(CurrentUserId(header)) || Owned(incomes, CurrentUserId(header).value, IncomeOwner) == []
      ensures r.Some? ==>
                var ins := Owned(incomes, CurrentUserId(header).value, IncomeOwner);
                && BucketSeries(r.value, IncomePairs(ins, IncomeMonth))
                && SeqSum(r.value.amounts) == IncomeTotal(ins)
    {
      var uid := CurrentUserId(header);
      if !Authorized(uid) {
        return None;
      }
      var ins := Owned(incomes, uid.value, IncomeOwner);
      if ins == [] {
        return None;
      }
      var series := MonthlyIncome(ins);
      r := Some(series);
    }

    /** `GET /api/chart/expense-trends`. */
    method ExpenseTrendsChart(header: Option<string>) returns (r: Option<Series>)
      ensures r.None? <==> !Authorized(CurrentUserId(header)) || Owned(expenses, CurrentUserId(header).value, ExpenseOwner) == []
      ensures r.Some? ==>
                var es := Owned(expenses, CurrentUserId(header).value, ExpenseOwner);
                && BucketSeries(r.value, ExpensePairs(es, ExpenseMonth))
                && SeqSum(r.value.amounts) == ExpenseTotal(es)
    {
      var uid := CurrentUserId(header);
      if !Authorized(uid) {
        return None;
      }
      var es := Owned(expenses, uid.value, ExpenseOwner);
      if es == [] {
        return None;
      }
      var series := MonthlyExpenses(es);
      r := Some(series);
    }

    /** `GET /api/chart/daily-expenses`. */
    method DailyExpensesChart(header: Option<string>) returns (r: Option<Series>)
      ensures r.None? <==> !Authorized(CurrentUserId(header)) || Owned(expenses, CurrentUserId(header).value, ExpenseOwner) == []
      ensures r.Some? ==>
                var es := Owned(expenses, CurrentUserId(header).value, ExpenseOwner);
                && 1 <= |r.value.keys| == |r.value.amounts| <= 7
                && StrictlyAscending(r.value.keys)
                && r.value.amounts == PerKey(r.value.keys, ExpensePairs(es, ExpenseDay))
                && (forall k :: k in r.value.keys ==> exists e :: e in es && ExpenseDay(e) == k)
                && (forall e :: e in es && ExpenseDay(e) !in r.value.keys ==>
                      |r.value.keys| == 7 && forall k :: k in r.value.keys ==> ExpenseDay(e) < k)
    {
      var uid := CurrentUserId(header);
      if !Authorized(uid) {
        return None;
      }
      var es := Owned(expenses, uid.value, ExpenseOwner);
      if es == [] {
        return None;
      }
      var series := DailyExpenses(es);
      assert es[0] in es;
      r := Some(series);
    }

    /** `GET /api/chart/income-vs-expenses`: no image only when the caller
        has neither income nor expenses. */
    method IncomeVsExpensesChart(header: Option<string>) returns (r: Option<Comparison>)
      ensures r.None? <==>
                || !Authorized(CurrentUserId(header))
                || (Owned(expenses, CurrentUserId(header).value, ExpenseOwner) == []
                    && Owned(incomes, CurrentUserId(header).value, IncomeOwner) == [])
      ensures r.Some? ==>
                var es := Owned(expenses, CurrentUserId(header).value, ExpenseOwner);
                var ins := Owned(incomes, CurrentUserId(header).value, IncomeOwner);
                && |r.value.months| >= 1
                && MonthlyComparison(r.value, ins, es)
    {
      var uid := CurrentUserId(header);
      if !Authorized(uid) {
        return None;
      }
      var es := Owned(expenses, uid.value, ExpenseOwner);
      var ins := Owned(incomes, uid.value, IncomeOwner);
      if es == [] && ins == [] {
        return None;
      }
      var inc, exp := IncomePairs(ins, IncomeMonth), ExpensePairs(es, ExpenseMonth);
      var c := CombineMonthly(inc, exp);
      if inc != [] {
        assert HasKey(inc, inc[0].0);
      } else {
        assert HasKey(exp, exp[0].0);
      }
      RowsCompared(ins, es, c);
      r := Some(c);
    }

    /** `GET /api/report/pdf`: refused when the PDF library is missing,
        before the identity is looked at. */
    method PdfReport(header: Option<string>, available: bool) returns (r: Result<Report>)
      ensures !available ==> r == Failure(Unavailable)
      ensures available && !Authorized(CurrentUserId(header)) ==> r == Failure(Unauthorized)
      ensures r.Success? ==>
                var uid := CurrentUserId(header).value;
                && r.value.totalIncome == IncomeTotal(Owned(incomes, uid, IncomeOwner))
                && r.value.totalExpenses == ExpenseTotal(Owned(expenses, uid, ExpenseOwner))
                && r.value.balance == r.value.totalIncome - r.value.totalExpenses
      ensures available && Authorized(CurrentUserId(header)) ==> r.Success?
    {
      if !available {
        return Failure(Unavailable);
      }
      var uid := CurrentUserId(header);
      if !Authorized(uid) {
        return Failure(Unauthorized);
      }
      var totalExpenses := ExpenseTotal(Owned(expenses, uid.value, ExpenseOwner));
      var totalIncome := IncomeTotal(Owned(incomes, uid.value, IncomeOwner));
      r := Success(Report(totalIncome, totalExpenses, totalIncome - totalExpenses));
    }
  }

  /** A tally of no expenses is empty, and only that one. */
  lemma NoCategories(es: seq<Expense>)
    requires FirstSeen(ExpensePairs(es, Category)) == []
    ensures es == []
  {
    if es != [] {
      assert HasKey(ExpensePairs(es, Category), es[0].category);
    }
  }

  // ----- the constraints kept -----

  /** A row whose id is `NextId` keeps the key unique. */
  lemma KeyedAppend<T>(rows: seq<T>, row: T, idOf: T -> int)
    requires Keyed(rows, idOf) && idOf(row) == NextId(Column(rows, idOf))
    ensures Keyed(rows + [row], idOf)
  {
    forall i | 0 <= i < |rows| ensures idOf(rows[i]) != idOf(row) {
      assert idOf(rows[i]) == Column(rows, idOf)[i];
    }
    UniqueAppend(rows, row, idOf);
  }

  /** A value no row holds yet keeps a unique column unique. */
  lemma UniqueAppend<T, C>(rows: seq<T>, row: T, field: T -> C)
    requires Unique(rows, field)
    requires forall i :: 0 <= i < |rows| ==> field(rows[i]) != field(row)
    ensures Unique(rows + [row], field)
  {
    var r := rows + [row];
    assert forall i :: 0 <= i < |rows| ==> r[i] == rows[i];
  }

  /** Rewriting a row without touching its id keeps the key. */
  lemma KeyedUpdate<T>(rows: seq<T>, k: nat, row: T, idOf: T -> int)
    requires Keyed(rows, idOf) && k < |rows| && idOf(row) == idOf(rows[k])
    ensures Keyed(rows[k := row], idOf)
  {
    var r := rows[k := row];
    assert forall i :: 0 <= i < |rows| ==> idOf(r[i]) == idOf(rows[i]);
  }

  /** Deleting a row keeps the key. */
  lemma KeyedRemove<T>(rows: seq<T>, k: nat, idOf: T -> int)
    requires Keyed(rows, idOf) && k < |rows|
    ensures Keyed(rows[..k] + rows[k + 1..], idOf)
  {
    var r := rows[..k] + rows[k + 1..];
    assert forall i :: 0 <= i < |r| ==> r[i] == rows[if i < k then i else i + 1];
  }

  /** Likewise for income sources. */
  lemma NoSources(ins: seq<Income>)
    requires FirstSeen(IncomePairs(ins, Source)) == []
    ensures ins == []
  {
    if ins != [] {
      assert HasKey(IncomePairs(ins, Source), Source(ins[0]));
    }
  }

  // ----- lookups by id and owner -----

  /** With unique ids, the owner's own row is the one found by its id. */
  lemma FindsOwnRow<T>(rows: seq<T>, k: nat, idOf: T -> int, ownerOf: T -> int)
    requires Keyed(rows, idOf) && k < |rows|
    ensures FindOwned(rows, idOf(rows[k]), ownerOf(rows[k]), idOf, ownerOf) == Some(k)
  {
    var r := FindOwned(rows, idOf(rows[k]), ownerOf(rows[k]), idOf, ownerOf);
    assert idOf(rows[r.value]) == idOf(rows[k]);
  }

  /** Someone else's row is not found by its id: cross-user access is a
      not-found, and the handlers then change nothing. */
  lemma ForeignRowNotFound<T>(rows: seq<T>, k: nat, uid: int, idOf: T -> int, ownerOf: T -> int)
    requires Keyed(rows, idOf) && k < |rows| && ownerOf(rows[k]) != uid
    ensures FindOwned(rows, idOf(rows[k]), uid, idOf, ownerOf) == None
  {
  }

  /** Deleting row `k` removes that row and its id, and keeps every other row. */
  lemma DeletesExactlyOne<T>(rows: seq<T>, k: nat, idOf: T -> int)
    requires Keyed(rows, idOf) && k < |rows|
    ensures |rows[..k] + rows[k + 1..]| == |rows| - 1
    ensures forall i :: 0 <= i < |rows| && i != k ==> rows[i] in rows[..k] + rows[k + 1..]
    ensures forall x :: x in rows[..k] + rows[k + 1..] ==> idOf(x) != idOf(rows[k])
  {
    var r := rows[..k] + rows[k + 1..];
    assert forall i :: 0 <= i < |r| ==> r[i] == rows[if i < k then i else i + 1];
    forall i | 0 <= i < |rows| && i != k ensures rows[i] in r {
      assert r[if i < k then i else i - 1] == rows[i];
    }
    forall x | x in r ensures idOf(x) != idOf(rows[k]) {
      var i :| 0 <= i < |r| && r[i] == x;
      var j := if i < k then i else i + 1;
      assert idOf(rows[j]) != idOf(rows[k]);
    }
  }
}
