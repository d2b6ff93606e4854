/** The aggregation engine behind the dashboard, the six charts and the
    report: totals, per-category and per-source breakdowns, month and day
    buckets, the combined income-versus-expense series and the merge of
    recent transactions.  Every operation here receives the rows one user
    owns; what a chart would draw is returned as a series (the plotting
    itself is not modelled). */
module Aggregate {
  import opened Dates
  import opened Records
  import opened Grouping
  import opened Ordering

  // ----- totals -----

  /** `sum(expense.amount for expense in expenses)`. */
  function ExpenseTotal(es: seq<Expense>): int {
    if es == [] then 0 else ExpenseTotal(es[..|es| - 1]) + es[|es| - 1].amount
  }

  /** `sum(income.amount for income in incomes)`. */
  function IncomeTotal(ins: seq<Income>): int {
    if ins == [] then 0 else IncomeTotal(ins[..|ins| - 1]) + ins[|ins| - 1].amount
  }

  /** The total of two lists run together is the sum of their totals. */
  lemma {:induction false} ExpenseTotalConcat(a: seq<Expense>, b: seq<Expense>)
    ensures ExpenseTotal(a + b) == ExpenseTotal(a) + ExpenseTotal(b)
    decreases |b|
  {
    if b == [] {
      assert a + b == a;
    } else {
      assert (a + b)[..|a + b| - 1] == a + b[..|b| - 1];
      assert (a + b)[|a + b| - 1] == b[|b| - 1];
      ExpenseTotalConcat(a, b[..|b| - 1]);
    }
  }

  lemma {:induction false} IncomeTotalConcat(a: seq<Income>, b: seq<Income>)
    ensures IncomeTotal(a + b) == IncomeTotal(a) + IncomeTotal(b)
    decreases |b|
  {
    if b == [] {
      assert a + b == a;
    } else {
      assert (a + b)[..|a + b| - 1] == a + b[..|b| - 1];
      assert (a + b)[|a + b| - 1] == b[|b| - 1];
      IncomeTotalConcat(a, b[..|b| - 1]);
    }
  }

  /** Each expense as a (key, amount) pair, for the key `key` picks. */
  function ExpensePairs<K>(es: seq<Expense>, key: Expense -> K): (r: seq<(K, int)>)
    ensures |r| == |es| && forall i :: 0 <= i < |es| ==> r[i] == (key(es[i]), es[i].amount)
  {
    seq(|es|, i requires 0 <= i < |es| => (key(es[i]), es[i].amount))
  }

  function IncomePairs<K>(ins: seq<Income>, key: Income -> K): (r: seq<(K, int)>)
    ensures |r| == |ins| && forall i :: 0 <= i < |ins| ==> r[i] == (key(ins[i]), ins[i].amount)
  {
    seq(|ins|, i requires 0 <= i < |ins| => (key(ins[i]), ins[i].amount))
  }

  /** However the expenses are keyed, their pairs total the flat sum. */
  lemma {:induction false} ExpensePairsTotal<K(!new)>(es: seq<Expense>, key: Expense -> K)
    ensures Total(ExpensePairs(es, key)) == ExpenseTotal(es)
    decreases |es|
  {
    if es != [] {
      assert ExpensePairs(es, key)[..|es| - 1] == ExpensePairs(es[..|es| - 1], key);
      ExpensePairsTotal(es[..|es| - 1], key);
    }
  }

  lemma {:induction false} IncomePairsTotal<K(!new)>(ins: seq<Income>, key: Income -> K)
    ensures Total(IncomePairs(ins, key)) == IncomeTotal(ins)
    decreases |ins|
  {
    if ins != [] {
      assert IncomePairs(ins, key)[..|ins| - 1] == IncomePairs(ins[..|ins| - 1], key);
      IncomePairsTotal(ins[..|ins| - 1], key);
    }
  }

  /** A key occurs among the pairs exactly when some row carries it. */
  lemma ExpenseKeys<K(!new)>(es: seq<Expense>, key: Expense -> K)
    ensures forall k :: HasKey(ExpensePairs(es, key), k) <==> exists e :: e in es && key(e) == k
  {
    var pairs := ExpensePairs(es, key);
    forall k ensures HasKey(pairs, k) <==> exists e :: e in es && key(e) == k {
      if HasKey(pairs, k) {
        var i :| 0 <= i < |pairs| && pairs[i].0 == k;
        assert es[i] in es;
      }
      if exists e :: e in es && key(e) == k {
        var e :| e in es && key(e) == k;
        var i :| 0 <= i < |es| && es[i] == e;
        assert pairs[i].0 == k;
      }
    }
  }

  lemma IncomeKeys<K(!new)>(ins: seq<Income>, key: Income -> K)
    ensures forall k :: HasKey(IncomePairs(ins, key), k) <==> exists i :: i in ins && key(i) == k
  {
    var pairs := IncomePairs(ins, key);
    forall k ensures HasKey(pairs, k) <==> exists i :: i in ins && key(i) == k {
      if HasKey(pairs, k) {
        var n :| 0 <= n < |pairs| && pairs[n].0 == k;
        assert ins[n] in ins;
      }
      if exists i :: i in ins && key(i) == k {
        var i :| i in ins && key(i) == k;
        var n :| 0 <= n < |ins| && ins[n] == i;
        assert pairs[n].0 == k;
      }
    }
  }

  // ----- keys -----

  function Category(e: Expense): string { e.category }

  /** An income's source: its description, or "Unspecified" when that is empty. */
  function Source(i: Income): (s: string)
    ensures s != ""
    ensures i.description != "" ==> s == i.description
    ensures i.description == "" ==> s == "Unspecified"
  {
    if i.description != "" then i.description else "Unspecified"
  }

  function ExpenseMonth(e: Expense): int { MonthKey(e.date) }
  function ExpenseDay(e: Expense): int { DayKey(e.date) }
  function IncomeMonth(i: Income): int { MonthKey(i.date) }

  // ----- breakdowns (a dict in insertion order) -----

  /** `t` is the category breakdown of `es`: one entry per category
      present, in order of first appearance, each holding the sum of that
      category's amounts, and the entries adding up to the expense total. */
  ghost predicate CategoryBreakdown(t: Tally<string>, es: seq<Expense>) {
    && t.keys == FirstSeen(ExpensePairs(es, Category))
    && (forall c :: c in t.keys <==> exists e :: e in es && e.category == c)
    && (forall c :: c in t.sums <==> c in t.keys)
    && (forall c :: c in t.sums ==> t.sums[c] == SumWhere(ExpensePairs(es, Category), c))
    && SeqSum(ValuesAt(t.keys, t.sums)) == ExpenseTotal(es)
  }

  /** The `category_totals` loop of the dashboard and the category chart. */
  method CategoryTotals(es: seq<Expense>) returns (t: Tally<string>)
    ensures CategoryBreakdown(t, es)
    ensures Distinct(t.keys)
  {
    var pairs := ExpensePairs(es, Category);
    t := Accumulate(pairs);
    ExpenseKeys(es, Category);
    assert ValuesAt(t.keys, t.sums) == PerKey(t.keys, pairs);
    TallyTotal(pairs);
    ExpensePairsTotal(es, Category);
  }

  /** `t` is the source breakdown of `ins`, sources as `Source` names them
      (so never the empty string). */
  ghost predicate SourceBreakdown(t: Tally<string>, ins: seq<Income>) {
    && t.keys == FirstSeen(IncomePairs(ins, Source))
    && (forall s :: s in t.keys <==> exists i :: i in ins && Source(i) == s)
    && "" !in t.keys
    && (forall s :: s in t.sums <==> s in t.keys)
    && (forall s :: s in t.sums ==> t.sums[s] == SumWhere(IncomePairs(ins, Source), s))
    && SeqSum(ValuesAt(t.keys, t.sums)) == IncomeTotal(ins)
  }

  /** The `income_sources` loop of the income-sources chart. */
  method SourceTotals(ins: seq<Income>) returns (t: Tally<string>)
    ensures SourceBreakdown(t, ins)
    ensures Distinct(t.keys)
  {
    var pairs := IncomePairs(ins, Source);
    t := Accumulate(pairs);
    IncomeKeys(ins, Source);
    assert ValuesAt(t.keys, t.sums) == PerKey(t.keys, pairs);
    TallyTotal(pairs);
    IncomePairsTotal(ins, Source);
  }

  // ----- month and day buckets -----

  /** What a bar or line chart is handed: the labels and one amount each. */
  datatype Series = Series(keys: seq<int>, amounts: seq<int>)

  /** The bucket series of `pairs`: every key present once, in ascending
      order, each with its flat sum. */
  ghost predicate BucketSeries(s: Series, pairs: seq<(int, int)>) {
    && StrictlyAscending(s.keys)
    && (forall k :: k in s.keys <==> HasKey(pairs, k))
    && s.amounts == PerKey(s.keys, pairs)
  }

  /** Group by key, then `sorted(d.keys())` and `[d[k] for k in keys]`. */
  method Buckets(pairs: seq<(int, int)>) returns (s: Series)
    ensures BucketSeries(s, pairs)
    ensures s.keys == SortAsc(FirstSeen(pairs))
    ensures SeqSum(s.amounts) == Total(pairs)
  {
    var t := Accumulate(pairs);
    var keys := SortAsc(t.keys);
    SortedTally(pairs, t);
    s := Series(keys, ValuesAt(keys, t.sums));
    assert s.amounts == PerKey(keys, pairs);
  }

  /** What the sorted keys of an accumulated dict satisfy. */
  lemma SortedTally(pairs: seq<(int, int)>, t: Tally<int>)
    requires t.keys == FirstSeen(pairs)
    requires forall k :: k in t.sums <==> HasKey(pairs, k)
    requires forall k :: k in t.sums ==> t.sums[k] == SumWhere(pairs, k)
    ensures StrictlyAscending(SortAsc(t.keys))
    ensures forall k :: k in SortAsc(t.keys) <==> HasKey(pairs, k)
    ensures forall i :: 0 <= i < |SortAsc(t.keys)| ==>
              SortAsc(t.keys)[i] in t.sums && t.sums[SortAsc(t.keys)[i]] == SumWhere(pairs, SortAsc(t.keys)[i])
    ensures SeqSum(PerKey(SortAsc(t.keys), pairs)) == Total(pairs)
  {
    SortedFirstSeen(pairs);
    BucketsTotal(SortAsc(t.keys), pairs);
  }

  /** The monthly income series of the income-by-month chart. */
  method MonthlyIncome(ins: seq<Income>) returns (s: Series)
    ensures BucketSeries(s, IncomePairs(ins, IncomeMonth))
    ensures SeqSum(s.amounts) == IncomeTotal(ins)
  {
    s := Buckets(IncomePairs(ins, IncomeMonth));
    IncomePairsTotal(ins, IncomeMonth);
  }

  /** The monthly expense series of the expense-trends chart. */
  method MonthlyExpenses(es: seq<Expense>) returns (s: Series)
    ensures BucketSeries(s, ExpensePairs(es, ExpenseMonth))
    ensures SeqSum(s.amounts) == ExpenseTotal(es)
  {
    s := Buckets(ExpensePairs(es, ExpenseMonth));
    ExpensePairsTotal(es, ExpenseMonth);
  }

  /** The daily-expenses chart: day buckets, sorted, and only the last 7
      kept — the 7 greatest day keys, not a window of calendar days. */
  method DailyExpenses(es: seq<Expense>) returns (s: Series)
    ensures |s.keys| == |s.amounts| <= 7
    ensures StrictlyAscending(s.keys)
    ensures s.amounts == PerKey(s.keys, ExpensePairs(es, ExpenseDay))
    ensures forall k :: k in s.keys ==> exists e :: e in es && ExpenseDay(e) == k
    ensures forall e :: e in es && ExpenseDay(e) !in s.keys ==>
              |s.keys| == 7 && forall k :: k in s.keys ==> ExpenseDay(e) < k
  {
    var pairs := ExpensePairs(es, ExpenseDay);
    var all := Buckets(pairs);
    s := Series(LastN(all.keys, 7), LastN(all.amounts, 7));
    PerKeyLastN(all.keys, pairs, 7);
    LastNKeepsGreatest(all.keys, 7);
    ExpenseKeys(es, ExpenseDay);
  }

  // ----- income against expenses, month by month -----

  /** What the grouped bar chart is handed: the months, and per month the
      income and the expense total. */
  datatype Comparison = Comparison(months: seq<int>, income: seq<int>, expense: seq<int>)

  /** `c` compares `ins` with `es` month by month: the months of either
      list once each, ascending; per month each side's sum (0 where that
      side has no row), each column adding up to its side's total. */
  ghost predicate MonthlyComparison(c: Comparison, ins: seq<Income>, es: seq<Expense>) {
    && StrictlyAscending(c.months)
    && (forall k :: k in c.months <==>
          (exists i :: i in ins && IncomeMonth(i) == k) || (exists e :: e in es && ExpenseMonth(e) == k))
    && c.income == PerKey(c.months, IncomePairs(ins, IncomeMonth))
    && c.expense == PerKey(c.months, ExpensePairs(es, ExpenseMonth))
    && SeqSum(c.income) == IncomeTotal(ins)
    && SeqSum(c.expense) == ExpenseTotal(es)
  }

  /** What `CombineMonthly` proves of the month pairs, said of the rows. */
  lemma RowsCompared(ins: seq<Income>, es: seq<Expense>, c: Comparison)
    requires StrictlyAscending(c.months)
    requires forall k :: k in c.months <==>
               HasKey(IncomePairs(ins, IncomeMonth), k) || HasKey(ExpensePairs(es, ExpenseMonth), k)
    requires c.income == PerKey(c.months, IncomePairs(ins, IncomeMonth))
    requires c.expense == PerKey(c.months, ExpensePairs(es, ExpenseMonth))
    requires SeqSum(c.income) == Total(IncomePairs(ins, IncomeMonth))
    requires SeqSum(c.expense) == Total(ExpensePairs(es, ExpenseMonth))
    ensures MonthlyComparison(c, ins, es)
  {
    IncomeKeys(ins, IncomeMonth);
    ExpenseKeys(es, ExpenseMonth);
    IncomePairsTotal(ins, IncomeMonth);
    ExpensePairsTotal(es, ExpenseMonth);
  }

  /** A `defaultdict` column read at `keys`: 0 where the key never came up. */
  function Defaulted(keys: seq<int>, sums: map<int, int>): (r: seq<int>)
    ensures |r| == |keys|
  {
    seq(|keys|, i requires 0 <= i < |keys| => if keys[i] in sums then sums[keys[i]] else 0)
  }

  /** The `monthly_data` loops: the income amounts, then the expense amounts,
      added into one dict of months whose entries start at 0 on both sides;
      then the months sorted and each side read off per month. */
  method CombineMonthly(inc: seq<(int, int)>, exp: seq<(int, int)>) returns (c: Comparison)
    ensures StrictlyAscending(c.months)
    ensures forall k :: k in c.months <==> HasKey(inc, k) || HasKey(exp, k)
    ensures c.income == PerKey(c.months, inc) && c.expense == PerKey(c.months, exp)
    ensures SeqSum(c.income) == Total(inc) && SeqSum(c.expense) == Total(exp)
    ensures forall i :: 0 <= i < |c.months| && !HasKey(inc, c.months[i]) ==> c.income[i] == 0
    ensures forall i :: 0 <= i < |c.months| && !HasKey(exp, c.months[i]) ==> c.expense[i] == 0
  {
    var incomeByMonth := Accumulate(inc);
    var expenseByMonth := Accumulate(exp);
    var months := SortAsc(FirstSeen(inc + exp));
    c := Comparison(months, Defaulted(months, incomeByMonth.sums), Defaulted(months, expenseByMonth.sums));
    MonthColumns(inc, exp, months);
    assert c.income == PerKey(months, inc) by {
      forall k | k !in incomeByMonth.sums ensures SumWhere(inc, k) == 0 {
        UnseenKeySumsZero(inc, k);
      }
    }
    assert c.expense == PerKey(months, exp) by {
      forall k | k !in expenseByMonth.sums ensures SumWhere(exp, k) == 0 {
        UnseenKeySumsZero(exp, k);
      }
    }
    PerKeyUnseen(months, inc);
    PerKeyUnseen(months, exp);
  }

  /** The months of the combined dict, sorted: each month of either list
      once, ascending, and each side's buckets summing to its total. */
  lemma MonthColumns(inc: seq<(int, int)>, exp: seq<(int, int)>, months: seq<int>)
    requires months == SortAsc(FirstSeen(inc + exp))
    ensures StrictlyAscending(months)
    ensures forall k :: k in months <==> HasKey(inc, k) || HasKey(exp, k)
    ensures SeqSum(PerKey(months, inc)) == Total(inc) && SeqSum(PerKey(months, exp)) == Total(exp)
  {
    SortedFirstSeen(inc + exp);
    HasKeyConcat(inc, exp);
    forall i | 0 <= i < |inc| ensures inc[i].0 in months {
      assert HasKey(inc, inc[i].0);
    }
    forall i | 0 <= i < |exp| ensures exp[i].0 in months {
      assert HasKey(exp, exp[i].0);
    }
    BucketsTotal(months, inc);
    BucketsTotal(months, exp);
  }

  // ----- recent transactions -----

  datatype Kind = Spending | Earning

  /** One row of `recentTransactions`. */
  datatype RecentEntry = RecentEntry(kind: Kind, amount: int, description: string, category: string, date: DateTime)

  /** An expense shown as a recent transaction: its own amount, text and
      category, sorted by its own date. */
  function ExpenseEntry(e: Expense): (r: RecentEntry)
    ensures r.kind == Spending && r.amount == e.amount && r.description == e.description
    ensures r.category == e.category
    ensures EntryTime(r) == ExpenseTime(e)
  {
    RecentEntry(Spending, e.amount, e.description, e.category, e.date)
  }

  /** An income row carries the fixed pseudo-category "Income". */
  function IncomeEntry(i: Income): (r: RecentEntry)
    ensures r.kind == Earning && r.amount == i.amount && r.description == i.description
    ensures r.category == "Income"
    ensures EntryTime(r) == IncomeTime(i)
  {
    RecentEntry(Earning, i.amount, i.description, "Income", i.date)
  }

  function EntryTime(r: RecentEntry): int { Ordinal(r.date) }
  function ExpenseTime(e: Expense): int { Ordinal(e.date) }
  function IncomeTime(i: Income): int { Ordinal(i.date) }

  /** The pool the dashboard sorts: the expense rows, then the income rows. */
  function Pool(es: seq<Expense>, ins: seq<Income>): (r: seq<RecentEntry>)
    ensures |r| == |es| + |ins|
    ensures forall k :: 0 <= k < |es| ==> r[k] == ExpenseEntry(es[k])
    ensures forall k :: 0 <= k < |ins| ==> r[|es| + k] == IncomeEntry(ins[k])
  {
    seq(|es|, k requires 0 <= k < |es| => ExpenseEntry(es[k]))
      + seq(|ins|, k requires 0 <= k < |ins| => IncomeEntry(ins[k]))
  }

  /** Every entry of the pool comes from one of the two lists. */
  /** Sorting the pool keeps, among entries of one date, the expense
      entries (the first `|es|` of the pool) before the income entries,
      and each side in its own order. */
  lemma RecentTiesExpenseFirst(es: seq<Expense>, ins: seq<Income>, t: int)
    ensures WithKey(SortNewestFirst(Pool(es, ins), EntryTime), EntryTime, t)
            == WithKey(Pool(es, ins)[..|es|], EntryTime, t) + WithKey(Pool(es, ins)[|es|..], EntryTime, t)
  {
    var pool := Pool(es, ins);
    assert pool == pool[..|es|] + pool[|es|..];
    SortStable(pool, EntryTime, t);
    WithKeyConcat(pool[..|es|], pool[|es|..], EntryTime, t);
  }

  lemma PoolOrigin(es: seq<Expense>, ins: seq<Income>)
    ensures forall r :: r in Pool(es, ins) ==>
              || (exists e :: e in es && r == ExpenseEntry(e))
              || (exists i :: i in ins && r == IncomeEntry(i))
  {
    var pool := Pool(es, ins);
    forall r | r in pool
      ensures || (exists e :: e in es && r == ExpenseEntry(e))
              || (exists i :: i in ins && r == IncomeEntry(i))
    {
      var k :| 0 <= k < |pool| && pool[k] == r;
      if k < |es| {
        assert es[k] in es;
      } else {
        assert ins[k - |es|] in ins;
      }
    }
  }

  /** `all_recent`: filled by two append loops, sorted newest first and
      cut to five. */
  /** One step of the expense loop: the pool grows by that expense's entry. */
  lemma PoolAddExpense(es: seq<Expense>, k: nat)
    requires k < |es|
    ensures Pool(es[..k + 1], []) == Pool(es[..k], []) + [ExpenseEntry(es[k])]
  {
  }

  /** One step of the income loop: the pool grows by that income's entry. */
  lemma PoolAddIncome(es: seq<Expense>, ins: seq<Income>, k: nat)
    requires k < |ins|
    ensures Pool(es, ins[..k + 1]) == Pool(es, ins[..k]) + [IncomeEntry(ins[k])]
  {
  }

  method MergeRecent(recentExpenses: seq<Expense>, recentIncome: seq<Income>) returns (all: seq<RecentEntry>)
    ensures all == Newest(Pool(recentExpenses, recentIncome), 5, EntryTime)
    ensures |all| <= 5
    ensures NewestFirst(all, EntryTime)
    ensures forall x, y :: x in Pool(recentExpenses, recentIncome) && x !in all && y in all ==> EntryTime(x) <= EntryTime(y)
    ensures forall r :: r in all ==>
              || (exists e :: e in recentExpenses && r == ExpenseEntry(e))
              || (exists i :: i in recentIncome && r == IncomeEntry(i))
  {
    all := [];
    for k := 0 to |recentExpenses|
      invariant all == Pool(recentExpenses[..k], [])
    {
      PoolAddExpense(recentExpenses, k);
      all := all + [ExpenseEntry(recentExpenses[k])];
    }
    assert recentExpenses[..|recentExpenses|] == recentExpenses;
    for k := 0 to |recentIncome|
      invariant all == Pool(recentExpenses, recentIncome[..k])
    {
      PoolAddIncome(recentExpenses, recentIncome, k);
      all := all + [IncomeEntry(recentIncome[k])];
    }
    assert recentIncome[..|recentIncome|] == recentIncome;
    ghost var pool := all;
    all := SortNewestFirst(all, EntryTime);
    all := Take(all, 5);
    assert all == Newest(pool, 5, EntryTime);
    PoolOrigin(recentExpenses, recentIncome);
  }
}
