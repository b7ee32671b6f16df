/** The profit-and-loss page (src/pages/ReportsPage.tsx): the month-by-month
    series, the expense breakdown by category for the current month, the
    GST summary for the current month, and the all-time totals. */
module Reports {
  import opened Text
  import opened Types
  import opened Seqs
  import opened Sorting
  import opened Grouping
  import opened Months
  import CreateInvoice

  /** The per-month accumulator of `monthlyData`. */
  datatype MonthTotals = MonthTotals(income: real, expense: real, invoiceCount: nat, paidCount: nat)

  /** One point of the series, keyed by its raw `YYYY-MM` month. */
  datatype MonthRow = MonthRow(rawMonth: string, income: real, expense: real, profit: real,
                               invoiceCount: nat, paidCount: nat)

  predicate IsPaid(inv: Invoice) { inv.status == Paid }

  // What a month's totals are, stated over the whole lists.

  function MonthIncome(invoices: seq<Invoice>, m: string): real
  {
    SumWhere(invoices, InvoiceMonth, m, GrandTotal)
  }

  function MonthExpense(expenses: seq<Expense>, m: string): real
  {
    SumWhere(expenses, ExpenseMonth, m, ExpenseAmount)
  }

  function MonthInvoiceCount(invoices: seq<Invoice>, m: string): nat
  {
    CountWhere(invoices, InvoiceMonth, m)
  }

  function MonthPaidCount(invoices: seq<Invoice>, m: string): nat
  {
    if invoices == [] then 0
    else
      var last := invoices[|invoices| - 1];
      MonthPaidCount(invoices[..|invoices| - 1], m) + (if InvoiceMonth(last) == m && IsPaid(last) then 1 else 0)
  }

  /** A month never has more paid invoices than invoices. */
  lemma {:induction false} PaidCountBound(invoices: seq<Invoice>, m: string)
    ensures MonthPaidCount(invoices, m) <= MonthInvoiceCount(invoices, m)
  {
    if invoices != [] {
      PaidCountBound(invoices[..|invoices| - 1], m);
    }
  }

  function TotalsFor(invoices: seq<Invoice>, expenses: seq<Expense>, m: string): MonthTotals
  {
    MonthTotals(MonthIncome(invoices, m), MonthExpense(expenses, m),
                MonthInvoiceCount(invoices, m), MonthPaidCount(invoices, m))
  }

  /** The `.map` step: a month's entry as a row of the series. */
  function ToRow(e: (string, MonthTotals)): (r: MonthRow)
    ensures r.profit == r.income - r.expense
  {
    MonthRow(e.0, e.1.income, e.1.expense, e.1.income - e.1.expense, e.1.invoiceCount, e.1.paidCount)
  }

  /** The months that have an invoice created or an expense dated in them. */
  function ActiveMonths(invoices: seq<Invoice>, expenses: seq<Expense>): set<string>
  {
    KeySet(invoices, InvoiceMonth) + KeySet(expenses, ExpenseMonth)
  }

  function MonthsOf(rows: seq<MonthRow>): (r: seq<string>)
    ensures |r| == |rows|
    ensures forall i :: 0 <= i < |rows| ==> r[i] == rows[i].rawMonth
  {
    seq(|rows|, i requires 0 <= i < |rows| => rows[i].rawMonth)
  }

  /** What `monthlyData` is: one row per month that has an invoice or an
      expense, in increasing month order, each carrying that month's
      income, expense, profit, invoice count and paid count. */
  ghost predicate IsMonthlySeries(invoices: seq<Invoice>, expenses: seq<Expense>, rows: seq<MonthRow>)
  {
    && (forall i, j :: 0 <= i < j < |rows| ==> StrLess(rows[i].rawMonth, rows[j].rawMonth))
    && (forall m :: m in MonthsOf(rows) <==> m in ActiveMonths(invoices, expenses))
    && (forall i :: 0 <= i < |rows| ==>
          rows[i] == ToRow((rows[i].rawMonth, TotalsFor(invoices, expenses, rows[i].rawMonth))))
  }

  /** The accumulator after the invoice loop has seen `invoices` and the
      expense loop has seen `expenses`; `order` is the record's key order. */
  ghost predicate Tallied(invoices: seq<Invoice>, expenses: seq<Expense>,
                          order: seq<string>, months: map<string, MonthTotals>)
  {
    && Distinct(order)
    && (forall m :: m in months <==> m in order)
    && months.Keys == ActiveMonths(invoices, expenses)
    && (forall m :: m in months ==> months[m] == TotalsFor(invoices, expenses, m))
  }

  /** The accumulator's update for one invoice: `income += grandTotal`,
      `invoiceCount++`, and `paidCount++` when the invoice is paid. */
  function AddInvoiceTo(t: MonthTotals, inv: Invoice): MonthTotals
  {
    t.(income := t.income + inv.grandTotal,
       invoiceCount := t.invoiceCount + 1,
       paidCount := if inv.status == Paid then t.paidCount + 1 else t.paidCount)
  }

  /** The accumulator's update for one expense: `expense += amount`. */
  function AddExpenseTo(t: MonthTotals, e: Expense): MonthTotals
  {
    t.(expense := t.expense + e.amount)
  }

  const NoTotals := MonthTotals(0.0, 0.0, 0, 0)

  lemma {:induction false} InvoiceTotalsSnoc(invoices: seq<Invoice>, inv: Invoice, m: string)
    ensures TotalsFor(invoices + [inv], [], m) ==
      if m == InvoiceMonth(inv) then AddInvoiceTo(TotalsFor(invoices, [], m), inv)
      else TotalsFor(invoices, [], m)
  {
    var s := invoices + [inv];
    assert s[..|invoices|] == invoices;
    SumWhereSnoc(invoices, inv, InvoiceMonth, m, GrandTotal);
    CountWhereSnoc(invoices, inv, InvoiceMonth, m);
  }

  lemma {:induction false} NewMonthTotals(invoices: seq<Invoice>, expenses: seq<Expense>, m: string)
    requires m !in ActiveMonths(invoices, expenses)
    ensures TotalsFor(invoices, expenses, m) == NoTotals
  {
    KeySetAbsent(invoices, InvoiceMonth, m, GrandTotal);
    KeySetAbsent(expenses, ExpenseMonth, m, ExpenseAmount);
    PaidCountBound(invoices, m);
  }

  lemma {:induction false} InvoiceStep(invoices: seq<Invoice>, inv: Invoice,
                                       order: seq<string>, months: map<string, MonthTotals>)
    requires Tallied(invoices, [], order, months)
    ensures var m := InvoiceMonth(inv);
      Tallied(invoices + [inv], [],
              if m in months then order else order + [m],
              months[m := AddInvoiceTo(if m in months then months[m] else NoTotals, inv)])
  {
    var m := InvoiceMonth(inv);
    var order' := if m in months then order else order + [m];
    var months' := months[m := AddInvoiceTo(if m in months then months[m] else NoTotals, inv)];
    assert Distinct(order') && forall k :: k in months' <==> k in order' by {
      KeyStep(order, months, m, months'[m]);
    }
    assert months'.Keys == ActiveMonths(invoices + [inv], []) by {
      KeySetSnoc(invoices, inv, InvoiceMonth);
    }
    assert forall m' :: m' in months' ==> months'[m'] == TotalsFor(invoices + [inv], [], m') by {
      if m !in months {
        NewMonthTotals(invoices, [], m);
      }
      forall m' | m' in months'
        ensures months'[m'] == TotalsFor(invoices + [inv], [], m')
      {
        InvoiceTotalsSnoc(invoices, inv, m');
      }
    }
  }

  /** One turn of the invoice loop, on the prefix it has seen. */
  lemma InvoiceLoopStep(invoices: seq<Invoice>, i: nat, order: seq<string>, months: map<string, MonthTotals>)
    requires i < |invoices| && Tallied(invoices[..i], [], order, months)
    ensures var m := InvoiceMonth(invoices[i]);
      Tallied(invoices[..i + 1], [],
              if m in months then order else order + [m],
              months[m := AddInvoiceTo(if m in months then months[m] else NoTotals, invoices[i])])
  {
    var seen, inv := invoices[..i], invoices[i];
    assert invoices[..i + 1] == seen + [inv];
    InvoiceStep(seen, inv, order, months);
  }

  /** One turn of the expense loop, on the prefix it has seen. */
  lemma ExpenseLoopStep(invoices: seq<Invoice>, expenses: seq<Expense>, j: nat,
                        order: seq<string>, months: map<string, MonthTotals>)
    requires j < |expenses| && Tallied(invoices, expenses[..j], order, months)
    ensures var m := ExpenseMonth(expenses[j]);
      Tallied(invoices, expenses[..j + 1],
              if m in months then order else order + [m],
              months[m := AddExpenseTo(if m in months then months[m] else NoTotals, expenses[j])])
  {
    var seen, e := expenses[..j], expenses[j];
    assert expenses[..j + 1] == seen + [e];
    ExpenseStep(invoices, seen, e, order, months);
  }

  /** Adding a key to the record appends it to the key order once. */
  lemma KeyStep<V>(order: seq<string>, months: map<string, V>, m: string, v: V)
    requires Distinct(order)
    requires forall k :: k in months <==> k in order
    ensures var order' := if m in months then order else order + [m];
      Distinct(order') && forall k :: k in months[m := v] <==> k in order'
  {
  }

  lemma {:induction false} ExpenseStep(invoices: seq<Invoice>, expenses: seq<Expense>, e: Expense,
                                       order: seq<string>, months: map<string, MonthTotals>)
    requires Tallied(invoices, expenses, order, months)
    ensures var m := ExpenseMonth(e);
      Tallied(invoices, expenses + [e],
              if m in months then order else order + [m],
              months[m := AddExpenseTo(if m in months then months[m] else NoTotals, e)])
  {
    var m := ExpenseMonth(e);
    var order' := if m in months then order else order + [m];
    var months' := months[m := AddExpenseTo(if m in months then months[m] else NoTotals, e)];
    assert Distinct(order') && forall k :: k in months' <==> k in order' by {
      KeyStep(order, months, m, months'[m]);
    }
    assert months'.Keys == ActiveMonths(invoices, expenses + [e]) by {
      KeySetSnoc(expenses, e, ExpenseMonth);
    }
    assert forall m' :: m' in months' ==> months'[m'] == TotalsFor(invoices, expenses + [e], m') by {
      if m !in months {
        NewMonthTotals(invoices, expenses, m);
      }
      forall m' | m' in months'
        ensures months'[m'] == TotalsFor(invoices, expenses + [e], m')
      {
        ExpenseTotalsSnoc(invoices, expenses, e, m');
      }
    }
  }

  lemma ExpenseTotalsSnoc(invoices: seq<Invoice>, expenses: seq<Expense>, e: Expense, m: string)
    ensures TotalsFor(invoices, expenses + [e], m) ==
      if m == ExpenseMonth(e) then AddExpenseTo(TotalsFor(invoices, expenses, m), e)
      else TotalsFor(invoices, expenses, m)
  {
    SumWhereSnoc(expenses, e, ExpenseMonth, m, ExpenseAmount);
  }

  /** `Object.entries(months)` in the record's key order. */
  function MonthEntries(order: seq<string>, months: map<string, MonthTotals>): (r: seq<(string, MonthTotals)>)
    requires forall m :: m in order ==> m in months
    ensures |r| == |order|
    ensures forall k :: 0 <= k < |r| ==> r[k] == (order[k], months[order[k]])
  {
    seq(|order|, k requires 0 <= k < |order| => (order[k], months[order[k]]))
  }

  /** The `.map` over the sorted entries. */
  function ToRows(sorted: seq<(string, MonthTotals)>): (r: seq<MonthRow>)
    ensures |r| == |sorted|
    ensures forall i :: 0 <= i < |r| ==> r[i] == ToRow(sorted[i])
  {
    seq(|sorted|, i requires 0 <= i < |sorted| => ToRow(sorted[i]))
  }

  /** Sorting the tallied entries by month and mapping them to rows gives
      the series. */
  lemma {:induction false} SortedTallyIsSeries(invoices: seq<Invoice>, expenses: seq<Expense>,
                                               order: seq<string>, months: map<string, MonthTotals>,
                                               sorted: seq<(string, MonthTotals)>)
    requires Tallied(invoices, expenses, order, months)
    requires StrictlyAscending(sorted)
    requires multiset(sorted) == multiset(MonthEntries(order, months))
    ensures IsMonthlySeries(invoices, expenses, ToRows(sorted))
  {
    SortedEntriesFromRecord(order, months, sorted);
    RecordKeysSorted(order, months, sorted);
  }

  /** Each sorted entry is an entry of the record. */
  lemma SortedEntriesFromRecord(order: seq<string>, months: map<string, MonthTotals>,
                                sorted: seq<(string, MonthTotals)>)
    requires forall m :: m in order ==> m in months
    requires multiset(sorted) == multiset(MonthEntries(order, months))
    ensures forall i :: 0 <= i < |sorted| ==> sorted[i].0 in months && sorted[i].1 == months[sorted[i].0]
  {
    var entries := MonthEntries(order, months);
    forall i | 0 <= i < |sorted|
      ensures sorted[i].0 in months && sorted[i].1 == months[sorted[i].0]
    {
      assert sorted[i] in multiset(entries);
      var k :| 0 <= k < |entries| && entries[k] == sorted[i];
    }
  }

  /** Each key of the record heads a row of the sorted series. */
  lemma RecordKeysSorted(order: seq<string>, months: map<string, MonthTotals>,
                         sorted: seq<(string, MonthTotals)>)
    requires forall m :: m in months <==> m in order
    requires multiset(sorted) == multiset(MonthEntries(order, months))
    ensures forall m :: m in months ==> m in MonthsOf(ToRows(sorted))
  {
    var entries := MonthEntries(order, months);
    var rows := ToRows(sorted);
    forall m | m in months
      ensures m in MonthsOf(rows)
    {
      var k :| 0 <= k < |order| && order[k] == m;
      assert entries[k] in multiset(sorted);
      var i :| 0 <= i < |sorted| && sorted[i] == entries[k];
      assert MonthsOf(rows)[i] == m;
    }
  }

  /** `monthlyData`: tallies invoices by creation month and expenses by
      date month into a record, then lists its entries by increasing month. */
  method MonthlyData(invoices: seq<Invoice>, expenses: seq<Expense>) returns (rows: seq<MonthRow>)
    ensures IsMonthlySeries(invoices, expenses, rows)
  {
    var order, months := TallyInvoices(invoices);
    order, months := TallyExpenses(invoices, expenses, order, months);
    var entries := MonthEntries(order, months);
    var sorted := SortByKey(entries);
    rows := ToRows(sorted);
    SortedTallyIsSeries(invoices, expenses, order, months, sorted);
  }

  /** The `invoices.forEach` of `monthlyData`, on an empty record. */
  method TallyInvoices(invoices: seq<Invoice>) returns (order: seq<string>, months: map<string, MonthTotals>)
    ensures Tallied(invoices, [], order, months)
  {
    months, order := map[], [];
    var i := 0;
    while i < |invoices|
      invariant 0 <= i <= |invoices|
      invariant Tallied(invoices[..i], [], order, months)
    {
      var inv := invoices[i];
      var m := MonthKey(inv.createdAt);
      InvoiceLoopStep(invoices, i, order, months);
      var t := if m in months then months[m] else NoTotals;
      if m !in months {
        order := order + [m];
      }
      months := months[m := AddInvoiceTo(t, inv)];
      i := i + 1;
    }
    assert invoices[..|invoices|] == invoices;
  }

  /** The `expenses.forEach` of `monthlyData`, on the record the invoices
      left. */
  method TallyExpenses(invoices: seq<Invoice>, expenses: seq<Expense>,
                       order0: seq<string>, months0: map<string, MonthTotals>)
    returns (order: seq<string>, months: map<string, MonthTotals>)
    requires Tallied(invoices, [], order0, months0)
    ensures Tallied(invoices, expenses, order, months)
  {
    order, months := order0, months0;
    var j := 0;
    assert expenses[..0] == [];
    while j < |expenses|
      invariant 0 <= j <= |expenses|
      invariant Tallied(invoices, expenses[..j], order, months)
    {
      var e := expenses[j];
      var m := MonthKey(e.date);
      ExpenseLoopStep(invoices, expenses, j, order, months);
      var t := if m in months then months[m] else NoTotals;
      if m !in months {
        order := order + [m];
      }
      months := months[m := AddExpenseTo(t, e)];
      j := j + 1;
    }
    assert expenses[..|expenses|] == expenses;
  }

  /** The series is determined by the invoices and expenses: any two lists
      meeting the description are equal. */
  lemma {:induction false} MonthlySeriesUnique(invoices: seq<Invoice>, expenses: seq<Expense>,
                                               a: seq<MonthRow>, b: seq<MonthRow>)
    requires IsMonthlySeries(invoices, expenses, a)
    requires IsMonthlySeries(invoices, expenses, b)
    ensures a == b
  {
    AscendingUnique(MonthsOf(a), MonthsOf(b));
    assert |a| == |b|;
    forall i | 0 <= i < |a|
      ensures a[i] == b[i]
    {
      assert MonthsOf(a)[i] == MonthsOf(b)[i];
    }
  }

  /** No row of the series has more paid invoices than invoices. */
  lemma PaidWithinCount(invoices: seq<Invoice>, expenses: seq<Expense>, rows: seq<MonthRow>)
    requires IsMonthlySeries(invoices, expenses, rows)
    ensures forall i :: 0 <= i < |rows| ==> rows[i].paidCount <= rows[i].invoiceCount
  {
    forall i | 0 <= i < |rows|
      ensures rows[i].paidCount <= rows[i].invoiceCount
    {
      PaidCountBound(invoices, rows[i].rawMonth);
    }
  }

  function RowIncome(r: MonthRow): real { r.income }
  function RowExpense(r: MonthRow): real { r.expense }
  function RowProfit(r: MonthRow): real { r.profit }

  /** `totalIncome`: every invoice's grand total, whatever its status. */
  function TotalIncome(invoices: seq<Invoice>): real
  {
    Sum(invoices, GrandTotal)
  }

  /** `totalExpense` */
  function TotalExpense(expenses: seq<Expense>): real
  {
    Sum(expenses, ExpenseAmount)
  }

  lemma {:induction false} RowsSumOverKeys<T>(rows: seq<MonthRow>, s: seq<T>, key: T -> string,
                                              f: T -> real, field: MonthRow -> real)
    requires forall i :: 0 <= i < |rows| ==> field(rows[i]) == SumWhere(s, key, rows[i].rawMonth, f)
    ensures Sum(rows, field) == SumOverKeys(s, key, f, MonthsOf(rows))
  {
    if rows != [] {
      RowsSumOverKeys(rows[..|rows| - 1], s, key, f, field);
      assert MonthsOf(rows)[..|rows| - 1] == MonthsOf(rows[..|rows| - 1]);
    }
  }

  /** The series loses nothing: its incomes add up to the total income,
      its expenses to the total expense, and its profits to the difference. */
  lemma {:induction false} SeriesAddsUp(invoices: seq<Invoice>, expenses: seq<Expense>, rows: seq<MonthRow>)
    requires IsMonthlySeries(invoices, expenses, rows)
    ensures Sum(rows, RowIncome) == TotalIncome(invoices)
    ensures Sum(rows, RowExpense) == TotalExpense(expenses)
    ensures Sum(rows, RowProfit) == TotalIncome(invoices) - TotalExpense(expenses)
  {
    var ks := MonthsOf(rows);
    forall i, j | 0 <= i < j < |ks|
      ensures ks[i] != ks[j]
    {
      if ks[i] == ks[j] {
        StrLessIrreflexive(ks[i]);
      }
    }
    KeySetMembers(invoices, InvoiceMonth);
    KeySetMembers(expenses, ExpenseMonth);
    forall x | x in invoices
      ensures InvoiceMonth(x) in ks
    {
      var i :| 0 <= i < |invoices| && invoices[i] == x;
      assert InvoiceMonth(x) in ActiveMonths(invoices, expenses);
    }
    forall x | x in expenses
      ensures ExpenseMonth(x) in ks
    {
      var j :| 0 <= j < |expenses| && expenses[j] == x;
      assert ExpenseMonth(x) in ActiveMonths(invoices, expenses);
    }
    RowsSumOverKeys(rows, invoices, InvoiceMonth, GrandTotal, RowIncome);
    RowsSumOverKeys(rows, expenses, ExpenseMonth, ExpenseAmount, RowExpense);
    SumOverKeysTotal(invoices, InvoiceMonth, GrandTotal, ks);
    SumOverKeysTotal(expenses, ExpenseMonth, ExpenseAmount, ks);
    SumDifference(rows, RowIncome, RowExpense, RowProfit);
  }

  /** `monthlyData.find((d) => d.rawMonth === currentMonth)` */
  function FindMonth(rows: seq<MonthRow>, month: string): (r: Option<MonthRow>)
    ensures r.None? <==> month !in MonthsOf(rows)
    ensures r.Some? ==> r.value in rows && r.value.rawMonth == month
  {
    if rows == [] then None
    else if rows[0].rawMonth == month then Some(rows[0])
    else
      var r := FindMonth(rows[1..], month);
      assert MonthsOf(rows) == [rows[0].rawMonth] + MonthsOf(rows[1..]);
      r
  }

  /** The current month's row, when there is one, holds the current month's
      figures; there is none exactly when the month has no invoice and no
      expense. */
  lemma CurrentMonthRow(invoices: seq<Invoice>, expenses: seq<Expense>, rows: seq<MonthRow>, month: string)
    requires IsMonthlySeries(invoices, expenses, rows)
    ensures FindMonth(rows, month).None? <==> month !in ActiveMonths(invoices, expenses)
    ensures FindMonth(rows, month).Some? ==>
      FindMonth(rows, month).value == ToRow((month, TotalsFor(invoices, expenses, month)))
  {
  }

  /** One slice of the category pie: the category, its total and its colour. */
  datatype Slice = Slice(name: string, value: real, color: string)

  const ChartColors: seq<string> :=
    ["#1a365d", "#d97706", "#059669", "#dc2626", "#7c3aed", "#0891b2", "#db2777", "#ca8a04"]

  function SliceValue(s: Slice): real { s.value }

  /** The `.map` that colours the sorted entries in turn. */
  function Slices(sorted: seq<Entry>): (r: seq<Slice>)
    ensures |r| == |sorted|
    ensures forall i :: 0 <= i < |r| ==> r[i] == Slice(sorted[i].0, sorted[i].1, ChartColors[i % 8])
  {
    seq(|sorted|, i requires 0 <= i < |sorted| => Slice(sorted[i].0, sorted[i].1, ChartColors[i % 8]))
  }

  function Names(r: seq<Slice>): (names: seq<string>)
    ensures |names| == |r|
    ensures forall i :: 0 <= i < |r| ==> names[i] == r[i].name
  {
    seq(|r|, i requires 0 <= i < |r| => r[i].name)
  }

  /** What a breakdown of `monthExpenses` is: one slice per category met,
      each with the category's total, largest first, coloured in turn, and
      together worth the month's spending. */
  ghost predicate IsBreakdown(monthExpenses: seq<Expense>, r: seq<Slice>)
  {
    && (forall i, j :: 0 <= i < j < |r| ==> r[i].value >= r[j].value)
    && (forall i, j :: 0 <= i < j < |r| ==> r[i].name != r[j].name)
    && (forall i :: 0 <= i < |r| ==>
          r[i].value == SumWhere(monthExpenses, ExpenseCategory, r[i].name, ExpenseAmount))
    && (forall c :: c in Names(r) <==> c in KeySet(monthExpenses, ExpenseCategory))
    && (forall i :: 0 <= i < |r| ==> r[i].color == ChartColors[i % 8])
    && Sum(r, SliceValue) == Sum(monthExpenses, ExpenseAmount)
  }

  /** `categoryBreakdown`: the current month's expenses summed per category,
      largest first, coloured in turn from the eight chart colours. */
  method CategoryBreakdown(expenses: seq<Expense>, currentMonth: string) returns (r: seq<Slice>)
    ensures IsBreakdown(ExpensesIn(expenses, currentMonth), r)
  {
    var monthExpenses := ExpensesIn(expenses, currentMonth);
    var keys, sums := GroupSums(monthExpenses, ExpenseCategory, ExpenseAmount);
    var entries := Entries(keys, sums);
    var sorted := SortDesc(entries);
    r := Slices(sorted);
    BreakdownFacts(monthExpenses, keys, sums);
  }

  /** Sorting a grouping by value and colouring it gives the breakdown. */
  lemma {:induction false} BreakdownFacts(monthExpenses: seq<Expense>, keys: seq<string>, sums: map<string, real>)
    requires Grouped(monthExpenses, ExpenseCategory, ExpenseAmount, keys, sums)
    ensures IsBreakdown(monthExpenses, Slices(SortDesc(Entries(keys, sums))))
  {
    var entries := Entries(keys, sums);
    SortDescDistinctKeys(entries);
    BreakdownValues(monthExpenses, keys, sums);
    BreakdownNames(monthExpenses, keys, sums);
    BreakdownSum(monthExpenses, keys, sums);
  }

  lemma {:induction false} BreakdownValues(monthExpenses: seq<Expense>, keys: seq<string>, sums: map<string, real>)
    requires forall k :: k in sums <==> k in keys
    requires forall k :: k in sums ==> sums[k] == SumWhere(monthExpenses, ExpenseCategory, k, ExpenseAmount)
    ensures var r := Slices(SortDesc(Entries(keys, sums)));
      forall i :: 0 <= i < |r| ==> r[i].value == SumWhere(monthExpenses, ExpenseCategory, r[i].name, ExpenseAmount)
  {
    var entries := Entries(keys, sums);
    var sorted := SortDesc(entries);
    forall i | 0 <= i < |sorted|
      ensures sorted[i].1 == SumWhere(monthExpenses, ExpenseCategory, sorted[i].0, ExpenseAmount)
    {
      assert sorted[i] in multiset(entries);
      var k :| 0 <= k < |entries| && entries[k] == sorted[i];
    }
  }

  lemma {:induction false} BreakdownNames(monthExpenses: seq<Expense>, keys: seq<string>, sums: map<string, real>)
    requires keys == FirstKeys(monthExpenses, ExpenseCategory)
    requires forall k :: k in sums <==> k in keys
    ensures var r := Slices(SortDesc(Entries(keys, sums)));
      forall c :: c in Names(r) <==> c in KeySet(monthExpenses, ExpenseCategory)
  {
    KeySetMembers(monthExpenses, ExpenseCategory);
    NamesFromKeys(keys, sums);
    KeysInNames(keys, sums);
  }

  /** Every sliced name is a key of the summary. */
  lemma NamesFromKeys(keys: seq<string>, sums: map<string, real>)
    requires forall k :: k in keys ==> k in sums
    ensures forall c :: c in Names(Slices(SortDesc(Entries(keys, sums)))) ==> c in keys
  {
    var entries := Entries(keys, sums);
    var sorted := SortDesc(entries);
    var r := Slices(sorted);
    forall c | c in Names(r)
      ensures c in keys
    {
      var i :| 0 <= i < |r| && Names(r)[i] == c;
      assert sorted[i] in multiset(entries);
      var k :| 0 <= k < |entries| && entries[k] == sorted[i];
    }
  }

  /** Every key of the summary gets a slice. */
  lemma KeysInNames(keys: seq<string>, sums: map<string, real>)
    requires forall k :: k in keys ==> k in sums
    ensures forall c :: c in keys ==> c in Names(Slices(SortDesc(Entries(keys, sums))))
  {
    var entries := Entries(keys, sums);
    var sorted := SortDesc(entries);
    var r := Slices(sorted);
    forall c | c in keys
      ensures c in Names(r)
    {
      var k :| 0 <= k < |keys| && keys[k] == c;
      assert entries[k] in multiset(sorted);
      var i :| 0 <= i < |sorted| && sorted[i] == entries[k];
      assert Names(r)[i] == c;
    }
  }

  lemma {:induction false} BreakdownSum(monthExpenses: seq<Expense>, keys: seq<string>, sums: map<string, real>)
    requires Grouped(monthExpenses, ExpenseCategory, ExpenseAmount, keys, sums)
    ensures Sum(Slices(SortDesc(Entries(keys, sums))), SliceValue) == Sum(monthExpenses, ExpenseAmount)
  {
    var entries := Entries(keys, sums);
    SortDescSum(entries);
    GroupTotal(monthExpenses, ExpenseCategory, ExpenseAmount, keys, sums);
    SlicesSum(SortDesc(entries), Slices(SortDesc(entries)));
  }

  lemma {:induction false} SlicesSum(sorted: seq<Entry>, r: seq<Slice>)
    requires |r| == |sorted|
    requires forall i :: 0 <= i < |r| ==> r[i].value == sorted[i].1
    ensures Sum(r, SliceValue) == Sum(sorted, EntryValue)
  {
    if r != [] {
      SlicesSum(sorted[..|sorted| - 1], r[..|r| - 1]);
    }
  }

  /** What `gstSummary` reports for the current month. */
  datatype GstSummary = GstSummary(totalCgst: real, totalSgst: real, totalTax: real, invoiceCount: nat)

  predicate IsGstIn(inv: Invoice, month: string)
  {
    StartsWith(inv.createdAt, month) && inv.invoiceType == Gst
  }

  function TotalCgst(inv: Invoice): real { inv.totalCgst }
  function TotalSgst(inv: Invoice): real { inv.totalSgst }
  function TotalTax(inv: Invoice): real { inv.totalTax }

  /** `monthInvoices`: the GST invoices of the month. */
  function GstInvoicesIn(invoices: seq<Invoice>, month: string): (r: seq<Invoice>)
    ensures forall i :: 0 <= i < |r| ==> r[i] in invoices && IsGstIn(r[i], month)
    ensures forall i :: 0 <= i < |invoices| && IsGstIn(invoices[i], month) ==> invoices[i] in r
  {
    Filter(invoices, GstIn(month))
  }

  /** Each GST invoice of the month is kept as often as it occurs, every
      other invoice not at all. */
  lemma GstInvoicesInCounts(invoices: seq<Invoice>, month: string)
    ensures forall i :: 0 <= i < |invoices| ==>
      multiset(GstInvoicesIn(invoices, month))[invoices[i]]
        == if IsGstIn(invoices[i], month) then multiset(invoices)[invoices[i]] else 0
  {
    FilterCounts(invoices, GstIn(month));
  }

  /** The month's GST invoices keep the store's order. */
  lemma {:induction false} GstInvoicesInKeepsOrder(a: seq<Invoice>, b: seq<Invoice>, month: string)
    ensures GstInvoicesIn(a + b, month) == GstInvoicesIn(a, month) + GstInvoicesIn(b, month)
  {
    FilterAppend(a, b, GstIn(month));
  }

  function GstIn(month: string): Invoice -> bool
  {
    (inv: Invoice) => IsGstIn(inv, month)
  }

  /** `gstSummary`: the month's GST invoices, their tax halves and tax. */
  function SummarizeGst(invoices: seq<Invoice>, month: string): (r: GstSummary)
    ensures r.invoiceCount <= |invoices|
    ensures invoices == [] ==> r == GstSummary(0.0, 0.0, 0.0, 0)
  {
    var gst := GstInvoicesIn(invoices, month);
    GstSummary(Sum(gst, TotalCgst), Sum(gst, TotalSgst), Sum(gst, TotalTax), |gst|)
  }

  /** One more invoice adds its two tax halves, its tax and one to the count
      when it is a GST invoice of the month, and leaves the summary alone
      otherwise. With the empty case this pins the summary of every list. */
  lemma {:induction false} SummarizeGstSnoc(invoices: seq<Invoice>, inv: Invoice, month: string)
    ensures SummarizeGst(invoices + [inv], month)
         == (var s := SummarizeGst(invoices, month);
             if IsGstIn(inv, month)
             then GstSummary(s.totalCgst + inv.totalCgst, s.totalSgst + inv.totalSgst,
                             s.totalTax + inv.totalTax, s.invoiceCount + 1)
             else s)
  {
    var gst := GstInvoicesIn(invoices, month);
    FilterSnoc(invoices, inv, GstIn(month));
    if IsGstIn(inv, month) {
      SumSnoc(gst, inv, TotalCgst);
      SumSnoc(gst, inv, TotalSgst);
      SumSnoc(gst, inv, TotalTax);
    }
  }

  /** The summary of two lists together adds the summaries of each. */
  lemma SummarizeGstAppend(a: seq<Invoice>, b: seq<Invoice>, month: string)
    ensures SummarizeGst(a + b, month).totalCgst == SummarizeGst(a, month).totalCgst + SummarizeGst(b, month).totalCgst
    ensures SummarizeGst(a + b, month).totalSgst == SummarizeGst(a, month).totalSgst + SummarizeGst(b, month).totalSgst
    ensures SummarizeGst(a + b, month).totalTax == SummarizeGst(a, month).totalTax + SummarizeGst(b, month).totalTax
    ensures SummarizeGst(a + b, month).invoiceCount
         == SummarizeGst(a, month).invoiceCount + SummarizeGst(b, month).invoiceCount
  {
    GstInvoicesInKeepsOrder(a, b, month);
    var ga, gb := GstInvoicesIn(a, month), GstInvoicesIn(b, month);
    SumAppend(ga, gb, TotalCgst);
    SumAppend(ga, gb, TotalSgst);
    SumAppend(ga, gb, TotalTax);
  }

  /** Over invoices whose stored totals are consistent and carry no
      inter-state tax, the summary's tax is its two halves. Non-GST
      invoices are left out even when they carry tax. */
  lemma SummaryTaxIsHalves(invoices: seq<Invoice>, month: string)
    requires forall i :: 0 <= i < |invoices| ==>
      CreateInvoice.TotalsConsistent(invoices[i]) && invoices[i].totalIgst == 0.0
    ensures SummarizeGst(invoices, month).totalTax
         == SummarizeGst(invoices, month).totalCgst + SummarizeGst(invoices, month).totalSgst
  {
    var gst := GstInvoicesIn(invoices, month);
    SumAddition(gst);
  }

  lemma {:induction false} SumAddition(s: seq<Invoice>)
    requires forall i :: 0 <= i < |s| ==> s[i].totalTax == s[i].totalCgst + s[i].totalSgst
    ensures Sum(s, TotalTax) == Sum(s, TotalCgst) + Sum(s, TotalSgst)
  {
    if s != [] {
      SumAddition(s[..|s| - 1]);
    }
  }
}
