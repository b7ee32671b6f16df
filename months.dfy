/** The calendar month of a record and the "this month" filters shared by
    the dashboard, expenses and reports pages. The current month
    (`new Date().toISOString().slice(0, 7)`) is a parameter. */
module Months {
  import opened Text
  import opened Types
  import opened Seqs

  /** `inv.createdAt.slice(0, 7)` */
  function InvoiceMonth(inv: Invoice): string { MonthKey(inv.createdAt) }

  /** `exp.date.slice(0, 7)` */
  function ExpenseMonth(e: Expense): string { MonthKey(e.date) }

  /** `invoices.filter((i) => i.createdAt.startsWith(month))` */
  function InvoicesIn(invoices: seq<Invoice>, month: string): (r: seq<Invoice>)
    ensures forall i :: 0 <= i < |r| ==> r[i] in invoices && StartsWith(r[i].createdAt, month)
    ensures forall i :: 0 <= i < |invoices| && StartsWith(invoices[i].createdAt, month) ==> invoices[i] in r
  {
    Filter(invoices, (inv: Invoice) => StartsWith(inv.createdAt, month))
  }

  /** `expenses.filter((e) => e.date.startsWith(month))` */
  function ExpensesIn(expenses: seq<Expense>, month: string): (r: seq<Expense>)
    ensures forall i :: 0 <= i < |r| ==> r[i] in expenses && StartsWith(r[i].date, month)
    ensures forall i :: 0 <= i < |expenses| && StartsWith(expenses[i].date, month) ==> expenses[i] in r
  {
    Filter(expenses, (e: Expense) => StartsWith(e.date, month))
  }

  /** The month's revenue on the dashboard: the grand totals of its
      invoices, whatever their status. */
  function RevenueIn(invoices: seq<Invoice>, month: string): real
  {
    Sum(InvoicesIn(invoices, month), GrandTotal)
  }

  /** The month's spending (`totalThisMonth` on the expenses page,
      `totalExpense` on the dashboard). */
  function ExpenseTotalIn(expenses: seq<Expense>, month: string): real
  {
    Sum(ExpensesIn(expenses, month), ExpenseAmount)
  }

  /** A new invoice adds its grand total to the revenue of its own month
      and of no other. */
  lemma RevenueAfterAdd(invoices: seq<Invoice>, inv: Invoice, month: string)
    ensures RevenueIn([inv] + invoices, month)
         == RevenueIn(invoices, month) + (if StartsWith(inv.createdAt, month) then inv.grandTotal else 0.0)
  {
    var p := (i: Invoice) => StartsWith(i.createdAt, month);
    FilterCons(inv, invoices, p);
    SumCons(inv, Filter(invoices, p), GrandTotal);
    assert [] + Filter(invoices, p) == Filter(invoices, p);
  }

  /** A new expense adds its amount to the spending of its own month and of
      no other. */
  lemma ExpenseTotalAfterAdd(expenses: seq<Expense>, e: Expense, month: string)
    ensures ExpenseTotalIn([e] + expenses, month)
         == ExpenseTotalIn(expenses, month) + (if StartsWith(e.date, month) then e.amount else 0.0)
  {
    var p := (x: Expense) => StartsWith(x.date, month);
    FilterCons(e, expenses, p);
    SumCons(e, Filter(expenses, p), ExpenseAmount);
    assert [] + Filter(expenses, p) == Filter(expenses, p);
  }

  /** For a `YYYY-MM` month, filtering by prefix and grouping by the
      seven-character key select the same invoices. */
  lemma InvoicesInByKey(invoices: seq<Invoice>, month: string, f: Invoice -> real)
    requires |month| == 7
    ensures Sum(InvoicesIn(invoices, month), f) == SumWhere(invoices, InvoiceMonth, month, f)
    ensures |InvoicesIn(invoices, month)| == CountWhere(invoices, InvoiceMonth, month)
  {
    forall inv | inv in invoices
      ensures StartsWith(inv.createdAt, month) <==> InvoiceMonth(inv) == month
    {
      StartsWithMonth(inv.createdAt, month);
    }
    SumFilterIsSumWhere(invoices, (inv: Invoice) => StartsWith(inv.createdAt, month), InvoiceMonth, month, f);
  }

  /** The same for expenses. */
  lemma ExpensesInByKey(expenses: seq<Expense>, month: string, f: Expense -> real)
    requires |month| == 7
    ensures Sum(ExpensesIn(expenses, month), f) == SumWhere(expenses, ExpenseMonth, month, f)
  {
    forall e | e in expenses
      ensures StartsWith(e.date, month) <==> ExpenseMonth(e) == month
    {
      StartsWithMonth(e.date, month);
    }
    SumFilterIsSumWhere(expenses, (e: Expense) => StartsWith(e.date, month), ExpenseMonth, month, f);
  }
}
