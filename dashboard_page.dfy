/** The dashboard (src/pages/DashboardPage.tsx): this month's revenue,
    spending, profit, paid count and pending amount, the low-stock list and
    the five most recent invoices. */
module DashboardPage {
  import opened Text
  import opened Types
  import opened Seqs
  import opened Months
  import opened Reports

  /** `profit = totalRevenue - totalExpense` for the month. */
  function Profit(invoices: seq<Invoice>, expenses: seq<Expense>, month: string): real
  {
    RevenueIn(invoices, month) - ExpenseTotalIn(expenses, month)
  }

  function IsPaidFn(): Invoice -> bool { (inv: Invoice) => IsPaid(inv) }

  function IsUnpaidFn(): Invoice -> bool { (inv: Invoice) => !IsPaid(inv) }

  /** `paidInvoices`: how many of this month's invoices are paid. */
  function PaidCount(invoices: seq<Invoice>, month: string): (n: nat)
    ensures n <= |InvoicesIn(invoices, month)|
  {
    |Filter(InvoicesIn(invoices, month), IsPaidFn())|
  }

  /** `pendingAmount`: the grand totals of this month's invoices not yet
      paid (drafts, sent and overdue alike). */
  function PendingAmount(invoices: seq<Invoice>, month: string): real
  {
    Sum(Filter(InvoicesIn(invoices, month), IsUnpaidFn()), GrandTotal)
  }

  /** The grand totals of this month's paid invoices. */
  function PaidAmount(invoices: seq<Invoice>, month: string): real
  {
    Sum(Filter(InvoicesIn(invoices, month), IsPaidFn()), GrandTotal)
  }

  /** The month's revenue is what has been paid plus what is pending. */
  lemma RevenueIsPaidPlusPending(invoices: seq<Invoice>, month: string)
    ensures RevenueIn(invoices, month) == PaidAmount(invoices, month) + PendingAmount(invoices, month)
  {
    SumSplit(InvoicesIn(invoices, month), IsPaidFn(), IsUnpaidFn(), GrandTotal);
  }

  /** Counting paid invoices of the month on the dashboard (filter by date
      prefix, then by status) agrees with the report's per-month count. */
  lemma {:induction false} PaidCountByKey(invoices: seq<Invoice>, month: string)
    requires |month| == 7
    ensures PaidCount(invoices, month) == MonthPaidCount(invoices, month)
  {
    if invoices != [] {
      var init, last := invoices[..|invoices| - 1], invoices[|invoices| - 1];
      assert invoices == init + [last];
      PaidCountByKey(init, month);
      StartsWithMonth(last.createdAt, month);
      var inMonth := (inv: Invoice) => StartsWith(inv.createdAt, month);
      FilterAppend(init, [last], inMonth);
      assert [last][..0] == [];
      var picked := if inMonth(last) then [last] else [];
      assert InvoicesIn(invoices, month) == InvoicesIn(init, month) + picked;
      FilterAppend(InvoicesIn(init, month), picked, IsPaidFn());
      if inMonth(last) {
        assert Filter(picked, IsPaidFn()) == if IsPaid(last) then [last] else [];
      }
    }
  }

  /** For every month the report lists, the dashboard shows the same
      figures as the report's row for that month. */
  lemma DashboardMatchesReport(invoices: seq<Invoice>, expenses: seq<Expense>, rows: seq<MonthRow>, i: nat)
    requires IsMonthlySeries(invoices, expenses, rows)
    requires i < |rows| && |rows[i].rawMonth| == 7
    ensures var month := rows[i].rawMonth;
      && rows[i].income == RevenueIn(invoices, month)
      && rows[i].expense == ExpenseTotalIn(expenses, month)
      && rows[i].profit == Profit(invoices, expenses, month)
      && rows[i].invoiceCount == |InvoicesIn(invoices, month)|
      && rows[i].paidCount == PaidCount(invoices, month)
  {
    var month := rows[i].rawMonth;
    InvoicesInByKey(invoices, month, GrandTotal);
    ExpensesInByKey(expenses, month, ExpenseAmount);
    PaidCountByKey(invoices, month);
  }

  /** `recentInvoices = invoices.slice(0, 5)` */
  function RecentInvoices(invoices: seq<Invoice>): (r: seq<Invoice>)
    ensures |r| == if |invoices| < 5 then |invoices| else 5
    ensures forall i :: 0 <= i < |r| ==> r[i] == invoices[i]
  {
    if |invoices| < 5 then invoices else invoices[..5]
  }

  /** Invoices are added at the front, so the newest invoice heads the
      recent list and the oldest of the previous five drops off. */
  lemma NewestFirst(invoices: seq<Invoice>, inv: Invoice)
    ensures RecentInvoices([inv] + invoices)[0] == inv
    ensures RecentInvoices([inv] + invoices)[1..] == RecentInvoices(invoices)[..|RecentInvoices([inv] + invoices)| - 1]
  {
  }
}
