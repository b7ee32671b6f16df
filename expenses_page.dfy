/** The expenses page (src/pages/ExpensesPage.tsx): this month's spending
    per category, the five largest categories, the search box and category
    filter over all expenses, and the guarded submit of a new expense. */
module ExpensesPage {
  import opened Text
  import opened Types
  import opened Seqs
  import opened Sorting
  import opened Grouping
  import opened Months
  import opened Store

  /** `categorySummary`: this month's spending per category, as a record
      whose keys are listed in the order they are first met. */
  method CategorySummary(expenses: seq<Expense>, currentMonth: string)
    returns (keys: seq<string>, sums: map<string, real>)
    ensures Grouped(ExpensesIn(expenses, currentMonth), ExpenseCategory, ExpenseAmount, keys, sums)
    ensures forall c :: c in sums <==> c in KeySet(ExpensesIn(expenses, currentMonth), ExpenseCategory)
    ensures Sum(Entries(keys, sums), EntryValue) == ExpenseTotalIn(expenses, currentMonth)
  {
    var monthExpenses := ExpensesIn(expenses, currentMonth);
    keys, sums := GroupSums(monthExpenses, ExpenseCategory, ExpenseAmount);
    KeySetMembers(monthExpenses, ExpenseCategory);
    GroupTotal(monthExpenses, ExpenseCategory, ExpenseAmount, keys, sums);
  }

  /** The categories an entry list names. */
  function Categories(top: seq<Entry>): set<string>
  {
    set i | 0 <= i < |top| :: top[i].0
  }

  /** `Object.entries(categorySummary).sort((a, b) => b[1] - a[1]).slice(0, 5)`:
      at most five entries of the summary, largest first. */
  function TopCategories(keys: seq<string>, sums: map<string, real>): (top: seq<Entry>)
    requires forall k :: k in keys ==> k in sums
    ensures |top| == if |keys| < 5 then |keys| else 5
    ensures NonIncreasing(top)
    ensures forall i :: 0 <= i < |top| ==> top[i].0 in keys && top[i].1 == sums[top[i].0]
  {
    var sorted := SortDesc(Entries(keys, sums));
    var n := if |sorted| < 5 then |sorted| else 5;
    forall i | 0 <= i < n
      ensures sorted[i].0 in keys && sorted[i].1 == sums[sorted[i].0]
    {
      assert sorted[i] in multiset(Entries(keys, sums));
    }
    sorted[..n]
  }

  /** A category left out of the top five is no larger than any category
      shown, and one is left out only when five are shown. */
  lemma {:induction false} TopCategoriesDominate(keys: seq<string>, sums: map<string, real>)
    requires forall k :: k in keys ==> k in sums
    ensures var top := TopCategories(keys, sums);
      forall k :: k in keys && k !in Categories(top) ==>
        |top| == 5 && forall i :: 0 <= i < 5 ==> top[i].1 >= sums[k]
  {
    var entries := Entries(keys, sums);
    var sorted := SortDesc(entries);
    var top := TopCategories(keys, sums);
    assert top == sorted[..|top|];
    forall k | k in keys && k !in Categories(top)
      ensures |top| == 5 && forall i :: 0 <= i < 5 ==> top[i].1 >= sums[k]
    {
      var j :| 0 <= j < |keys| && keys[j] == k;
      assert entries[j] == (k, sums[k]);
      assert entries[j] in multiset(sorted);
      var p :| 0 <= p < |sorted| && sorted[p] == (k, sums[k]);
      BeyondShown(top, sorted, p);
      assert |sorted| == |keys|;
      forall i | 0 <= i < 5
        ensures top[i].1 >= sums[k]
      {
        assert top[i] == sorted[i];
      }
    }
  }

  /** An entry whose category is not shown sits past the shown prefix. */
  lemma BeyondShown(top: seq<Entry>, sorted: seq<Entry>, p: nat)
    requires |top| <= |sorted| && top == sorted[..|top|]
    requires p < |sorted| && sorted[p].0 !in Categories(top)
    ensures p >= |top|
  {
  }

  /** The summary's keys are distinct, so no category is shown twice. */
  lemma TopCategoriesDistinct(keys: seq<string>, sums: map<string, real>)
    requires Distinct(keys)
    requires forall k :: k in keys ==> k in sums
    ensures DistinctKeys(TopCategories(keys, sums))
  {
    EntriesDistinct(keys, sums);
    SortDescDistinctKeys(Entries(keys, sums));
  }

  /** The search box and category select of the list. */
  predicate Shown(e: Expense, search: string, categoryFilter: string)
  {
    (Matches(e.description, search) || Matches(e.vendor, search))
    && (categoryFilter == "all" || e.category == categoryFilter)
  }

  function ShownBy(search: string, categoryFilter: string): Expense -> bool
  {
    (e: Expense) => Shown(e, search, categoryFilter)
  }

  /** `filtered`: the expenses the list shows, in store order. */
  function Filtered(expenses: seq<Expense>, search: string, categoryFilter: string): (r: seq<Expense>)
    ensures forall i :: 0 <= i < |r| ==> r[i] in expenses && Shown(r[i], search, categoryFilter)
    ensures forall i :: 0 <= i < |expenses| && Shown(expenses[i], search, categoryFilter) ==> expenses[i] in r
    ensures forall i :: 0 <= i < |expenses| ==>
      multiset(r)[expenses[i]] == if Shown(expenses[i], search, categoryFilter) then multiset(expenses)[expenses[i]] else 0
  {
    FilterCounts(expenses, ShownBy(search, categoryFilter));
    Filter(expenses, ShownBy(search, categoryFilter))
  }

  /** The list keeps the store's order: filtering a concatenation filters each part. */
  lemma {:induction false} FilteredKeepsOrder(a: seq<Expense>, b: seq<Expense>, search: string, categoryFilter: string)
    ensures Filtered(a + b, search, categoryFilter) == Filtered(a, search, categoryFilter) + Filtered(b, search, categoryFilter)
  {
    FilterAppend(a, b, ShownBy(search, categoryFilter));
  }

  /** With an empty search and the "all" category the list shows every expense. */
  lemma FilteredShowsAll(expenses: seq<Expense>)
    ensures Filtered(expenses, "", "all") == expenses
  {
    forall e | e in expenses
      ensures ShownBy("", "all")(e)
    {
      assert Lower("") == "";
      ContainsEmpty(Lower(e.description));
    }
    FilterKeepsAll(expenses, ShownBy("", "all"));
  }

  /** The add-expense dialog. The amount box holds text; `amount` is the
      number `Number(form.amount)` makes of it. */
  datatype ExpenseForm = ExpenseForm(
    category: string, description: string, amountText: string, amount: real,
    date: string, vendor: string, paymentMethod: string)

  /** The submit guard: category, description, amount and vendor are filled in. */
  predicate FormComplete(form: ExpenseForm)
  {
    form.category != "" && form.description != "" && form.amountText != "" && form.vendor != ""
  }

  /** The expense a complete form describes, under the new id `e_<now>`. */
  function NewExpense(form: ExpenseForm, id: string): Expense
  {
    Expense(id, form.category, form.description, form.amount, form.date,
            form.vendor, form.paymentMethod, None)
  }

  /** `handleSubmit`: an incomplete form adds nothing; a complete one puts
      the new expense at the front of the list. */
  method Submit(store: AppStore, form: ExpenseForm, id: string) returns (added: bool)
    modifies store`expenses
    ensures added == FormComplete(form)
    ensures store.expenses == if added then [NewExpense(form, id)] + old(store.expenses) else old(store.expenses)
  {
    if form.category == "" || form.description == "" || form.amountText == "" || form.vendor == "" {
      return false;
    }
    store.AddExpense(NewExpense(form, id));
    added := true;
  }

  /** A submitted expense counts toward the month of its date and no other:
      this month's total rises by its amount exactly when it is dated this
      month. */
  lemma SubmitCountsTowardItsMonth(expenses: seq<Expense>, form: ExpenseForm, id: string, month: string)
    ensures ExpenseTotalIn([NewExpense(form, id)] + expenses, month)
         == ExpenseTotalIn(expenses, month) + (if StartsWith(form.date, month) then form.amount else 0.0)
  {
    ExpenseTotalAfterAdd(expenses, NewExpense(form, id), month);
  }
}
