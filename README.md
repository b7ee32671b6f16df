# BillKaro billing core in Dafny

BillKaro is a small GST billing app for Indian shops. A single store object
owns the customers, the inventory, the invoices and the expenses; the pages
compute totals, summaries and reports from it. This project models the
parts of the app that compute or change data, and proves what they promise:

- the GST calculator and the `INV-YYMM-NNNN` invoice-number generator
  (`GstCalc`);
- the store with its prepend, merge-by-id, delete-by-id and clamped
  stock-decrement mutations (`Store`, class `AppStore`);
- the invoice builder of the create-invoice page: its four row actions,
  the totals and the guarded save that records the invoice and sells the
  stock (`CreateInvoice`, class `InvoiceBuilder`);
- the reports page: the monthly series, the category pie and the GST
  summary (`Reports`);
- the month filters, sums, searches, top-five and recent-five lists and
  form guards of the expenses, inventory, dashboard and invoices pages
  (`ExpensesPage`, `InventoryPage`, `DashboardPage`, `InvoicesPage`);
- the seed data, as concrete witnesses (`Seed`).

Shared pieces: `Types` holds the records, `Seqs` the left folds and filters
the pages use, `Text` the ASCII case folding, prefix tests, code-point
string order and decimal digits, `Sorting` the two sorts
(`b[1] - a[1]` by value and `localeCompare` by key), `Grouping` the
`acc[key] = (acc[key] || 0) + value` record, and `Months` the month filters.

Money, quantities and rates are `real`, so the formulas hold exactly; the
clock, the random parts of ids and invoice numbers, and `Number(...)` of
typed text are parameters. A store mutation changes only the field it
names, as its `modifies` frame says.

Switching the GST toggle off is sometimes taken to make the rows untaxed.
The code only flips the flag: rows already on the invoice keep their tax,
and an invoice saved as non-GST can carry it. The model follows the code,
and `CreateInvoice.SwitchOffKeepsTax` shows such an invoice.

## Model

| member | source | states |
|---|---|---|
| GstCalc.CalculateGst | src/lib/utils.ts:33-42 | the tax is amount times rate over 100, split into equal central and state halves, no inter-state tax, total is amount plus tax |
| GstCalc.ZeroRateNoTax | src/lib/utils.ts:33-42 | at rate 0 every tax figure is 0 and the total is the amount |
| GstCalc.NonNegativeInputs | src/lib/utils.ts:33-42 | a non-negative amount and rate give no negative figure and a total at least the amount |
| GstCalc.HalfRateIsCgst | src/pages/CreateInvoicePage.tsx:111-113 | the builder's per-row `amount * gstRate / 200` is exactly the calculator's central and state half |
| GstCalc.GenerateInvoiceNumber | src/lib/utils.ts:25-31 | for a year of two or more digits the number has 13 characters and parses back to the year mod 100, the month and the suffix |
| GstCalc.GeneratedParses | src/lib/utils.ts:27-30 | "INV-" + last two year digits + padded month + "-" + suffix reads back to its three parts |
| GstCalc.YearPartValue | src/lib/utils.ts:27 | `slice(-2)` of the year is two digits worth the year mod 100 |
| GstCalc.MonthPartValue | src/lib/utils.ts:28 | the zero-padded month is two digits worth the month |
| Text.DigitsRoundTrip | src/lib/utils.ts:27-29 | reading back the decimal digits of a number gives the number |
| Text.StartsWithMonth | src/pages/ReportsPage.tsx:19 | a date starts with a 7-character month exactly when its `slice(0, 7)` is that month |
| Text.StrLessTransitive | src/pages/ReportsPage.tsx:33 | the string order used for month keys is transitive |
| Text.StrLessTotal | src/pages/ReportsPage.tsx:33 | any two different strings are ordered one way or the other |
| Store.Clamp | src/stores/appStore.ts:144 | `max(0, stock - sold)`: never negative, never below the difference, and one of the two |
| Store.StockUpdated | src/stores/appStore.ts:140-150 | only items with the id change, only in their stock, which becomes the clamped difference; length and order kept |
| Store.StockUpdatedUnknownId | src/stores/appStore.ts:142-146 | an id no item carries leaves the inventory unchanged |
| Store.StockUpdatedNonNegative | src/stores/appStore.ts:144 | from non-negative stock, no sale of any quantity leaves a negative stock |
| Store.InvoicesPatched | src/stores/appStore.ts:72-80 | the partial record is merged into every invoice with the id and into no other; length and order kept |
| Store.InventoryPatched | src/stores/appStore.ts:114-122 | the partial record is merged into every item with the id and into no other; length and order kept |
| Store.InvoicesWithout | src/stores/appStore.ts:82-88 | the result holds no invoice with the id and keeps every other invoice, as often as it occurred |
| Store.ExpensesWithout | src/stores/appStore.ts:98-104 | the result holds no expense with the id and keeps every other expense, as often as it occurred |
| Store.InventoryWithout | src/stores/appStore.ts:124-130 | the result holds no item with the id and keeps every other item, as often as it occurred |
| Store.InvoicesWithoutKeepsOrder | src/stores/appStore.ts:84 | deleting from a concatenation deletes from each part, so survivors keep their order |
| Store.ExpensesWithoutKeepsOrder | src/stores/appStore.ts:100 | deleting from a concatenation deletes from each part, so surviving expenses keep their order |
| Store.InventoryWithoutKeepsOrder | src/stores/appStore.ts:126 | deleting from a concatenation deletes from each part, so surviving items keep their order |
| Store.InvoicesWithoutUnknownId | src/stores/appStore.ts:84 | deleting an id no invoice carries changes nothing |
| Store.DeleteUndoesAdd | src/stores/appStore.ts:64-88 | deleting an invoice just prepended, under a fresh id, restores the list |
| Store.AppStore.constructor | src/stores/appStore.ts:37-43 | the store starts from what storage held or the seed, one value per field |
| Store.AppStore.Login | src/stores/appStore.ts:45-52 | succeeds exactly when the email is non-empty and the password has at least 4 characters; only success sets the flag |
| Store.AppStore.Logout | src/stores/appStore.ts:54-57 | clears the logged-in flag |
| Store.AppStore.SetBusinessProfile | src/stores/appStore.ts:59-62 | replaces the profile |
| Store.AppStore.AddInvoice | src/stores/appStore.ts:64-70 | the invoice goes in front of the list |
| Store.AppStore.UpdateInvoice | src/stores/appStore.ts:72-80 | the invoices become `InvoicesPatched` of the old ones |
| Store.AppStore.DeleteInvoice | src/stores/appStore.ts:82-88 | the invoices become `InvoicesWithout` of the old ones |
| Store.AppStore.AddExpense | src/stores/appStore.ts:90-96 | the expense goes in front of the list |
| Store.AppStore.DeleteExpense | src/stores/appStore.ts:98-104 | the expenses become `ExpensesWithout` of the old ones |
| Store.AppStore.AddInventoryItem | src/stores/appStore.ts:106-112 | the item goes in front of the list |
| Store.AppStore.UpdateInventoryItem | src/stores/appStore.ts:114-122 | the inventory becomes `InventoryPatched` of the old one |
| Store.AppStore.DeleteInventoryItem | src/stores/appStore.ts:124-130 | the inventory becomes `InventoryWithout` of the old one |
| Store.AppStore.AddCustomer | src/stores/appStore.ts:132-138 | the customer goes in front of the list |
| Store.AppStore.UpdateStock | src/stores/appStore.ts:140-150 | the inventory becomes `StockUpdated` of the old one |
| CreateInvoice.HalfTax | src/pages/CreateInvoicePage.tsx:112-113 | with the switch on the row's half is the calculator's half; with it off, 0 |
| CreateInvoice.Bump | src/pages/CreateInvoicePage.tsx:58-66 | one more unit at the row's own rate and tax rate; every other field unchanged |
| CreateInvoice.NewInventoryRow | src/pages/CreateInvoicePage.tsx:70-83 | quantity 1, rate and amount the selling price, tax rate the item's only with GST on, equal halves, no inter-state tax |
| CreateInvoice.AddFromInventory | src/pages/CreateInvoicePage.tsx:55-88 | an item already on the invoice bumps its row and keeps the count; a new one appends one row; distinct item ids and row consistency are preserved |
| CreateInvoice.Merged | src/pages/CreateInvoicePage.tsx:58-68 | bumps exactly the rows linked to the item, keeping length and order |
| CreateInvoice.MergeKeepsRows | src/pages/CreateInvoicePage.tsx:58-68 | bumping keeps item ids distinct and rows consistent |
| CreateInvoice.AppendKeepsRows | src/pages/CreateInvoicePage.tsx:69-84 | appending a row for a new item keeps item ids distinct and rows consistent |
| CreateInvoice.CustomRow | src/pages/CreateInvoicePage.tsx:90-105 | an unlinked blank row of quantity 1 with every money field 0 |
| CreateInvoice.EditRow | src/pages/CreateInvoicePage.tsx:108-115 | sets the field, then amount is quantity times rate and both halves are the half-tax at the current switch |
| CreateInvoice.UpdateRows | src/pages/CreateInvoicePage.tsx:107-116 | edits exactly the rows with the id; others, length, order and item ids unchanged; row invariants kept |
| CreateInvoice.RemoveRows | src/pages/CreateInvoicePage.tsx:118-120 | drops the rows with the id and keeps every other row as often as it occurred; row invariants kept |
| CreateInvoice.RemoveRowsKeepsOrder | src/pages/CreateInvoicePage.tsx:118-120 | removing from a concatenation removes from each part, so the other rows keep their order |
| CreateInvoice.ComputeTotals | src/pages/CreateInvoicePage.tsx:122-129 | subtotal, CGST and SGST are the sums of the rows' amounts and halves; no inter-state tax, tax is the sum of the halves, grand total is subtotal plus tax less discount |
| CreateInvoice.TotalsSplitEvenly | src/pages/CreateInvoicePage.tsx:123-125 | on consistent rows the central and state totals agree |
| CreateInvoice.GstTotalsMatchCalculator | src/pages/CreateInvoicePage.tsx:122-129 | rows computed with GST on give a total tax equal to the calculator's tax summed over the rows |
| CreateInvoice.NonGstTotalsUntaxed | src/pages/CreateInvoicePage.tsx:122-129 | rows computed with GST off give no tax and a grand total of subtotal less discount |
| CreateInvoice.Validate | src/pages/CreateInvoicePage.tsx:131-143 | the three guards in order: no customer, no rows, a row with an empty name or a rate of at most 0; passes exactly otherwise |
| CreateInvoice.FindCustomer | src/pages/CreateInvoicePage.tsx:43 | none exactly when no customer has the id; otherwise the first customer with it |
| CreateInvoice.BuildInvoice | src/pages/CreateInvoicePage.tsx:145-162 | the invoice carries the rows' totals consistently, type gst exactly when the switch is on, the given status and fields, and no payment date |
| CreateInvoice.StockAfterSale | src/pages/CreateInvoicePage.tsx:164-166 | selling the rows keeps the inventory's length and ids |
| CreateInvoice.SaleStep | src/pages/CreateInvoicePage.tsx:164-166 | one more turn of the save loop sells one more row |
| CreateInvoice.StockAfterSaleAt | src/pages/CreateInvoicePage.tsx:164-166 | with distinct item ids, a sold item's stock becomes `max(0, stock - quantity)` once and every other item is unchanged |
| CreateInvoice.StockAfterSaleNonNegative | src/pages/CreateInvoicePage.tsx:164-166 | saving never leaves a negative stock, whatever the quantities |
| CreateInvoice.UnlinkedRowsKeepStock | src/pages/CreateInvoicePage.tsx:165 | custom rows take nothing out of stock |
| CreateInvoice.InvoiceBuilder.constructor | src/pages/CreateInvoicePage.tsx:31-39 | no rows, GST on, no discount |
| CreateInvoice.InvoiceBuilder.AddItemFromInventory | src/pages/CreateInvoicePage.tsx:55-88 | the rows become `AddFromInventory` of the old rows at the current switch; the builder invariant is kept |
| CreateInvoice.InvoiceBuilder.AddCustomItem | src/pages/CreateInvoicePage.tsx:90-105 | a custom row is appended; the builder invariant is kept |
| CreateInvoice.InvoiceBuilder.UpdateItem | src/pages/CreateInvoicePage.tsx:107-116 | the rows become `UpdateRows` of the old rows; the builder invariant is kept |
| CreateInvoice.InvoiceBuilder.RemoveItem | src/pages/CreateInvoicePage.tsx:118-120 | the rows become `RemoveRows` of the old rows; the builder invariant is kept |
| CreateInvoice.InvoiceBuilder.SetGst | src/pages/CreateInvoicePage.tsx:187 | only the flag changes; no row is recomputed |
| CreateInvoice.InvoiceBuilder.SetDiscount | src/pages/CreateInvoicePage.tsx:34 | replaces the discount |
| CreateInvoice.InvoiceBuilder.Save | src/pages/CreateInvoicePage.tsx:131-171 | a failed guard changes neither stock nor invoices; otherwise each linked row is sold in order and the built invoice is prepended |
| CreateInvoice.AddTwiceMerges | src/pages/CreateInvoicePage.tsx:55-88 | picking one item twice gives one row of quantity 2 |
| CreateInvoice.SwitchOffKeepsTax | src/pages/CreateInvoicePage.tsx:148 | a row added with GST on, then saved with the switch off, yields a non-GST invoice with positive tax |
| Sorting.SortDesc | src/pages/ReportsPage.tsx:54 | sorted by value, largest first, a permutation of the input |
| Sorting.InsertDesc | src/pages/ReportsPage.tsx:54 | inserting into a sorted list keeps it sorted and adds exactly the one entry |
| Sorting.SortDescSorted | src/pages/ExpensesPage.tsx:81 | an already sorted list comes back unchanged |
| Sorting.SortDescIdempotent | src/pages/ExpensesPage.tsx:81 | sorting twice is sorting once |
| Sorting.SortDescStable | src/pages/ReportsPage.tsx:54 | entries of equal value come out in the order they went in |
| Sorting.SortDescSum | src/pages/ReportsPage.tsx:54 | sorting keeps the total of the values |
| Sorting.SortDescDistinctKeys | src/pages/ReportsPage.tsx:54 | sorting keeps keys distinct |
| Sorting.SortByKey | src/pages/ReportsPage.tsx:33 | distinct keys sorted strictly ascending, a permutation of the input |
| Sorting.InsertByKey | src/pages/ReportsPage.tsx:33 | inserting a new key into an ascending list keeps it ascending and adds exactly the one entry |
| Sorting.AscendingUnique | src/pages/ReportsPage.tsx:32-33 | two strictly ascending lists with the same members are equal |
| Grouping.FirstKeys | src/pages/ExpensesPage.tsx:75-78 | the record's keys: distinct, and exactly the keys some element carries |
| Grouping.GroupSums | src/pages/ExpensesPage.tsx:75-78 | the loop builds the keys in first-met order and, per key, the sum over the elements carrying it |
| Grouping.KeySumsGrouped | src/pages/ReportsPage.tsx:50-52 | the record built element by element is the grouping: per key, the sum over the elements carrying it |
| Grouping.GroupStep | src/pages/ExpensesPage.tsx:76 | one `acc[key] = (acc[key] or 0) + value` step keeps the grouping |
| Grouping.GroupTotal | src/pages/ExpensesPage.tsx:73-78 | the group sums add up to the plain sum |
| Grouping.EntriesDistinct | src/pages/ExpensesPage.tsx:80 | the entries of a record have distinct keys |
| Months.InvoicesIn | src/pages/DashboardPage.tsx:31 | exactly the invoices created in the month |
| Months.ExpensesIn | src/pages/ExpensesPage.tsx:72 | exactly the expenses dated in the month |
| Months.RevenueAfterAdd | src/pages/DashboardPage.tsx:34 | a prepended invoice adds its grand total to its own month's revenue and to no other |
| Months.ExpenseTotalAfterAdd | src/pages/ExpensesPage.tsx:73 | a prepended expense adds its amount to its own month's total and to no other |
| Months.InvoicesInByKey | src/pages/ReportsPage.tsx:18-24 | filtering by date prefix and bucketing by `slice(0, 7)` give the same sums and counts |
| Months.ExpensesInByKey | src/pages/ReportsPage.tsx:26-30 | filtering by date prefix and bucketing by `slice(0, 7)` give the same sums |
| Reports.MonthlyData | src/pages/ReportsPage.tsx:15-43 | one row per month with an invoice or expense, strictly ascending, each with that month's income, expense, profit, invoice count and paid count |
| Reports.TallyInvoices | src/pages/ReportsPage.tsx:18-24 | the invoice loop leaves, for each month that has an invoice, that month's income, invoice count and paid count, each month once |
| Reports.TallyExpenses | src/pages/ReportsPage.tsx:26-30 | the expense loop adds per month the spending, keeping the invoice figures |
| Reports.InvoiceStep | src/pages/ReportsPage.tsx:19-23 | one invoice's turn keeps the tally |
| Reports.ExpenseStep | src/pages/ReportsPage.tsx:27-29 | one expense's turn keeps the tally |
| Reports.NewMonthTotals | src/pages/ReportsPage.tsx:20 | a month not met yet starts from zero totals |
| Reports.SortedTallyIsSeries | src/pages/ReportsPage.tsx:32-42 | the tallied record, sorted by month and mapped to rows, is the monthly series |
| Reports.ToRow | src/pages/ReportsPage.tsx:34-42 | a row's profit is its income less its expense |
| Reports.MonthlySeriesUnique | src/pages/ReportsPage.tsx:15-43 | the series is determined by the invoices and expenses |
| Reports.PaidCountBound | src/pages/ReportsPage.tsx:22-23 | a month has no more paid invoices than invoices |
| Reports.PaidWithinCount | src/pages/ReportsPage.tsx:40-41 | no row of the series has more paid invoices than invoices |
| Reports.SeriesAddsUp | src/pages/ReportsPage.tsx:68-69 | the rows' incomes add up to the total income, their expenses to the total expense, their profits to the difference |
| Reports.FindMonth | src/pages/ReportsPage.tsx:46 | none exactly when no row is for the month; otherwise that month's row |
| Reports.CurrentMonthRow | src/pages/ReportsPage.tsx:45-46 | the current month has a row exactly when it has activity, and the row holds its totals |
| Reports.CategoryBreakdown | src/pages/ReportsPage.tsx:48-56 | one slice per category of the month's expenses, each its category sum, largest first, coloured in turn, together the month's spending |
| Reports.BreakdownFacts | src/pages/ReportsPage.tsx:53-55 | sorting a grouping by value and colouring it gives the breakdown |
| Reports.BreakdownValues | src/pages/ReportsPage.tsx:52-55 | each slice's value is its category's sum |
| Reports.BreakdownNames | src/pages/ReportsPage.tsx:52-55 | the slices name each category met exactly once |
| Reports.BreakdownSum | src/pages/ReportsPage.tsx:48-56 | the slices add up to the month's spending |
| Reports.GstInvoicesIn | src/pages/ReportsPage.tsx:59 | exactly the month's invoices of type gst |
| Reports.GstInvoicesInCounts | src/pages/ReportsPage.tsx:59 | each of the month's GST invoices is kept as often as it occurs, every other invoice not at all |
| Reports.GstInvoicesInKeepsOrder | src/pages/ReportsPage.tsx:59 | selecting from a concatenation selects from each part, so the store order is kept |
| Reports.SummarizeGst | src/pages/ReportsPage.tsx:58-66 | the count of GST invoices is at most the number of invoices; no invoices give an all-zero summary |
| Reports.SummarizeGstSnoc | src/pages/ReportsPage.tsx:58-66 | one more invoice adds its CGST, SGST, tax and one to the count exactly when it is a GST invoice of the month, and changes nothing otherwise |
| Reports.SummarizeGstAppend | src/pages/ReportsPage.tsx:58-66 | the summary of two lists together is the field-wise sum of their summaries |
| Reports.SummaryTaxIsHalves | src/pages/ReportsPage.tsx:61-63 | on consistent invoices the summary's tax is its central plus state tax |
| ExpensesPage.CategorySummary | src/pages/ExpensesPage.tsx:75-78 | the month's spending per category, one key per category met, adding up to the month's total |
| ExpensesPage.TopCategories | src/pages/ExpensesPage.tsx:80-82 | at most five entries, largest first, each a category with its sum |
| ExpensesPage.TopCategoriesDominate | src/pages/ExpensesPage.tsx:80-82 | a category left out is no larger than any shown, and is left out only when five are shown |
| ExpensesPage.TopCategoriesDistinct | src/pages/ExpensesPage.tsx:80-82 | no category is shown twice |
| ExpensesPage.Filtered | src/pages/ExpensesPage.tsx:84-90 | exactly the expenses whose description or vendor contains the search, ignoring case, in the chosen category, each as often as it occurs |
| ExpensesPage.FilteredKeepsOrder | src/pages/ExpensesPage.tsx:84-90 | filtering a concatenation filters each part, so the list keeps store order |
| ExpensesPage.FilteredShowsAll | src/pages/ExpensesPage.tsx:84-90 | an empty search with "all" shows every expense |
| ExpensesPage.Submit | src/pages/ExpensesPage.tsx:92-110 | an incomplete form adds nothing; a complete one prepends the expense it describes |
| ExpensesPage.SubmitCountsTowardItsMonth | src/pages/ExpensesPage.tsx:71-73 | a submitted expense raises the month's total by its amount exactly when dated in that month |
| InventoryPage.Filtered | src/pages/InventoryPage.tsx:70-74 | exactly the items whose name or sku contains the search, ignoring case, in the chosen category, each as often as it occurs |
| InventoryPage.FilteredKeepsOrder | src/pages/InventoryPage.tsx:70-74 | filtering a concatenation filters each part, so the table keeps store order |
| InventoryPage.FilteredShowsAll | src/pages/InventoryPage.tsx:70-74 | an empty search with "all" shows every item |
| InventoryPage.TotalValueNonNegative | src/pages/InventoryPage.tsx:76 | non-negative prices and stock give a non-negative stock value |
| InventoryPage.SaleLowersValue | src/pages/InventoryPage.tsx:76 | `updateStock` with a non-negative quantity never raises the stock value |
| InventoryPage.LowStockItems | src/pages/DashboardPage.tsx:42 | exactly the items at or below their threshold, each as often as it occurs |
| InventoryPage.LowStockItemsKeepOrder | src/pages/DashboardPage.tsx:42 | low items are listed in store order: selecting from a concatenation selects from each part |
| InventoryPage.LowStockCount | src/pages/InventoryPage.tsx:77 | the number of positions holding an item at or below its threshold, which is also the length of the dashboard's list |
| InventoryPage.SoldOutIsLow | src/pages/InventoryPage.tsx:247 | an item sold out is low, whatever its non-negative threshold |
| InventoryPage.EditKeepsIdentity | src/pages/InventoryPage.tsx:85-93 | editing replaces the item's fields by the form's and keeps its id and creation date; other items unchanged |
| InventoryPage.Submit | src/pages/InventoryPage.tsx:79-105 | an incomplete form changes nothing; editing updates the item; otherwise a new item dated today is prepended |
| DashboardPage.PaidCount | src/pages/DashboardPage.tsx:37 | at most the month's invoice count |
| DashboardPage.RevenueIsPaidPlusPending | src/pages/DashboardPage.tsx:34-40 | the month's revenue is the paid amount plus the pending amount |
| DashboardPage.PaidCountByKey | src/pages/DashboardPage.tsx:37 | the dashboard's paid count agrees with the report's for the month |
| DashboardPage.DashboardMatchesReport | src/pages/DashboardPage.tsx:30-37 | for a month the report lists, the dashboard shows the same income, expense, profit and counts |
| DashboardPage.RecentInvoices | src/pages/DashboardPage.tsx:43 | the first five invoices, or all when fewer |
| DashboardPage.NewestFirst | src/pages/DashboardPage.tsx:43 | a newly added invoice heads the recent list and the rest shift down |
| InvoicesPage.Filtered | src/pages/InvoicesPage.tsx:56-63 | exactly the invoices whose number or customer name contains the search, ignoring case, with the chosen status and type, each as often as it occurs |
| InvoicesPage.FilteredKeepsOrder | src/pages/InvoicesPage.tsx:56-63 | filtering a concatenation filters each part, so the list keeps store order |
| InvoicesPage.FilteredShowsAll | src/pages/InvoicesPage.tsx:56-63 | an empty search with both filters on "all" shows every invoice |
| InvoicesPage.FiltersSelect | src/pages/InvoicesPage.tsx:60-61 | choosing a status or a type shows only invoices with it |
| InvoicesPage.MarkedPaid | src/pages/InvoicesPage.tsx:65-68 | the invoice with the id becomes paid with the payment date; nothing else changes |
| InvoicesPage.MarkPaid | src/pages/InvoicesPage.tsx:65-68 | the store's invoices become `MarkedPaid` of the old ones |
| InvoicesPage.MarkedPaidSettles | src/pages/InvoicesPage.tsx:191 | a marked invoice no longer offers the button, marking again changes nothing, and revenue is unchanged |
| Seed.SeedLinesFit | src/constants/mockData.ts:39-109 | every seed line's amount is quantity times rate and its tax halves fit its invoice's type |
| Seed.SeedTotalsConsistent | src/constants/mockData.ts:39-109 | every seed invoice carries the totals of its lines |
| Seed.SeedFirstInvoice | src/constants/mockData.ts:40-48 | the first invoice's line, tax half and grand total agree with the calculator and the totals |
| Seed.SeedInventoryValid | src/constants/mockData.ts:14-37 | seed items have non-negative selling price and stock and a GST slab rate, and every seed line uses a GST slab |
| Seed.SeedLowStock | src/constants/mockData.ts:35-36 | exactly the last two seed items are low |
| Seed.SeedSellFive | src/constants/mockData.ts:35 | selling five lunch boxes with three in stock leaves zero |
| Seed.SeedInvoiceTotals | src/constants/mockData.ts:39-109 | June 2025 has three invoices, two paid; July 2025 five, three paid, with their incomes |
| Seed.SeedExpenseTotals | src/constants/mockData.ts:111-132 | the seed spends 78100 in June 2025 and 78299 in July 2025 |
| Seed.SeedActiveMonths | src/constants/mockData.ts:39-132 | the seed has activity in exactly June and July 2025 |
| Seed.SeedGstSummary | src/constants/mockData.ts:39-109 | the July 2025 GST summary of the seed invoices is inv1, inv2 and inv5: 3192.89 each of CGST and SGST, 6385.78 of tax, three invoices |
| Seed.SeedSeries | src/constants/mockData.ts:39-132 | the seed's monthly series is June then July 2025 with their totals |

## Left out

- Local storage: loading and saving each key is not modelled; the store's constructor takes the loaded values.
- `formatCurrency`, `formatDate` and `cn`: display formatting only.
- The clock, `Math.random` and `Date.now`: dates, the current month, ids and the invoice-number suffix are parameters.
- Reports.MonthlyData: the series holds unrounded income, expense and profit; `Math.round` on them and the localized month label are not modelled.
- Text.Lower: case folding covers ASCII letters only; JavaScript's full Unicode `toLowerCase` is not modelled.
- Sorting.SortByKey: `localeCompare` is modelled as code-point order, which agrees with it on `YYYY-MM` keys.
- Grouping.FirstKeys: object keys are listed in insertion order; JavaScript lists integer-like keys first, which does not arise for month keys or category names.
- Floating-point rounding: money is exact `real`, so rounding errors of JavaScript numbers are not modelled.
- `Number(...)` of form text: the parsed value is a parameter next to the text; how text becomes a number is not modelled.
- The profit margin's `toFixed` on the reports page, the chart colours beyond their cycling, and all rendering, dialogs and toasts.
- The WhatsApp link and PDF printing: calls into the browser.
- The customer and item search lists of the create-invoice page and the default due date: display helpers.
- `MonthlyReport` in src/types/index.ts and the status `overdue`: no code computes the one or sets the other.
- The settings and login pages: they forward to `setBusinessProfile` and `login`, which are modelled.
- `handleDelete` of the invoices page: it calls the store's `deleteInvoice` unchanged, which is `Store.AppStore.DeleteInvoice`.
- LoginAccepted: the password's length counts characters, while JavaScript's `length` counts UTF-16 code units, so a password with characters outside the Basic Multilingual Plane is measured shorter here than in the browser.
- Quantities: the save guard does not check them, so no contract assumes them positive.
