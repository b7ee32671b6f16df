/** The application store (src/stores/appStore.ts): one object that owns
    every collection and mediates every mutation. Each mutation is a
    prepend, a merge of a partial record into the records with a given id,
    a filter that drops the records with a given id, or the clamped stock
    decrement. */
module Store {
  import opened Types
  import opened Seqs

  /** `email && password.length >= 4` */
  predicate LoginAccepted(email: string, password: string)
  {
    email != "" && |password| >= 4
  }

  /** `Math.max(0, stock - quantitySold)` */
  function Clamp(stock: real, quantitySold: real): (r: real)
    ensures r >= 0.0 && r >= stock - quantitySold
    ensures r == 0.0 || r == stock - quantitySold
  {
    if stock - quantitySold > 0.0 then stock - quantitySold else 0.0
  }

  /** The inventory after `updateStock(itemId, quantitySold)`. */
  function StockUpdated(inventory: seq<InventoryItem>, itemId: string, quantitySold: real): (r: seq<InventoryItem>)
    ensures |r| == |inventory|
    ensures forall k :: 0 <= k < |r| && inventory[k].id == itemId ==>
      r[k] == inventory[k].(stock := r[k].stock) && r[k].stock >= 0.0 &&
      r[k].stock == Clamp(inventory[k].stock, quantitySold)
    ensures forall k :: 0 <= k < |r| && inventory[k].id != itemId ==> r[k] == inventory[k]
  {
    MapWhere(inventory, (x: InventoryItem) => x.id == itemId,
                        (x: InventoryItem) => x.(stock := Clamp(x.stock, quantitySold)))
  }

  /** An id that no item carries leaves the inventory as it was. */
  lemma {:induction false} StockUpdatedUnknownId(inventory: seq<InventoryItem>, itemId: string, quantitySold: real)
    requires forall k :: 0 <= k < |inventory| ==> inventory[k].id != itemId
    ensures StockUpdated(inventory, itemId, quantitySold) == inventory
  {
    var r := StockUpdated(inventory, itemId, quantitySold);
    assert forall k :: 0 <= k < |r| ==> r[k] == inventory[k];
  }

  /** Stock is never driven below zero, whatever quantity is sold, even a
      negative one (which raises the stock). */
  lemma {:induction false} StockUpdatedNonNegative(inventory: seq<InventoryItem>, itemId: string, quantitySold: real)
    requires forall k :: 0 <= k < |inventory| ==> inventory[k].stock >= 0.0
    ensures forall k :: 0 <= k < |inventory| ==> StockUpdated(inventory, itemId, quantitySold)[k].stock >= 0.0
  {
  }

  function OrElse<T>(o: Option<T>, d: T): T
  {
    if o.Some? then o.value else d
  }

  /** `Partial<Invoice>`: the fields a caller chose to set. */
  datatype InvoicePatch = InvoicePatch(
    id: Option<string>, invoiceNumber: Option<string>, invoiceType: Option<InvoiceType>,
    status: Option<InvoiceStatus>, customer: Option<Customer>, items: Option<seq<LineItem>>,
    subtotal: Option<real>, totalCgst: Option<real>, totalSgst: Option<real>,
    totalIgst: Option<real>, totalTax: Option<real>, grandTotal: Option<real>,
    discount: Option<real>, notes: Option<string>, createdAt: Option<string>,
    dueDate: Option<string>, paidAt: Option<string>)

  /** `{ ...inv, ...patch }` */
  function ApplyInvoicePatch(inv: Invoice, p: InvoicePatch): Invoice
  {
    Invoice(
      OrElse(p.id, inv.id), OrElse(p.invoiceNumber, inv.invoiceNumber),
      OrElse(p.invoiceType, inv.invoiceType), OrElse(p.status, inv.status),
      OrElse(p.customer, inv.customer), OrElse(p.items, inv.items),
      OrElse(p.subtotal, inv.subtotal), OrElse(p.totalCgst, inv.totalCgst),
      OrElse(p.totalSgst, inv.totalSgst), OrElse(p.totalIgst, inv.totalIgst),
      OrElse(p.totalTax, inv.totalTax), OrElse(p.grandTotal, inv.grandTotal),
      OrElse(p.discount, inv.discount), OrElse(p.notes, inv.notes),
      OrElse(p.createdAt, inv.createdAt), OrElse(p.dueDate, inv.dueDate),
      if p.paidAt.Some? then p.paidAt else inv.paidAt)
  }

  /** `Partial<InventoryItem>` */
  datatype InventoryPatch = InventoryPatch(
    id: Option<string>, name: Option<string>, sku: Option<string>, category: Option<string>,
    hsnCode: Option<string>, unit: Option<string>, purchasePrice: Option<real>,
    sellingPrice: Option<real>, gstRate: Option<real>, stock: Option<real>,
    lowStockThreshold: Option<real>, createdAt: Option<string>)

  /** `{ ...item, ...patch }` */
  function ApplyInventoryPatch(item: InventoryItem, p: InventoryPatch): InventoryItem
  {
    InventoryItem(
      OrElse(p.id, item.id), OrElse(p.name, item.name), OrElse(p.sku, item.sku),
      OrElse(p.category, item.category), OrElse(p.hsnCode, item.hsnCode),
      OrElse(p.unit, item.unit), OrElse(p.purchasePrice, item.purchasePrice),
      OrElse(p.sellingPrice, item.sellingPrice), OrElse(p.gstRate, item.gstRate),
      OrElse(p.stock, item.stock), OrElse(p.lowStockThreshold, item.lowStockThreshold),
      OrElse(p.createdAt, item.createdAt))
  }

  /** The invoices after `updateInvoice(id, patch)`: the patch is merged into
      every invoice with that id and into no other. */
  function InvoicesPatched(invoices: seq<Invoice>, id: string, p: InvoicePatch): (r: seq<Invoice>)
    ensures |r| == |invoices|
    ensures forall k :: 0 <= k < |r| ==>
      r[k] == if invoices[k].id == id then ApplyInvoicePatch(invoices[k], p) else invoices[k]
  {
    MapWhere(invoices, (inv: Invoice) => inv.id == id, (inv: Invoice) => ApplyInvoicePatch(inv, p))
  }

  /** The inventory after `updateInventoryItem(id, patch)`. */
  function InventoryPatched(inventory: seq<InventoryItem>, id: string, p: InventoryPatch): (r: seq<InventoryItem>)
    ensures |r| == |inventory|
    ensures forall k :: 0 <= k < |r| ==>
      r[k] == if inventory[k].id == id then ApplyInventoryPatch(inventory[k], p) else inventory[k]
  {
    MapWhere(inventory, (x: InventoryItem) => x.id == id, (x: InventoryItem) => ApplyInventoryPatch(x, p))
  }

  /** The invoices after `deleteInvoice(id)`. */
  function InvoicesWithout(invoices: seq<Invoice>, id: string): (r: seq<Invoice>)
    ensures forall k :: 0 <= k < |r| ==> r[k].id != id && r[k] in invoices
    ensures forall k :: 0 <= k < |invoices| && invoices[k].id != id ==> invoices[k] in r
    ensures forall k :: 0 <= k < |invoices| ==>
      multiset(r)[invoices[k]] == if invoices[k].id != id then multiset(invoices)[invoices[k]] else 0
  {
    var keep := (inv: Invoice) => inv.id != id;
    FilterCounts(invoices, keep);
    Filter(invoices, keep)
  }

  /** The expenses after `deleteExpense(id)`. */
  function ExpensesWithout(expenses: seq<Expense>, id: string): (r: seq<Expense>)
    ensures forall k :: 0 <= k < |r| ==> r[k].id != id && r[k] in expenses
    ensures forall k :: 0 <= k < |expenses| && expenses[k].id != id ==> expenses[k] in r
    ensures forall k :: 0 <= k < |expenses| ==>
      multiset(r)[expenses[k]] == if expenses[k].id != id then multiset(expenses)[expenses[k]] else 0
  {
    var keep := (e: Expense) => e.id != id;
    FilterCounts(expenses, keep);
    Filter(expenses, keep)
  }

  /** The inventory after `deleteInventoryItem(id)`. */
  function InventoryWithout(inventory: seq<InventoryItem>, id: string): (r: seq<InventoryItem>)
    ensures forall k :: 0 <= k < |r| ==> r[k].id != id && r[k] in inventory
    ensures forall k :: 0 <= k < |inventory| && inventory[k].id != id ==> inventory[k] in r
    ensures forall k :: 0 <= k < |inventory| ==>
      multiset(r)[inventory[k]] == if inventory[k].id != id then multiset(inventory)[inventory[k]] else 0
  {
    var keep := (x: InventoryItem) => x.id != id;
    FilterCounts(inventory, keep);
    Filter(inventory, keep)
  }

  /** Deleting keeps the surviving invoices in their order: the deletion of a
      concatenation is the concatenation of the deletions. */
  lemma {:induction false} InvoicesWithoutKeepsOrder(a: seq<Invoice>, b: seq<Invoice>, id: string)
    ensures InvoicesWithout(a + b, id) == InvoicesWithout(a, id) + InvoicesWithout(b, id)
  {
    FilterAppend(a, b, (inv: Invoice) => inv.id != id);
  }

  /** Deleting an expense keeps the surviving expenses in their order. */
  lemma {:induction false} ExpensesWithoutKeepsOrder(a: seq<Expense>, b: seq<Expense>, id: string)
    ensures ExpensesWithout(a + b, id) == ExpensesWithout(a, id) + ExpensesWithout(b, id)
  {
    FilterAppend(a, b, (e: Expense) => e.id != id);
  }

  /** Deleting an inventory item keeps the surviving items in their order. */
  lemma {:induction false} InventoryWithoutKeepsOrder(a: seq<InventoryItem>, b: seq<InventoryItem>, id: string)
    ensures InventoryWithout(a + b, id) == InventoryWithout(a, id) + InventoryWithout(b, id)
  {
    FilterAppend(a, b, (x: InventoryItem) => x.id != id);
  }

  /** Deleting an id no invoice carries changes nothing. */
  lemma {:induction false} InvoicesWithoutUnknownId(invoices: seq<Invoice>, id: string)
    requires forall k :: 0 <= k < |invoices| ==> invoices[k].id != id
    ensures InvoicesWithout(invoices, id) == invoices
  {
    FilterKeepsAll(invoices, (inv: Invoice) => inv.id != id);
  }

  /** Deleting the invoice just added restores the list it was added to. */
  lemma {:induction false} DeleteUndoesAdd(invoices: seq<Invoice>, inv: Invoice)
    requires forall k :: 0 <= k < |invoices| ==> invoices[k].id != inv.id
    ensures InvoicesWithout([inv] + invoices, inv.id) == invoices
  {
    InvoicesWithoutKeepsOrder([inv], invoices, inv.id);
    InvoicesWithoutUnknownId(invoices, inv.id);
    assert InvoicesWithout([inv], inv.id) == [];
  }

  class AppStore {
    var isLoggedIn: bool
    var businessProfile: BusinessProfile
    var invoices: seq<Invoice>
    var expenses: seq<Expense>
    var inventory: seq<InventoryItem>
    var customers: seq<Customer>

    /** The store as loaded: for each key, what local storage held or the seed. */
    constructor (loggedIn: bool, profile: BusinessProfile, invoices0: seq<Invoice>,
                 expenses0: seq<Expense>, inventory0: seq<InventoryItem>, customers0: seq<Customer>)
      ensures isLoggedIn == loggedIn && businessProfile == profile
      ensures invoices == invoices0 && expenses == expenses0
      ensures inventory == inventory0 && customers == customers0
    {
      isLoggedIn, businessProfile := loggedIn, profile;
      invoices, expenses, inventory, customers := invoices0, expenses0, inventory0, customers0;
    }

    method Login(email: string, password: string) returns (ok: bool)
      modifies this`isLoggedIn
      ensures ok == LoginAccepted(email, password)
      ensures isLoggedIn == if ok then true else old(isLoggedIn)
    {
      ok := email != "" && |password| >= 4;
      if ok {
        isLoggedIn := true;
      }
    }

    method Logout()
      modifies this`isLoggedIn
      ensures !isLoggedIn
    {
      isLoggedIn := false;
    }

    method SetBusinessProfile(profile: BusinessProfile)
      modifies this`businessProfile
      ensures businessProfile == profile
    {
      businessProfile := profile;
    }

    method AddInvoice(invoice: Invoice)
      modifies this`invoices
      ensures invoices == [invoice] + old(invoices)
    {
      invoices := [invoice] + invoices;
    }

    method UpdateInvoice(id: string, patch: InvoicePatch)
      modifies this`invoices
      ensures invoices == InvoicesPatched(old(invoices), id, patch)
    {
      invoices := InvoicesPatched(invoices, id, patch);
    }

    method DeleteInvoice(id: string)
      modifies this`invoices
      ensures invoices == InvoicesWithout(old(invoices), id)
    {
      invoices := InvoicesWithout(invoices, id);
    }

    method AddExpense(expense: Expense)
      modifies this`expenses
      ensures expenses == [expense] + old(expenses)
    {
      expenses := [expense] + expenses;
    }

    method DeleteExpense(id: string)
      modifies this`expenses
      ensures expenses == ExpensesWithout(old(expenses), id)
    {
      expenses := ExpensesWithout(expenses, id);
    }

    method AddInventoryItem(item: InventoryItem)
      modifies this`inventory
      ensures inventory == [item] + old(inventory)
    {
      inventory := [item] + inventory;
    }

    method UpdateInventoryItem(id: string, patch: InventoryPatch)
      modifies this`inventory
      ensures inventory == InventoryPatched(old(inventory), id, patch)
    {
      inventory := InventoryPatched(inventory, id, patch);
    }

    method DeleteInventoryItem(id: string)
      modifies this`inventory
      ensures inventory == InventoryWithout(old(inventory), id)
    {
      inventory := InventoryWithout(inventory, id);
    }

    method AddCustomer(customer: Customer)
      modifies this`customers
      ensures customers == [customer] + old(customers)
    {
      customers := [customer] + customers;
    }

    method UpdateStock(itemId: string, quantitySold: real)
      modifies this`inventory
      ensures inventory == StockUpdated(old(inventory), itemId, quantitySold)
    {
      inventory := StockUpdated(inventory, itemId, quantitySold);
    }
  }
}
