/** The invoice builder of the create-invoice page
    (src/pages/CreateInvoicePage.tsx): the rows being edited, the GST switch
    and the discount, the four row actions, the totals, and the guarded save
    that records the invoice and takes the sold quantities out of stock. */
module CreateInvoice {
  import opened Types
  import opened Seqs
  import opened GstCalc
  import opened Store

  /** The tax half written into a row's `cgst` and `sgst`: the calculator's
      half at the row's rate on a GST invoice, nothing otherwise. */
  function HalfTax(amount: real, gstRate: real, isGst: bool): (r: real)
    ensures isGst ==> r == CalculateGst(amount, gstRate).cgst
    ensures !isGst ==> r == 0.0
  {
    if isGst then amount * gstRate / 200.0 else 0.0
  }

  /** What every row keeps true under all four row actions: the amount is
      quantity times rate, the halves are equal, no inter-state tax, and the
      half is either suppressed or the exact half-rate of the amount. Which
      of the last two depends on the GST switch at the row's last add or edit,
      not on the switch now. */
  ghost predicate RowConsistent(li: LineItem)
  {
    && li.amount == li.quantity * li.rate
    && li.cgst == li.sgst
    && li.igst == 0.0
    && (li.cgst == 0.0 || li.cgst == li.amount * li.gstRate / 200.0)
  }

  ghost predicate AllConsistent(rows: seq<LineItem>)
  {
    forall k :: 0 <= k < |rows| ==> RowConsistent(rows[k])
  }

  /** No two rows point at the same inventory item. */
  ghost predicate DistinctItemIds(rows: seq<LineItem>)
  {
    forall i, j :: 0 <= i < j < |rows| && rows[i].itemId.Some? ==> rows[i].itemId != rows[j].itemId
  }

  predicate HasItem(rows: seq<LineItem>, itemId: string)
  {
    exists k :: 0 <= k < |rows| && rows[k].itemId == Some(itemId)
  }

  /** A row picked again from inventory: one more unit at the row's own
      rate and rate of tax. */
  function Bump(li: LineItem, isGst: bool): (r: LineItem)
    ensures r.quantity == li.quantity + 1.0 && r.amount == r.quantity * li.rate
    ensures r.cgst == r.sgst == HalfTax(r.amount, li.gstRate, isGst)
    ensures r.(quantity := li.quantity, amount := li.amount, cgst := li.cgst, sgst := li.sgst) == li
  {
    li.(quantity := li.quantity + 1.0,
        amount := (li.quantity + 1.0) * li.rate,
        cgst := if isGst then (li.quantity + 1.0) * li.rate * li.gstRate / 200.0 else 0.0,
        sgst := if isGst then (li.quantity + 1.0) * li.rate * li.gstRate / 200.0 else 0.0)
  }

  /** A row for an inventory item not yet on the invoice. */
  function NewInventoryRow(item: InventoryItem, isGst: bool, rowId: string): (r: LineItem)
    ensures r.id == rowId && r.itemId == Some(item.id)
    ensures r.name == item.name && r.hsnCode == item.hsnCode && r.unit == item.unit
    ensures r.quantity == 1.0 && r.rate == item.sellingPrice && r.amount == item.sellingPrice
    ensures r.gstRate == (if isGst then item.gstRate else 0.0)
    ensures r.cgst == r.sgst == HalfTax(r.amount, r.gstRate, isGst) && r.igst == 0.0
    ensures RowConsistent(r)
  {
    LineItem(rowId, Some(item.id), item.name, item.hsnCode, 1.0, item.unit,
             item.sellingPrice, if isGst then item.gstRate else 0.0, item.sellingPrice,
             if isGst then item.sellingPrice * item.gstRate / 200.0 else 0.0,
             if isGst then item.sellingPrice * item.gstRate / 200.0 else 0.0,
             0.0)
  }

  /** `addItemFromInventory`: merge by inventory id, or append a new row. */
  function AddFromInventory(rows: seq<LineItem>, item: InventoryItem, isGst: bool, rowId: string): (r: seq<LineItem>)
    ensures HasItem(rows, item.id) ==> |r| == |rows|
    ensures HasItem(rows, item.id) ==> forall k :: 0 <= k < |rows| ==>
      r[k] == if rows[k].itemId == Some(item.id) then Bump(rows[k], isGst) else rows[k]
    ensures !HasItem(rows, item.id) ==> r == rows + [NewInventoryRow(item, isGst, rowId)]
    ensures DistinctItemIds(rows) ==> DistinctItemIds(r)
    ensures AllConsistent(rows) ==> AllConsistent(r)
  {
    if HasItem(rows, item.id) then
      MergeKeepsRows(rows, item.id, isGst);
      Merged(rows, item.id, isGst)
    else
      AppendKeepsRows(rows, item, isGst, rowId);
      rows + [NewInventoryRow(item, isGst, rowId)]
  }

  /** Every row linked to `itemId` bumped by one unit, the rest as they were. */
  function Merged(rows: seq<LineItem>, itemId: string, isGst: bool): (r: seq<LineItem>)
    ensures |r| == |rows|
    ensures forall k :: 0 <= k < |rows| ==>
      r[k] == if rows[k].itemId == Some(itemId) then Bump(rows[k], isGst) else rows[k]
  {
    MapWhere(rows, (li: LineItem) => li.itemId == Some(itemId), (li: LineItem) => Bump(li, isGst))
  }

  /** Bumping keeps every row's inventory id and every row consistent. */
  lemma MergeKeepsRows(rows: seq<LineItem>, itemId: string, isGst: bool)
    ensures DistinctItemIds(rows) ==> DistinctItemIds(Merged(rows, itemId, isGst))
    ensures AllConsistent(rows) ==> AllConsistent(Merged(rows, itemId, isGst))
  {
    var r := Merged(rows, itemId, isGst);
    assert forall k :: 0 <= k < |r| ==> r[k].itemId == rows[k].itemId;
  }

  /** A new row for an item not yet on the invoice keeps the ids distinct
      and the rows consistent. */
  lemma AppendKeepsRows(rows: seq<LineItem>, item: InventoryItem, isGst: bool, rowId: string)
    requires !HasItem(rows, item.id)
    ensures DistinctItemIds(rows) ==> DistinctItemIds(rows + [NewInventoryRow(item, isGst, rowId)])
    ensures AllConsistent(rows) ==> AllConsistent(rows + [NewInventoryRow(item, isGst, rowId)])
  {
  }

  /** `addCustomItem`: a blank row, not linked to inventory. */
  function CustomRow(rowId: string): (r: LineItem)
    ensures r.itemId.None? && r.name == "" && r.quantity == 1.0
    ensures r.rate == 0.0 && r.gstRate == 0.0 && r.amount == 0.0
    ensures r.cgst == 0.0 && r.sgst == 0.0 && r.igst == 0.0
    ensures RowConsistent(r)
  {
    LineItem(rowId, None, "", "", 1.0, "Pcs", 0.0, 0.0, 0.0, 0.0, 0.0, 0.0)
  }

  /** The editable fields of a row, each with the value typed in. */
  datatype Field =
    | SetName(text: string)
    | SetHsnCode(text: string)
    | SetQuantity(number: real)
    | SetUnit(text: string)
    | SetRate(number: real)
    | SetGstRate(number: real)

  /** `{ ...item, [field]: value }` */
  function Assign(li: LineItem, f: Field): LineItem
  {
    match f
    case SetName(t) => li.(name := t)
    case SetHsnCode(t) => li.(hsnCode := t)
    case SetQuantity(q) => li.(quantity := q)
    case SetUnit(t) => li.(unit := t)
    case SetRate(x) => li.(rate := x)
    case SetGstRate(g) => li.(gstRate := g)
  }

  /** One edit of one row: the field is set, then the amount and both tax
      halves are recomputed from the edited row and the current switch. */
  function EditRow(li: LineItem, f: Field, isGst: bool): (r: LineItem)
    ensures r.(amount := li.amount, cgst := li.cgst, sgst := li.sgst) == Assign(li, f)
    ensures r.amount == r.quantity * r.rate
    ensures r.cgst == r.sgst == HalfTax(r.amount, r.gstRate, isGst)
    ensures li.igst == 0.0 ==> RowConsistent(r)
  {
    var updated := Assign(li, f);
    var amount := updated.quantity * updated.rate;
    updated.(amount := amount,
             cgst := if isGst then amount * updated.gstRate / 200.0 else 0.0,
             sgst := if isGst then amount * updated.gstRate / 200.0 else 0.0)
  }

  /** `updateItem(id, field, value)` over all rows. */
  function UpdateRows(rows: seq<LineItem>, id: string, f: Field, isGst: bool): (r: seq<LineItem>)
    ensures |r| == |rows|
    ensures forall k :: 0 <= k < |rows| ==>
      r[k] == if rows[k].id == id then EditRow(rows[k], f, isGst) else rows[k]
    ensures forall k :: 0 <= k < |rows| ==> r[k].itemId == rows[k].itemId
    ensures DistinctItemIds(rows) ==> DistinctItemIds(r)
    ensures AllConsistent(rows) ==> AllConsistent(r)
  {
    MapWhere(rows, (li: LineItem) => li.id == id, (li: LineItem) => EditRow(li, f, isGst))
  }

  /** `removeItem(id)`: the rows with another id, in their order. */
  function RemoveRows(rows: seq<LineItem>, id: string): (r: seq<LineItem>)
    ensures forall k :: 0 <= k < |r| ==> r[k].id != id && r[k] in rows
    ensures forall k :: 0 <= k < |rows| && rows[k].id != id ==> rows[k] in r
    ensures forall k :: 0 <= k < |rows| ==>
      multiset(r)[rows[k]] == if rows[k].id != id then multiset(rows)[rows[k]] else 0
    ensures DistinctItemIds(rows) ==> DistinctItemIds(r)
    ensures AllConsistent(rows) ==> AllConsistent(r)
  {
    RemoveRowsDistinct(rows, id);
    FilterCounts(rows, (li: LineItem) => li.id != id);
    Filter(rows, (li: LineItem) => li.id != id)
  }

  /** Removing a row keeps the other rows in their order. */
  lemma {:induction false} RemoveRowsKeepsOrder(a: seq<LineItem>, b: seq<LineItem>, id: string)
    ensures RemoveRows(a + b, id) == RemoveRows(a, id) + RemoveRows(b, id)
  {
    FilterAppend(a, b, (li: LineItem) => li.id != id);
  }

  lemma RemoveRowsDistinct(rows: seq<LineItem>, id: string)
    ensures DistinctItemIds(rows) ==> DistinctItemIds(Filter(rows, (li: LineItem) => li.id != id))
  {
    if DistinctItemIds(rows) {
      FilterPairwise(rows, (li: LineItem) => li.id != id,
                     (a: LineItem, b: LineItem) => a.itemId.Some? ==> a.itemId != b.itemId);
    }
  }

  /** What `totals` computes. */
  datatype Totals = Totals(subtotal: real, totalCgst: real, totalSgst: real,
                           totalIgst: real, totalTax: real, grandTotal: real)

  /** `totals`: sums over the rows, then tax and the discounted grand total. */
  function ComputeTotals(rows: seq<LineItem>, discount: real): (t: Totals)
    ensures t.subtotal == Sum(rows, Amount)
    ensures t.totalCgst == Sum(rows, Cgst) && t.totalSgst == Sum(rows, Sgst)
    ensures t.totalIgst == 0.0
    ensures t.totalTax == t.totalCgst + t.totalSgst
    ensures t.grandTotal == t.subtotal + t.totalTax - discount
  {
    var subtotal := Sum(rows, Amount);
    var totalCgst := Sum(rows, Cgst);
    var totalSgst := Sum(rows, Sgst);
    Totals(subtotal, totalCgst, totalSgst, 0.0, totalCgst + totalSgst,
           subtotal + (totalCgst + totalSgst) - discount)
  }

  /** On consistent rows the central and state totals agree. */
  lemma {:induction false} TotalsSplitEvenly(rows: seq<LineItem>, discount: real)
    requires AllConsistent(rows)
    ensures ComputeTotals(rows, discount).totalCgst == ComputeTotals(rows, discount).totalSgst
  {
    SumCongruent(rows, Cgst, Sgst);
  }

  /** The tax of one row as the calculator computes it. */
  function RowTax(li: LineItem): real
  {
    CalculateGst(li.amount, li.gstRate).taxAmount
  }

  /** When every row was last computed with the switch on, the invoice's tax
      is the calculator's tax summed over the rows. */
  lemma {:induction false} GstTotalsMatchCalculator(rows: seq<LineItem>, discount: real)
    requires forall k :: 0 <= k < |rows| ==>
      rows[k].cgst == rows[k].sgst == HalfTax(rows[k].amount, rows[k].gstRate, true)
    ensures ComputeTotals(rows, discount).totalTax == Sum(rows, RowTax)
  {
    if rows != [] {
      var init := rows[..|rows| - 1];
      GstTotalsMatchCalculator(init, discount);
      assert Sum(rows, Cgst) == Sum(init, Cgst) + Cgst(rows[|rows| - 1]);
    }
  }

  /** When every row was last computed with the switch off, there is no tax
      and the grand total is the subtotal less the discount. */
  lemma {:induction false} NonGstTotalsUntaxed(rows: seq<LineItem>, discount: real)
    requires forall k :: 0 <= k < |rows| ==> rows[k].cgst == 0.0 && rows[k].sgst == 0.0
    ensures ComputeTotals(rows, discount).totalTax == 0.0
    ensures ComputeTotals(rows, discount).grandTotal == ComputeTotals(rows, discount).subtotal - discount
  {
    if rows != [] {
      NonGstTotalsUntaxed(rows[..|rows| - 1], discount);
    }
  }

  /** The stored invariant of every invoice: the subtotal and both tax totals
      are the row sums, the tax is the sum of its parts, and the grand total
      is subtotal plus tax less discount. */
  ghost predicate TotalsConsistent(inv: Invoice)
  {
    && inv.subtotal == Sum(inv.items, Amount)
    && inv.totalCgst == Sum(inv.items, Cgst)
    && inv.totalSgst == Sum(inv.items, Sgst)
    && inv.totalTax == inv.totalCgst + inv.totalSgst + inv.totalIgst
    && inv.grandTotal == inv.subtotal + inv.totalTax - inv.discount
  }

  datatype SaveError = SelectCustomer | AddItem | FillItemDetails

  predicate IncompleteRow(li: LineItem)
  {
    li.name == "" || li.rate <= 0.0
  }

  /** The three guards of `handleSave`, in order. Quantities are not checked. */
  function Validate(customer: Option<Customer>, rows: seq<LineItem>): (r: Option<SaveError>)
    ensures r == Some(SelectCustomer) <==> customer.None?
    ensures r == Some(AddItem) <==> customer.Some? && rows == []
    ensures r == None <==> customer.Some? && rows != [] &&
                           forall k :: 0 <= k < |rows| ==> rows[k].name != "" && rows[k].rate > 0.0
  {
    if customer.None? then Some(SelectCustomer)
    else if |rows| == 0 then Some(AddItem)
    else if exists k :: 0 <= k < |rows| && IncompleteRow(rows[k]) then Some(FillItemDetails)
    else None
  }

  /** `customers.find(c => c.id === id)`: the first customer with that id. */
  function FindCustomer(customers: seq<Customer>, id: string): (r: Option<Customer>)
    ensures r.None? <==> forall k :: 0 <= k < |customers| ==> customers[k].id != id
    ensures r.Some? ==> exists k :: 0 <= k < |customers| && customers[k] == r.value &&
                          r.value.id == id && forall j :: 0 <= j < k ==> customers[j].id != id
  {
    if customers == [] then None
    else if customers[0].id == id then Some(customers[0])
    else
      var r := FindCustomer(customers[1..], id);
      if r.Some? then
        var k :| 0 <= k < |customers[1..]| && customers[1..][k] == r.value && r.value.id == id &&
                 forall j :: 0 <= j < k ==> customers[1..][j].id != id;
        assert customers[k + 1] == r.value;
        r
      else r
  }

  /** The invoice `handleSave` records. */
  function BuildInvoice(id: string, invoiceNumber: string, isGst: bool, status: InvoiceStatus,
                        customer: Customer, rows: seq<LineItem>, discount: real,
                        notes: string, createdAt: string, dueDate: string): (inv: Invoice)
    ensures TotalsConsistent(inv)
    ensures inv.totalIgst == 0.0
    ensures inv.invoiceType == (if isGst then Gst else NonGst)
    ensures inv.id == id && inv.invoiceNumber == invoiceNumber && inv.status == status
    ensures inv.customer == customer && inv.items == rows && inv.discount == discount
    ensures inv.notes == notes && inv.createdAt == createdAt && inv.dueDate == dueDate
    ensures inv.paidAt == None
  {
    var t := ComputeTotals(rows, discount);
    Invoice(id, invoiceNumber, if isGst then Gst else NonGst, status, customer, rows,
            t.subtotal, t.totalCgst, t.totalSgst, 0.0, t.totalTax, t.grandTotal,
            discount, notes, createdAt, dueDate, None)
  }

  /** `if (item.itemId)`: the row points at inventory (an empty id is falsy). */
  predicate Linked(li: LineItem)
  {
    li.itemId.Some? && li.itemId.value != ""
  }

  /** The stock change for one saved row. */
  function SellRow(inventory: seq<InventoryItem>, li: LineItem): seq<InventoryItem>
  {
    if Linked(li) then StockUpdated(inventory, li.itemId.value, li.quantity) else inventory
  }

  /** The inventory after the save loop has sold every row, in row order. */
  function StockAfterSale(inventory: seq<InventoryItem>, rows: seq<LineItem>): (r: seq<InventoryItem>)
    ensures |r| == |inventory|
    ensures forall k :: 0 <= k < |r| ==> r[k].id == inventory[k].id
  {
    if rows == [] then inventory
    else SellRow(StockAfterSale(inventory, rows[..|rows| - 1]), rows[|rows| - 1])
  }

  /** One turn of the save loop sells one more row. */
  lemma SaleStep(inventory: seq<InventoryItem>, rows: seq<LineItem>, i: nat)
    requires i < |rows|
    ensures StockAfterSale(inventory, rows[..i + 1]) == SellRow(StockAfterSale(inventory, rows[..i]), rows[i])
  {
    assert rows[..i + 1][..i] == rows[..i];
  }

  /** The quantity the rows sell of the item with this id, if a linked row
      points at it (the last such row). */
  function SoldQuantity(rows: seq<LineItem>, itemId: string): Option<real>
  {
    if rows == [] then None
    else if Linked(rows[|rows| - 1]) && rows[|rows| - 1].itemId.value == itemId
    then Some(rows[|rows| - 1].quantity)
    else SoldQuantity(rows[..|rows| - 1], itemId)
  }

  lemma {:induction false} SoldQuantityNone(rows: seq<LineItem>, itemId: string)
    requires forall k :: 0 <= k < |rows| ==> rows[k].itemId != Some(itemId)
    ensures SoldQuantity(rows, itemId) == None
  {
    if rows != [] {
      SoldQuantityNone(rows[..|rows| - 1], itemId);
    }
  }

  /** With no two rows on the same item, saving sets each sold item's stock
      to `max(0, stock - quantity)` once, and leaves every other item as it
      was. */
  lemma {:induction false} StockAfterSaleAt(inventory: seq<InventoryItem>, rows: seq<LineItem>, k: nat)
    requires DistinctItemIds(rows)
    requires k < |inventory|
    ensures var r := StockAfterSale(inventory, rows);
      match SoldQuantity(rows, inventory[k].id)
      case None => r[k] == inventory[k]
      case Some(q) => r[k] == inventory[k].(stock := Clamp(inventory[k].stock, q))
  {
    if rows != [] {
      var init, last := rows[..|rows| - 1], rows[|rows| - 1];
      StockAfterSaleAt(inventory, init, k);
      var id := inventory[k].id;
      if Linked(last) && last.itemId.value == id {
        assert forall j :: 0 <= j < |init| ==> init[j].itemId != Some(id) by {
          forall j | 0 <= j < |init| ensures init[j].itemId != Some(id) {
            assert rows[j] == init[j];
          }
        }
        SoldQuantityNone(init, id);
      }
    }
  }

  /** Saving never leaves a negative stock behind if there was none before,
      whatever the quantities, even without distinct rows. */
  lemma {:induction false} StockAfterSaleNonNegative(inventory: seq<InventoryItem>, rows: seq<LineItem>)
    requires forall k :: 0 <= k < |inventory| ==> inventory[k].stock >= 0.0
    ensures forall k :: 0 <= k < |inventory| ==> StockAfterSale(inventory, rows)[k].stock >= 0.0
  {
    if rows != [] {
      StockAfterSaleNonNegative(inventory, rows[..|rows| - 1]);
    }
  }

  /** Custom rows take nothing out of stock. */
  lemma {:induction false} UnlinkedRowsKeepStock(inventory: seq<InventoryItem>, rows: seq<LineItem>)
    requires forall k :: 0 <= k < |rows| ==> !Linked(rows[k])
    ensures StockAfterSale(inventory, rows) == inventory
  {
    if rows != [] {
      UnlinkedRowsKeepStock(inventory, rows[..|rows| - 1]);
    }
  }

  /** The page's builder state: the rows, the GST switch and the discount. */
  class InvoiceBuilder {
    var items: seq<LineItem>
    var isGst: bool
    var discount: real

    ghost predicate Valid()
      reads this
    {
      DistinctItemIds(items) && AllConsistent(items)
    }

    constructor ()
      ensures Valid()
      ensures items == [] && isGst && discount == 0.0
    {
      items, isGst, discount := [], true, 0.0;
    }

    method AddItemFromInventory(item: InventoryItem, rowId: string)
      requires Valid()
      modifies this`items
      ensures Valid()
      ensures items == AddFromInventory(old(items), item, isGst, rowId)
    {
      items := AddFromInventory(items, item, isGst, rowId);
    }

    method AddCustomItem(rowId: string)
      requires Valid()
      modifies this`items
      ensures Valid()
      ensures items == old(items) + [CustomRow(rowId)]
    {
      items := items + [CustomRow(rowId)];
    }

    method UpdateItem(id: string, f: Field)
      requires Valid()
      modifies this`items
      ensures Valid()
      ensures items == UpdateRows(old(items), id, f, isGst)
    {
      items := UpdateRows(items, id, f, isGst);
    }

    method RemoveItem(id: string)
      requires Valid()
      modifies this`items
      ensures Valid()
      ensures items == RemoveRows(old(items), id)
    {
      items := RemoveRows(items, id);
    }

    /** The GST switch: only the flag flips; no row is recomputed. */
    method SetGst(on: bool)
      requires Valid()
      modifies this`isGst
      ensures Valid()
      ensures isGst == on
    {
      isGst := on;
    }

    method SetDiscount(d: real)
      modifies this`discount
      ensures discount == d
    {
      discount := d;
    }

    function CurrentTotals(): Totals
      reads this
    {
      ComputeTotals(items, discount)
    }

    /** `handleSave(status)`: the customer is looked up by the selected id;
        the clock's date and month, the random number suffix and the new
        invoice id are parameters. On a failed guard nothing changes; on
        success every linked row is sold, in row order, and then the invoice
        is prepended. */
    method Save(store: AppStore, customerId: string, status: InvoiceStatus, invoiceId: string,
                year: nat, month: nat, suffix: nat, today: string, dueDate: string, notes: string)
      returns (err: Option<SaveError>)
      requires status == Draft || status == Sent
      requires 1 <= month <= 12 && 1000 <= suffix <= 9999
      modifies store`inventory, store`invoices
      ensures var customer := FindCustomer(store.customers, customerId);
        err == Validate(customer, items) &&
        (err.Some? ==> store.inventory == old(store.inventory) && store.invoices == old(store.invoices)) &&
        (err.None? ==>
          store.inventory == StockAfterSale(old(store.inventory), items) &&
          store.invoices == [BuildInvoice(invoiceId, GenerateInvoiceNumber(year, month, suffix), isGst,
                                          status, customer.value, items, discount, notes, today, dueDate)]
                            + old(store.invoices))
    {
      var customer := FindCustomer(store.customers, customerId);
      err := Validate(customer, items);
      if err.Some? {
        return;
      }
      var invoice := BuildInvoice(invoiceId, GenerateInvoiceNumber(year, month, suffix), isGst,
                                  status, customer.value, items, discount, notes, today, dueDate);
      var rows := items;
      var i := 0;
      while i < |rows|
        invariant 0 <= i <= |rows|
        invariant store.inventory == StockAfterSale(old(store.inventory), rows[..i])
        invariant store.invoices == old(store.invoices)
      {
        var row := rows[i];
        SaleStep(old(store.inventory), rows, i);
        if row.itemId.Some? && row.itemId.value != "" {
          store.UpdateStock(row.itemId.value, row.quantity);
        }
        i := i + 1;
      }
      assert rows[..|rows|] == rows;
      store.AddInvoice(invoice);
    }
  }

  /** Picking the same inventory item twice gives one row of quantity 2,
      not two rows. */
  lemma AddTwiceMerges(item: InventoryItem, isGst: bool, row1: string, row2: string)
    ensures var rows := AddFromInventory(AddFromInventory([], item, isGst, row1), item, isGst, row2);
      |rows| == 1 && rows[0].quantity == 2.0 && rows[0].amount == 2.0 * item.sellingPrice
      && rows[0].id == row1
  {
    var rows1 := AddFromInventory([], item, isGst, row1);
    assert rows1[0].itemId == Some(item.id);
    assert HasItem(rows1, item.id);
  }

  /** The GST switch does not recompute rows: a row added while it is on
      keeps its tax when it is turned off, and the invoice saved as non-GST
      carries that tax. */
  lemma SwitchOffKeepsTax(item: InventoryItem, rowId: string, id: string, number: string,
                          customer: Customer, notes: string, today: string, dueDate: string)
    requires item.sellingPrice > 0.0 && item.gstRate > 0.0
    ensures var rows := AddFromInventory([], item, true, rowId);
      var inv := BuildInvoice(id, number, false, Sent, customer, rows, 0.0, notes, today, dueDate);
      inv.invoiceType == NonGst && inv.totalTax > 0.0
  {
    var rows := AddFromInventory([], item, true, rowId);
    assert rows == [NewInventoryRow(item, true, rowId)];
    assert item.sellingPrice * item.gstRate > 0.0;
    assert Sum(rows, Cgst) == rows[0].cgst by {
      assert rows[..0] == [];
    }
    assert Sum(rows, Sgst) == rows[0].sgst by {
      assert rows[..0] == [];
    }
  }
}
