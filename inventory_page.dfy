/** The inventory page (src/pages/InventoryPage.tsx): the search box and
    category filter, the stock value, the low-stock rule, and the item
    dialog that either edits an item in place or adds a new one. */
module InventoryPage {
  import opened Text
  import opened Types
  import opened Seqs
  import opened Store

  /** The search box and category select of the table. */
  predicate Shown(item: InventoryItem, search: string, categoryFilter: string)
  {
    (Matches(item.name, search) || Matches(item.sku, search))
    && (categoryFilter == "all" || item.category == categoryFilter)
  }

  function ShownBy(search: string, categoryFilter: string): InventoryItem -> bool
  {
    (item: InventoryItem) => Shown(item, search, categoryFilter)
  }

  /** `filtered`: the items the table shows, in store order. */
  function Filtered(inventory: seq<InventoryItem>, search: string, categoryFilter: string): (r: seq<InventoryItem>)
    ensures forall i :: 0 <= i < |r| ==> r[i] in inventory && Shown(r[i], search, categoryFilter)
    ensures forall i :: 0 <= i < |inventory| && Shown(inventory[i], search, categoryFilter) ==> inventory[i] in r
    ensures forall i :: 0 <= i < |inventory| ==>
      multiset(r)[inventory[i]] == if Shown(inventory[i], search, categoryFilter) then multiset(inventory)[inventory[i]] else 0
  {
    FilterCounts(inventory, ShownBy(search, categoryFilter));
    Filter(inventory, ShownBy(search, categoryFilter))
  }

  /** The table keeps the store's order: filtering a concatenation filters each part. */
  lemma {:induction false} FilteredKeepsOrder(a: seq<InventoryItem>, b: seq<InventoryItem>, search: string, categoryFilter: string)
    ensures Filtered(a + b, search, categoryFilter) == Filtered(a, search, categoryFilter) + Filtered(b, search, categoryFilter)
  {
    FilterAppend(a, b, ShownBy(search, categoryFilter));
  }

  /** Low items are listed in store order. */
  lemma {:induction false} LowStockItemsKeepOrder(a: seq<InventoryItem>, b: seq<InventoryItem>)
    ensures LowStockItems(a + b) == LowStockItems(a) + LowStockItems(b)
  {
    FilterAppend(a, b, IsLowFn());
  }

  /** With an empty search and the "all" category the table shows every item. */
  lemma FilteredShowsAll(inventory: seq<InventoryItem>)
    ensures Filtered(inventory, "", "all") == inventory
  {
    forall item | item in inventory
      ensures ShownBy("", "all")(item)
    {
      assert Lower("") == "";
      ContainsEmpty(Lower(item.name));
    }
    FilterKeepsAll(inventory, ShownBy("", "all"));
  }

  /** What the shelf holds of one item, at its selling price. */
  function ShelfValue(item: InventoryItem): real { item.sellingPrice * item.stock }

  /** `totalValue` */
  function TotalValue(inventory: seq<InventoryItem>): real
  {
    Sum(inventory, ShelfValue)
  }

  /** With non-negative prices and stock the value is non-negative. */
  lemma TotalValueNonNegative(inventory: seq<InventoryItem>)
    requires forall i :: 0 <= i < |inventory| ==> inventory[i].sellingPrice >= 0.0 && inventory[i].stock >= 0.0
    ensures TotalValue(inventory) >= 0.0
  {
    SumNonNegative(inventory, ShelfValue);
  }

  /** Selling never raises the stock value: after `updateStock` with a
      non-negative quantity, at non-negative prices and stock, the total
      value is at most what it was. */
  lemma {:induction false} SaleLowersValue(inventory: seq<InventoryItem>, itemId: string, quantitySold: real)
    requires quantitySold >= 0.0
    requires forall i :: 0 <= i < |inventory| ==> inventory[i].sellingPrice >= 0.0 && inventory[i].stock >= 0.0
    ensures TotalValue(StockUpdated(inventory, itemId, quantitySold)) <= TotalValue(inventory)
  {
    var after := StockUpdated(inventory, itemId, quantitySold);
    forall i | 0 <= i < |after|
      ensures ShelfValue(after[i]) <= ShelfValue(inventory[i])
    {
      if inventory[i].id == itemId {
        var a, b := after[i].stock, inventory[i].stock;
        assert a <= b;
        assert inventory[i].sellingPrice * a <= inventory[i].sellingPrice * b;
      }
    }
    SumPointwiseLe(after, inventory, ShelfValue);
  }

  /** The low-stock rule, shared by the table's badge (`isLow`), the
      page's `lowStockCount` and the dashboard's `lowStockItems`. */
  predicate IsLow(item: InventoryItem)
  {
    item.stock <= item.lowStockThreshold
  }

  function IsLowFn(): InventoryItem -> bool
  {
    (item: InventoryItem) => IsLow(item)
  }

  /** `inventory.filter((i) => i.stock <= i.lowStockThreshold)` */
  function LowStockItems(inventory: seq<InventoryItem>): (r: seq<InventoryItem>)
    ensures forall i :: 0 <= i < |r| ==> r[i] in inventory && IsLow(r[i])
    ensures forall i :: 0 <= i < |inventory| && IsLow(inventory[i]) ==> inventory[i] in r
    ensures forall i :: 0 <= i < |inventory| ==>
      multiset(r)[inventory[i]] == if IsLow(inventory[i]) then multiset(inventory)[inventory[i]] else 0
  {
    FilterCounts(inventory, IsLowFn());
    Filter(inventory, IsLowFn())
  }

  /** `lowStockCount`: the number of positions holding a low item. */
  function LowStockCount(inventory: seq<InventoryItem>): (n: nat)
    ensures n <= |inventory|
    ensures n == |LowIndices(inventory)|
    ensures n == |LowStockItems(inventory)|
  {
    LowPositions(inventory);
    |Filter(inventory, IsLowFn())|
  }

  /** One low item is kept per position that holds one. */
  lemma {:induction false} LowPositions(inventory: seq<InventoryItem>)
    ensures |Filter(inventory, IsLowFn())| == |LowIndices(inventory)|
  {
    if inventory != [] {
      var init, last := inventory[..|inventory| - 1], inventory[|inventory| - 1];
      assert inventory == init + [last];
      LowPositions(init);
      FilterSnoc(init, last, IsLowFn());
      LowIndicesSnoc(init, last);
    }
  }

  function LowIndices(inventory: seq<InventoryItem>): set<int>
  {
    set i | 0 <= i < |inventory| && IsLow(inventory[i])
  }

  lemma LowIndicesSnoc(init: seq<InventoryItem>, last: InventoryItem)
    ensures |LowIndices(init + [last])| == |LowIndices(init)| + (if IsLow(last) then 1 else 0)
  {
    var before, after := LowIndices(init), LowIndices(init + [last]);
    assert |init| !in before;
    if IsLow(last) {
      assert after == before + {|init|};
    } else {
      assert after == before;
    }
  }

  /** An item sold out by `updateStock` is low, whatever its non-negative
      threshold. */
  lemma SoldOutIsLow(inventory: seq<InventoryItem>, itemId: string, quantitySold: real)
    requires forall i :: 0 <= i < |inventory| ==> inventory[i].lowStockThreshold >= 0.0
    ensures forall i :: 0 <= i < |inventory| && inventory[i].id == itemId && quantitySold >= inventory[i].stock ==>
      IsLow(StockUpdated(inventory, itemId, quantitySold)[i])
  {
  }

  /** The item dialog. The number boxes hold text; the `real` fields are
      the numbers `Number(...)` makes of them. */
  datatype ItemForm = ItemForm(
    name: string, sku: string, category: string, hsnCode: string, unit: string,
    purchasePriceText: string, sellingPriceText: string, stockText: string,
    purchasePrice: real, sellingPrice: real, gstRate: real, stock: real, lowStockThreshold: real)

  /** The submit guard: name, sku, both prices and the stock are filled in. */
  predicate FormComplete(form: ItemForm)
  {
    form.name != "" && form.sku != "" && form.purchasePriceText != ""
    && form.sellingPriceText != "" && form.stockText != ""
  }

  /** `itemData`: every field of the form and neither `id` nor `createdAt`. */
  function ItemData(form: ItemForm): InventoryPatch
  {
    InventoryPatch(None, Some(form.name), Some(form.sku), Some(form.category), Some(form.hsnCode),
                   Some(form.unit), Some(form.purchasePrice), Some(form.sellingPrice),
                   Some(form.gstRate), Some(form.stock), Some(form.lowStockThreshold), None)
  }

  /** The item the form describes, under a given id and creation date. */
  function FormItem(form: ItemForm, id: string, createdAt: string): InventoryItem
  {
    InventoryItem(id, form.name, form.sku, form.category, form.hsnCode, form.unit,
                  form.purchasePrice, form.sellingPrice, form.gstRate, form.stock,
                  form.lowStockThreshold, createdAt)
  }

  /** Editing replaces each item carrying the edited id by the form's item,
      keeping that item's own id and creation date, and leaves every other
      item, the length and the order as they were. */
  lemma EditKeepsIdentity(inventory: seq<InventoryItem>, editingId: string, form: ItemForm)
    ensures var r := InventoryPatched(inventory, editingId, ItemData(form));
      |r| == |inventory| &&
      forall k :: 0 <= k < |r| ==>
        r[k] == if inventory[k].id == editingId
                then FormItem(form, inventory[k].id, inventory[k].createdAt)
                else inventory[k]
  {
  }

  /** How a submit ended. */
  datatype Outcome = Rejected | Updated | Added

  /** `editingId` is set (a non-empty string) while the dialog edits an item. */
  predicate Editing(editingId: Option<string>)
  {
    editingId.Some? && editingId.value != ""
  }

  /** `handleSubmit`: an incomplete form changes nothing; otherwise the
      edited item is updated, or a new item dated `today` is put at the
      front of the list. */
  method Submit(store: AppStore, form: ItemForm, editingId: Option<string>, newId: string, today: string)
    returns (outcome: Outcome)
    modifies store`inventory
    ensures outcome == (if !FormComplete(form) then Rejected else if Editing(editingId) then Updated else Added)
    ensures outcome == Rejected ==> store.inventory == old(store.inventory)
    ensures outcome == Updated ==> store.inventory == InventoryPatched(old(store.inventory), editingId.value, ItemData(form))
    ensures outcome == Added ==> store.inventory == [FormItem(form, newId, today)] + old(store.inventory)
  {
    if form.name == "" || form.sku == "" || form.purchasePriceText == ""
       || form.sellingPriceText == "" || form.stockText == "" {
      return Rejected;
    }
    if editingId.Some? && editingId.value != "" {
      store.UpdateInventoryItem(editingId.value, ItemData(form));
      outcome := Updated;
    } else {
      store.AddInventoryItem(FormItem(form, newId, today));
      outcome := Added;
    }
  }
}
