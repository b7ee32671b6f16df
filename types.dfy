/** The records of the billing application (src/types/index.ts) and its
    fixed option lists (src/constants/config.ts). Every amount, price,
    rate, quantity and stock level is a `real`: exact arithmetic in place
    of the JavaScript number. */
module Types {

  datatype Option<T> = None | Some(value: T)

  datatype BusinessProfile = BusinessProfile(
    name: string, gstin: string, address: string, phone: string,
    email: string, state: string, logo: Option<string>)

  datatype Customer = Customer(
    id: string, name: string, phone: string, email: string,
    gstin: Option<string>, address: string, state: string)

  datatype InventoryItem = InventoryItem(
    id: string, name: string, sku: string, category: string,
    hsnCode: string, unit: string,
    purchasePrice: real, sellingPrice: real, gstRate: real,
    stock: real, lowStockThreshold: real, createdAt: string)

  /** One invoice row. `itemId` is the weak back-reference to an
      inventory item; custom rows have none. */
  datatype LineItem = LineItem(
    id: string, itemId: Option<string>, name: string, hsnCode: string,
    quantity: real, unit: string, rate: real, gstRate: real,
    amount: real, cgst: real, sgst: real, igst: real)

  datatype InvoiceType = Gst | NonGst

  datatype InvoiceStatus = Draft | Sent | Paid | Overdue

  datatype Invoice = Invoice(
    id: string, invoiceNumber: string, invoiceType: InvoiceType,
    status: InvoiceStatus, customer: Customer, items: seq<LineItem>,
    subtotal: real, totalCgst: real, totalSgst: real, totalIgst: real,
    totalTax: real, grandTotal: real, discount: real,
    notes: string, createdAt: string, dueDate: string, paidAt: Option<string>)

  datatype Expense = Expense(
    id: string, category: string, description: string, amount: real,
    date: string, vendor: string, paymentMethod: string, receipt: Option<string>)

  /** The string a status select box compares against. */
  function StatusName(s: InvoiceStatus): string
  {
    match s
    case Draft => "draft"
    case Sent => "sent"
    case Paid => "paid"
    case Overdue => "overdue"
  }

  /** The string a type select box compares against. */
  function TypeName(t: InvoiceType): string
  {
    match t
    case Gst => "gst"
    case NonGst => "non-gst"
  }

  /** The GST slabs offered by every rate picker. */
  const GstRates: seq<real> := [0.0, 5.0, 12.0, 18.0, 28.0]

  predicate IsGstRate(r: real)
  {
    r in GstRates
  }

  // Field accessors, passed to the folds of module Seqs.

  function Amount(li: LineItem): real { li.amount }
  function Cgst(li: LineItem): real { li.cgst }
  function Sgst(li: LineItem): real { li.sgst }
  function Igst(li: LineItem): real { li.igst }
  function GrandTotal(inv: Invoice): real { inv.grandTotal }
  function ExpenseAmount(e: Expense): real { e.amount }
  function ExpenseCategory(e: Expense): string { e.category }
}
