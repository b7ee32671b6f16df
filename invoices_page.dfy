/** The invoice list (src/pages/InvoicesPage.tsx): the search box with the
    status and type filters, and the mark-paid action. Deleting forwards
    to the store's `DeleteInvoice` unchanged. */
module InvoicesPage {
  import opened Text
  import opened Types
  import opened Seqs
  import opened Store

  /** The search box and the two select boxes of the list. */
  predicate Shown(inv: Invoice, search: string, statusFilter: string, typeFilter: string)
  {
    (Matches(inv.invoiceNumber, search) || Matches(inv.customer.name, search))
    && (statusFilter == "all" || StatusName(inv.status) == statusFilter)
    && (typeFilter == "all" || TypeName(inv.invoiceType) == typeFilter)
  }

  function ShownBy(search: string, statusFilter: string, typeFilter: string): Invoice -> bool
  {
    (inv: Invoice) => Shown(inv, search, statusFilter, typeFilter)
  }

  /** `filtered`: the invoices the list shows, in store order. */
  function Filtered(invoices: seq<Invoice>, search: string, statusFilter: string, typeFilter: string)
    : (r: seq<Invoice>)
    ensures forall i :: 0 <= i < |r| ==> r[i] in invoices && Shown(r[i], search, statusFilter, typeFilter)
    ensures forall i :: 0 <= i < |invoices| && Shown(invoices[i], search, statusFilter, typeFilter) ==> invoices[i] in r
    ensures forall i :: 0 <= i < |invoices| ==>
      multiset(r)[invoices[i]]
        == if Shown(invoices[i], search, statusFilter, typeFilter) then multiset(invoices)[invoices[i]] else 0
  {
    FilterCounts(invoices, ShownBy(search, statusFilter, typeFilter));
    Filter(invoices, ShownBy(search, statusFilter, typeFilter))
  }

  /** The list keeps the store's order: filtering a concatenation filters each part. */
  lemma {:induction false} FilteredKeepsOrder(a: seq<Invoice>, b: seq<Invoice>, search: string,
                                              statusFilter: string, typeFilter: string)
    ensures Filtered(a + b, search, statusFilter, typeFilter)
         == Filtered(a, search, statusFilter, typeFilter) + Filtered(b, search, statusFilter, typeFilter)
  {
    FilterAppend(a, b, ShownBy(search, statusFilter, typeFilter));
  }

  /** With an empty search and both filters on "all" the list shows every invoice. */
  lemma FilteredShowsAll(invoices: seq<Invoice>)
    ensures Filtered(invoices, "", "all", "all") == invoices
  {
    forall inv | inv in invoices
      ensures ShownBy("", "all", "all")(inv)
    {
      assert Lower("") == "";
      ContainsEmpty(Lower(inv.invoiceNumber));
    }
    FilterKeepsAll(invoices, ShownBy("", "all", "all"));
  }

  /** Choosing a status shows only invoices in that status; choosing a type
      shows only invoices of that type. */
  lemma FiltersSelect(invoices: seq<Invoice>, search: string, status: InvoiceStatus, t: InvoiceType)
    ensures forall i :: 0 <= i < |Filtered(invoices, search, StatusName(status), "all")| ==>
      Filtered(invoices, search, StatusName(status), "all")[i].status == status
    ensures forall i :: 0 <= i < |Filtered(invoices, search, "all", TypeName(t))| ==>
      Filtered(invoices, search, "all", TypeName(t))[i].invoiceType == t
  {
  }

  /** The partial record `handleMarkPaid` passes to `updateInvoice`. */
  function PaidPatch(today: string): InvoicePatch
  {
    InvoicePatch(None, None, None, Some(Paid), None, None, None, None, None, None, None,
                 None, None, None, None, None, Some(today))
  }

  /** The invoices after marking `id` paid on `today`: that invoice gets
      status paid and a payment date, and nothing else changes. */
  function MarkedPaid(invoices: seq<Invoice>, id: string, today: string): (r: seq<Invoice>)
    ensures |r| == |invoices|
    ensures forall k :: 0 <= k < |r| ==>
      r[k] == if invoices[k].id == id then invoices[k].(status := Paid, paidAt := Some(today)) else invoices[k]
  {
    InvoicesPatched(invoices, id, PaidPatch(today))
  }

  /** The mark-paid button is shown only for invoices not yet paid. */
  predicate CanMarkPaid(inv: Invoice)
  {
    inv.status != Paid
  }

  /** `handleMarkPaid` */
  method MarkPaid(store: AppStore, id: string, today: string)
    modifies store`invoices
    ensures store.invoices == MarkedPaid(old(store.invoices), id, today)
  {
    store.UpdateInvoice(id, PaidPatch(today));
  }

  /** After marking, the invoice no longer offers the button; marking again
      on the same day changes nothing; and no amount changes, so the
      revenue is the same. */
  lemma MarkedPaidSettles(invoices: seq<Invoice>, id: string, today: string)
    ensures forall k :: 0 <= k < |invoices| && invoices[k].id == id ==> !CanMarkPaid(MarkedPaid(invoices, id, today)[k])
    ensures MarkedPaid(MarkedPaid(invoices, id, today), id, today) == MarkedPaid(invoices, id, today)
    ensures Sum(MarkedPaid(invoices, id, today), GrandTotal) == Sum(invoices, GrandTotal)
  {
    SumPointwiseEq(MarkedPaid(invoices, id, today), invoices, GrandTotal);
  }
}
