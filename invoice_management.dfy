/**
 * The invoice screen (src/components/InvoiceManagement.tsx): the counts on the status tabs, the
 * list and selection updates after a create, an update and a delete, and the body that duplicating
 * an invoice posts. The list is the parent's state handed back through `onInvoicesChange`; here it
 * is a field the handlers assign. The fetches, the new invoice number and the clock are inputs.
 */
module InvoiceManagement {
  import opened Wrappers
  import opened Seqs
  import opened Domain
  import Analytics
  import PaymentService

  // ---------------------------------------------------------------- tab counts

  datatype TabCounts = TabCounts(all: nat, drafts: nat, pending: nat, paid: nat, overdue: nat)

  /** `statusTabs`: stored statuses for three tabs, the derived overdue list for the fourth. */
  function StatusTabs(invs: seq<Invoice>, now: int): TabCounts {
    TabCounts(|invs|, Count(invs, Analytics.WithStatus(Draft)), Count(invs, Analytics.WithStatus(Pending)),
              Count(invs, Analytics.WithStatus(Paid)), |PaymentService.GetOverdueInvoices(invs, now)|)
  }

  /** The overdue tab counts the invoices `isOverdue` accepts. */
  lemma OverdueTabCount(invs: seq<Invoice>, now: int)
    ensures StatusTabs(invs, now).overdue == Count(invs, PaymentService.OverdueAt(now))
  {
    var r := PaymentService.GetOverdueInvoices(invs, now);
    var m := Map(Filter(invs, PaymentService.OverdueAt(now)), PaymentService.ToOverdue(now));
    assert |multiset(r)| == |multiset(m)|;
  }

  /**
   * The stored-status tabs never add up to more than the whole list, and neither do the overdue,
   * draft and paid tabs together: a draft or paid invoice is never counted as overdue.
   */
  lemma {:induction false} TabCountsFit(invs: seq<Invoice>, now: int)
    ensures Count(invs, Analytics.WithStatus(Draft)) + Count(invs, Analytics.WithStatus(Pending)) + Count(invs, Analytics.WithStatus(Paid)) <= |invs|
    ensures Count(invs, Analytics.WithStatus(Draft)) + Count(invs, Analytics.WithStatus(Paid)) + Count(invs, PaymentService.OverdueAt(now)) <= |invs|
    decreases |invs|
  {
    if invs != [] {
      TabCountsFit(invs[..|invs| - 1], now);
    }
  }

  /** The tabs as shown. */
  lemma StatusTabsFit(invs: seq<Invoice>, now: int)
    ensures var t := StatusTabs(invs, now);
      && t.all == |invs|
      && t.drafts + t.pending + t.paid <= t.all
      && t.drafts + t.paid + t.overdue <= t.all
  {
    TabCountsFit(invs, now);
    OverdueTabCount(invs, now);
  }

  // ---------------------------------------------------------------- list updates

  /** `invoices.map(inv => inv.id === updated.id ? updated : inv)`. */
  function ReplaceById(invs: seq<Invoice>, updated: Invoice): (r: seq<Invoice>)
    ensures |r| == |invs|
    ensures forall i :: 0 <= i < |invs| && invs[i].id != updated.id ==> r[i] == invs[i]
    ensures forall i :: 0 <= i < |invs| && invs[i].id == updated.id ==> r[i] == updated
  {
    seq(|invs|, i requires 0 <= i < |invs| => if invs[i].id == updated.id then updated else invs[i])
  }

  function OtherId(id: string): Invoice -> bool { (inv: Invoice) => inv.id != id }

  /** `invoices.filter(inv => inv.id !== id)`. */
  function RemoveById(invs: seq<Invoice>, id: string): seq<Invoice> { Filter(invs, OtherId(id)) }

  /** Exactly the invoices with another id stay, in their order. */
  lemma RemoveByIdSpec(invs: seq<Invoice>, id: string)
    ensures forall i :: 0 <= i < |RemoveById(invs, id)| ==> RemoveById(invs, id)[i].id != id && RemoveById(invs, id)[i] in invs
    ensures forall i :: 0 <= i < |invs| && invs[i].id != id ==> invs[i] in RemoveById(invs, id)
    ensures IsSubsequence(RemoveById(invs, id), invs)
    ensures RemoveById(RemoveById(invs, id), id) == RemoveById(invs, id)
  {
    FilterMembers(invs, OtherId(id));
    FilterIsSubsequence(invs, OtherId(id));
    FilterSubsumed(invs, OtherId(id), OtherId(id));
  }

  /** The selection after a delete: the first remaining invoice, or none, if the deleted one was selected. */
  function SelectionAfterDelete(selected: Option<Invoice>, remaining: seq<Invoice>, id: string): Option<Invoice> {
    if selected.Some? && selected.value.id == id then
      if |remaining| > 0 then Some(remaining[0]) else None
    else selected
  }

  /** The deleted invoice is never left selected; another selection is kept. */
  lemma SelectionAfterDeleteSpec(invs: seq<Invoice>, selected: Option<Invoice>, id: string)
    ensures var s := SelectionAfterDelete(selected, RemoveById(invs, id), id);
      && (selected.Some? && selected.value.id != id ==> s == selected)
      && (selected.Some? && selected.value.id == id ==>
            && (s.None? <==> RemoveById(invs, id) == [])
            && (s.Some? ==> s.value.id != id && s.value in invs))
      && (selected.None? ==> s.None?)
  {
    RemoveByIdSpec(invs, id);
    var rest := RemoveById(invs, id);
    if |rest| > 0 {
      assert rest[0].id != id;
    }
  }

  /** The effect that selects the first invoice when none is selected. */
  function InitialSelection(invs: seq<Invoice>, selected: Option<Invoice>): (s: Option<Invoice>)
    ensures selected.Some? ==> s == selected
    ensures selected.None? && |invs| > 0 ==> s == Some(invs[0])
    ensures selected.None? && |invs| == 0 ==> s.None?
  {
    if |invs| > 0 && selected.None? then Some(invs[0]) else selected
  }

  // ---------------------------------------------------------------- duplicate

  /** An item of the duplicate body: the original's fields without its id. */
  datatype CopiedItem = CopiedItem(description: string, quantity: real, unitPrice: real, amount: real)

  /** The body `handleDuplicateInvoice` posts; the dates are timestamps here. */
  datatype DuplicateData = DuplicateData(
    number: string,
    clientId: string,
    status: Status,
    subtotal: real,
    tax: real,
    total: real,
    issuedDate: int,
    dueDate: int,
    paymentTerms: Option<PaymentTerms>,
    notes: Option<string>,
    items: seq<CopiedItem>,
    courseInfo: Option<CourseInfo>,
    paymentMethod: Option<string>,
    transactionId: Option<string>,
    paymentDate: Option<int>)

  /** `invoice.paymentTerms?.days || 30`: missing and zero-day terms both give 30. */
  function DuplicateTermDays(terms: Option<PaymentTerms>): (d: int)
    ensures terms.Some? && terms.value.days != 0 ==> d == terms.value.days
    ensures terms.None? || terms.value.days == 0 ==> d == 30
  {
    if terms.Some? && terms.value.days != 0 then terms.value.days else 30
  }

  function CopyItem(item: InvoiceItem): CopiedItem {
    CopiedItem(item.description, item.quantity, item.unitPrice, item.amount)
  }

  /**
   * The duplicate of `invoice` issued `today` with the new number, for the first client with the
   * invoice's client name; `Client not found` when there is none.
   */
  function Duplicate(invoice: Invoice, clients: seq<Client>, number: string, today: int): Result<DuplicateData, string> {
    match FindClientByName(clients, invoice.client.name)
    case None => Err("Client not found")
    case Some(c) =>
      Ok(DuplicateData(number, c.id, Draft, invoice.subtotal, invoice.tax, invoice.total,
                            today, today + DuplicateTermDays(invoice.paymentTerms) * DAY,
                            invoice.paymentTerms, invoice.notes, Map(invoice.items, CopyItem),
                            invoice.courseInfo, None, None, None))
  }

  /**
   * A duplicate is a draft issued today under the new number, due after the invoice's term days
   * (30 for missing or zero-day terms), with no payment fields, the same amounts and the same
   * items without ids.
   */
  lemma DuplicateSpec(invoice: Invoice, clients: seq<Client>, number: string, today: int)
    ensures Duplicate(invoice, clients, number, today).Err? <==> FindClientByName(clients, invoice.client.name).None?
    ensures Duplicate(invoice, clients, number, today).Ok? ==>
      var d := Duplicate(invoice, clients, number, today).value;
      && d.number == number && d.status == Draft
      && d.clientId == FindClientByName(clients, invoice.client.name).value.id
      && d.issuedDate == today && d.dueDate - d.issuedDate == DuplicateTermDays(invoice.paymentTerms) * DAY
      && d.paymentMethod.None? && d.transactionId.None? && d.paymentDate.None?
      && d.subtotal == invoice.subtotal && d.tax == invoice.tax && d.total == invoice.total
      && d.paymentTerms == invoice.paymentTerms && d.courseInfo == invoice.courseInfo
      && |d.items| == |invoice.items|
      && forall i :: 0 <= i < |d.items| ==>
           d.items[i].description == invoice.items[i].description && d.items[i].amount == invoice.items[i].amount
           && d.items[i].quantity == invoice.items[i].quantity && d.items[i].unitPrice == invoice.items[i].unitPrice
  {
  }

  /** Zero-day terms ("Due on Receipt") are duplicated with a 30-day due date. */
  lemma DueOnReceiptDuplicatedAsNet30(invoice: Invoice, clients: seq<Client>, number: string, today: int)
    requires invoice.paymentTerms == Some(PaymentTerms(0, "Due on Receipt"))
    requires FindClientByName(clients, invoice.client.name).Some?
    ensures Duplicate(invoice, clients, number, today).Ok?
    ensures Duplicate(invoice, clients, number, today).value.dueDate == today + 30 * DAY
  {
  }

  // ---------------------------------------------------------------- screen state

  /** The list handed back to the parent and the selected invoice. */
  class Screen {
    var invoices: seq<Invoice>
    var selected: Option<Invoice>
    /** Whether the parent passed `onInvoicesChange`; without it the list handlers do nothing. */
    const hasListener: bool

    constructor(initial: seq<Invoice>, listener: bool)
      ensures invoices == initial && selected.None? && hasListener == listener
    {
      invoices := initial;
      selected := None;
      hasListener := listener;
    }

    method SelectFirst()
      modifies this
      ensures selected == InitialSelection(invoices, old(selected)) && invoices == old(invoices)
    {
      if |invoices| > 0 && selected.None? {
        selected := Some(invoices[0]);
      }
    }

    /** `handleNewInvoice`, also used after a duplicate is created: prepended and selected. */
    method InvoiceCreated(created: Invoice)
      modifies this
      ensures hasListener ==> invoices == [created] + old(invoices) && selected == Some(created)
      ensures !hasListener ==> invoices == old(invoices) && selected == old(selected)
    {
      if hasListener {
        invoices := [created] + invoices;
        selected := Some(created);
      }
    }

    /** `handleInvoiceUpdated`: the entry with that id replaced, and selected. */
    method InvoiceUpdated(updated: Invoice)
      modifies this
      ensures hasListener ==> invoices == ReplaceById(old(invoices), updated) && selected == Some(updated)
      ensures !hasListener ==> invoices == old(invoices) && selected == old(selected)
    {
      if hasListener {
        invoices := ReplaceById(invoices, updated);
        selected := Some(updated);
      }
    }

    /** `handleDeleteInvoice` after a successful DELETE. */
    method InvoiceDeleted(id: string)
      modifies this
      ensures hasListener ==> invoices == RemoveById(old(invoices), id)
                              && selected == SelectionAfterDelete(old(selected), invoices, id)
      ensures !hasListener ==> invoices == old(invoices) && selected == old(selected)
      ensures hasListener && selected.Some? && old(selected).Some? && old(selected).value.id == id ==> selected.value.id != id
    {
      if hasListener {
        invoices := RemoveById(invoices, id);
        RemoveByIdSpec(old(invoices), id);
        if selected.Some? && selected.value.id == id {
          selected := if |invoices| > 0 then Some(invoices[0]) else None;
        }
      }
    }
  }
}
