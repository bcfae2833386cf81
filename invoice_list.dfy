/**
 * The invoice list (src/components/InvoiceList.tsx): the status and search filter, the payment
 * action each row offers and what it calls, the urgency icon and row colour, and the footer's
 * range. Rendering is not part of this model.
 */
module InvoiceList {
  import opened Wrappers
  import opened Strings
  import opened Seqs
  import opened Domain
  import PaymentService

  /** `filters.status`: `"all"` or one stored status. */
  datatype StatusFilter = AllStatuses | OnlyStatus(status: Status)

  datatype Filters = Filters(status: StatusFilter, search: string)

  predicate MatchesStatus(f: StatusFilter, inv: Invoice) {
    f.AllStatuses? || inv.status == f.status
  }

  /** The case-insensitive search over the number, the client name and three course fields. */
  predicate MatchesSearch(search: string, inv: Invoice) {
    || search == ""
    || ContainsIgnoreCase(inv.number, search)
    || ContainsIgnoreCase(inv.client.name, search)
    || (inv.courseInfo.Some? && ContainsIgnoreCase(inv.courseInfo.value.courseName, search))
    || (inv.courseInfo.Some? && ContainsIgnoreCase(inv.courseInfo.value.courseId, search))
    || (inv.courseInfo.Some? && ContainsIgnoreCase(inv.courseInfo.value.cohort, search))
  }

  function Matches(f: Filters): Invoice -> bool {
    (inv: Invoice) => MatchesStatus(f.status, inv) && MatchesSearch(f.search, inv)
  }

  /** `filteredInvoices`. */
  function FilteredInvoices(invs: seq<Invoice>, f: Filters): seq<Invoice> {
    Filter(invs, Matches(f))
  }

  /**
   * The list shows exactly the invoices that pass both filters, in their original order: an
   * order-preserving subsequence of the input.
   */
  lemma FilteredExactly(invs: seq<Invoice>, f: Filters)
    ensures forall i :: 0 <= i < |FilteredInvoices(invs, f)| ==>
      FilteredInvoices(invs, f)[i] in invs
      && MatchesStatus(f.status, FilteredInvoices(invs, f)[i]) && MatchesSearch(f.search, FilteredInvoices(invs, f)[i])
    ensures forall i :: 0 <= i < |invs| && MatchesStatus(f.status, invs[i]) && MatchesSearch(f.search, invs[i]) ==>
      invs[i] in FilteredInvoices(invs, f)
    ensures IsSubsequence(FilteredInvoices(invs, f), invs)
  {
    FilterMembers(invs, Matches(f));
    FilterIsSubsequence(invs, Matches(f));
  }

  /** With `"all"` and an empty search nothing is hidden. */
  lemma NoFilterShowsAll(invs: seq<Invoice>)
    ensures FilteredInvoices(invs, Filters(AllStatuses, "")) == invs
  {
    FilterAll(invs, Matches(Filters(AllStatuses, "")));
  }

  /** A status filter never lets an invoice with another stored status through, whatever the search. */
  lemma StatusFilterExact(invs: seq<Invoice>, s: Status, search: string)
    ensures forall i :: 0 <= i < |FilteredInvoices(invs, Filters(OnlyStatus(s), search))| ==>
      FilteredInvoices(invs, Filters(OnlyStatus(s), search))[i].status == s
  {
    FilterMembers(invs, Matches(Filters(OnlyStatus(s), search)));
  }

  lemma LowerCharIdempotent(c: char)
    ensures LowerChar(LowerChar(c)) == LowerChar(c)
  {
  }

  lemma ToLowerIdempotent(s: string)
    ensures ToLower(ToLower(s)) == ToLower(s)
  {
    forall i | 0 <= i < |s| ensures ToLower(ToLower(s))[i] == ToLower(s)[i] {
      LowerCharIdempotent(s[i]);
    }
  }

  /** The search ignores the case of what is typed. */
  lemma SearchIgnoresCase(search: string, inv: Invoice)
    ensures MatchesSearch(ToLower(search), inv) <==> MatchesSearch(search, inv)
  {
    ToLowerIdempotent(search);
    assert ToLower(search) == "" <==> search == "";
  }

  /** The payment button a row shows for each status. */
  datatype PaymentAction = MarkUnpaidButton | MarkPaidButton | NoButton

  function ActionFor(inv: Invoice): (a: PaymentAction)
    ensures a == MarkUnpaidButton <==> inv.status == Paid
    ensures a == NoButton <==> inv.status == Draft
    ensures a == MarkPaidButton <==> inv.status == Pending || inv.status == Overdue
  {
    match inv.status
    case Paid => MarkUnpaidButton
    case Draft => NoButton
    case _ => MarkPaidButton
  }

  /** Which callback a button press reaches. */
  datatype Callback = OpenPaymentDialog(invoice: Invoice) | ChangePaymentStatus(invoice: Invoice, isPaid: bool)

  /** `handleMarkAsPaid`: the payment dialog when the parent provides one, else a direct change. */
  function MarkPaidCallback(hasPaymentDialog: bool, inv: Invoice): (c: Callback)
    ensures hasPaymentDialog ==> c == OpenPaymentDialog(inv)
    ensures !hasPaymentDialog ==> c == ChangePaymentStatus(inv, true)
  {
    if hasPaymentDialog then OpenPaymentDialog(inv) else ChangePaymentStatus(inv, true)
  }

  /** `handleMarkAsUnpaid`: always a direct change to unpaid. */
  function MarkUnpaidCallback(inv: Invoice): (c: Callback)
    ensures c.ChangePaymentStatus? && !c.isPaid && c.invoice == inv
  {
    ChangePaymentStatus(inv, false)
  }

  /** The row's urgency marker. */
  datatype UrgencyIcon = RedAlert | OrangeAlert | YellowClock | NoIcon

  function IconFor(u: PaymentService.Urgency): (icon: UrgencyIcon)
    ensures icon == NoIcon <==> u == PaymentService.Low
  {
    match u
    case Critical => RedAlert
    case High => OrangeAlert
    case Medium => YellowClock
    case Low => NoIcon
  }

  /** `getUrgencyIndicator`: no marker for paid and draft invoices, nor for low urgency. */
  lemma SettledInvoicesHaveNoIcon(inv: Invoice, now: int)
    requires inv.status == Paid || inv.status == Draft
    ensures IconFor(PaymentService.GetUrgencyLevel(inv, now)) == NoIcon
  {
  }

  /** The row background: the selection wins over urgency. */
  datatype RowColour = SelectedRow | RedHover | OrangeHover | YellowHover | GreyHover

  function RowColourFor(selectedId: Option<string>, inv: Invoice, now: int): (c: RowColour)
    ensures c == SelectedRow <==> selectedId == Some(inv.id)
    ensures c == GreyHover <==> selectedId != Some(inv.id) && PaymentService.GetUrgencyLevel(inv, now) == PaymentService.Low
  {
    if selectedId == Some(inv.id) then SelectedRow
    else match PaymentService.GetUrgencyLevel(inv, now)
      case Critical => RedHover
      case High => OrangeHover
      case Medium => YellowHover
      case Low => GreyHover
  }

  /** The reminder line under a row: only for a stored `overdue` status. */
  function ReminderLine(inv: Invoice, now: int, dueText: string, amountText: string): (r: Option<string>)
    ensures r.Some? <==> inv.status == Overdue
    ensures r.Some? ==> r.value == PaymentService.GeneratePaymentReminder(inv, now, dueText, amountText)
  {
    if inv.status == Overdue then Some(PaymentService.GeneratePaymentReminder(inv, now, dueText, amountText)) else None
  }

  /**
   * The line is keyed on the stored status while the text is keyed on the due date, so an invoice
   * stored as overdue whose due date has not passed gets an empty reminder line.
   */
  lemma StoredOverdueNotYetDue(inv: Invoice, now: int, dueText: string, amountText: string)
    requires inv.status == Overdue && now <= inv.dueDate
    ensures ReminderLine(inv, now, dueText, amountText) == Some("")
  {
  }

  /** The footer `Showing 1-<last> of <count> invoices`, shown only for a non-empty list. */
  function Footer(shown: nat): (r: Option<(nat, nat)>)
    ensures r.Some? <==> shown > 0
    ensures r.Some? ==> r.value.1 == shown && 1 <= r.value.0 <= 32 && r.value.0 <= shown
    ensures r.Some? ==> (r.value.0 == shown || r.value.0 == 32)
  {
    if shown == 0 then None else Some((if shown < 32 then shown else 32, shown))
  }
}
