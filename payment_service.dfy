/**
 * The payment-status engine (src/utils/paymentService.ts): overdue detection, the due-soon
 * window, urgency tiers, the mark-paid / mark-unpaid transitions and the load-time status
 * normaliser. `now` is the current time in milliseconds; dates are already parsed.
 */
module PaymentService {
  import opened Wrappers
  import opened Strings
  import opened Seqs
  import opened Domain

  datatype OverdueInvoice = OverdueInvoice(invoice: Invoice, daysOverdue: int, reminderSent: bool)

  datatype Urgency = Low | Medium | High | Critical

  /** Paid and draft invoices are never overdue, whatever their due date. */
  predicate Settled(inv: Invoice) { inv.status == Paid || inv.status == Draft }

  /**
   * Paid with a payment date of `today`; an existing non-empty payment method and transaction
   * id are kept, otherwise "Bank Transfer" and the synthetic `freshTrx` are used.
   */
  function MarkAsPaid(inv: Invoice, today: int, freshTrx: string): (r: Invoice)
    ensures r.status == Paid && r.paymentDate == Some(today)
    ensures r.paymentMethod == Some(OrString(inv.paymentMethod, "Bank Transfer"))
    ensures r.transactionId == Some(OrString(inv.transactionId, freshTrx))
    ensures inv.paymentMethod.Some? && inv.paymentMethod.value != "" ==> r.paymentMethod == inv.paymentMethod
    ensures inv.transactionId.Some? && inv.transactionId.value != "" ==> r.transactionId == inv.transactionId
    ensures r.(status := inv.status, paymentDate := inv.paymentDate,
               paymentMethod := inv.paymentMethod, transactionId := inv.transactionId) == inv
  {
    inv.(status := Paid,
         paymentDate := Some(today),
         paymentMethod := Some(OrString(inv.paymentMethod, "Bank Transfer")),
         transactionId := Some(OrString(inv.transactionId, freshTrx)))
  }

  /** The payment fields are removed; the status is overdue iff the due date has passed. */
  function MarkAsUnpaid(inv: Invoice, now: int): (r: Invoice)
    ensures r.paymentDate.None? && r.paymentMethod.None? && r.transactionId.None?
    ensures r.status == Overdue <==> now > inv.dueDate
    ensures r.status == Overdue || r.status == Pending
    ensures r.(status := inv.status, paymentDate := inv.paymentDate,
               paymentMethod := inv.paymentMethod, transactionId := inv.transactionId) == inv
  {
    inv.(status := if now > inv.dueDate then Overdue else Pending,
         paymentDate := None, paymentMethod := None, transactionId := None)
  }

  function IsOverdue(inv: Invoice, now: int): (b: bool)
    ensures b <==> !Settled(inv) && now > inv.dueDate
    ensures inv.status == Paid || inv.status == Draft ==> !b
  {
    if inv.status == Paid || inv.status == Draft then false else now > inv.dueDate
  }

  function OverdueAt(now: int): Invoice -> bool { (inv: Invoice) => IsOverdue(inv, now) }

  /** Whole days elapsed since the due date, rounded down (`Math.floor`). */
  function DaysOverdue(inv: Invoice, now: int): int {
    (now - inv.dueDate) / DAY
  }

  function ToOverdue(now: int): Invoice -> OverdueInvoice {
    (inv: Invoice) => OverdueInvoice(inv, DaysOverdue(inv, now), false)
  }

  function OverdueKey(o: OverdueInvoice): real { o.daysOverdue as real }

  /** The overdue invoices, each with its days overdue, most overdue first. */
  function GetOverdueInvoices(invs: seq<Invoice>, now: int): (r: seq<OverdueInvoice>)
    ensures multiset(r) == multiset(Map(Filter(invs, OverdueAt(now)), ToOverdue(now)))
    ensures forall i :: 0 <= i < |r| ==>
              IsOverdue(r[i].invoice, now) && r[i].invoice in invs
              && r[i].daysOverdue == DaysOverdue(r[i].invoice, now) && r[i].daysOverdue >= 0
              && !r[i].reminderSent
    ensures forall i, j :: 0 <= i < j < |r| ==> r[i].daysOverdue >= r[j].daysOverdue
  {
    var picked := Filter(invs, OverdueAt(now));
    var tagged := Map(picked, ToOverdue(now));
    var r := Sort(tagged, ByKeyDesc(OverdueKey));
    SortByKeyDesc(tagged, OverdueKey);
    FilterMembers(invs, OverdueAt(now));
    forall i | 0 <= i < |r|
      ensures IsOverdue(r[i].invoice, now) && r[i].invoice in invs
              && r[i].daysOverdue == DaysOverdue(r[i].invoice, now) && r[i].daysOverdue >= 0
              && !r[i].reminderSent
    {
      assert r[i] in multiset(tagged);
      var k :| 0 <= k < |tagged| && tagged[k] == r[i];
      assert r[i].invoice == picked[k];
    }
    r
  }

  /** An overdue invoice is listed, and every listed entry is overdue. */
  lemma {:induction false} GetOverdueInvoicesExact(invs: seq<Invoice>, now: int, inv: Invoice)
    ensures (exists i :: 0 <= i < |GetOverdueInvoices(invs, now)| && GetOverdueInvoices(invs, now)[i].invoice == inv)
            <==> inv in invs && IsOverdue(inv, now)
  {
    var r := GetOverdueInvoices(invs, now);
    var picked := Filter(invs, OverdueAt(now));
    var tagged := Map(picked, ToOverdue(now));
    FilterMembers(invs, OverdueAt(now));
    if inv in invs && IsOverdue(inv, now) {
      var j :| 0 <= j < |invs| && invs[j] == inv;
      assert inv in picked;
      var k :| 0 <= k < |picked| && picked[k] == inv;
      assert tagged[k] in multiset(r);
      var i :| 0 <= i < |r| && r[i] == tagged[k];
      assert r[i].invoice == inv;
    }
  }

  /**
   * The sort is stable: the entries with the same days overdue appear in the order their
   * invoices have in the input.
   */
  lemma GetOverdueInvoicesStable(invs: seq<Invoice>, now: int)
    ensures forall d :: Filter(GetOverdueInvoices(invs, now), WithKey(OverdueKey, d))
                     == Filter(Map(Filter(invs, OverdueAt(now)), ToOverdue(now)), WithKey(OverdueKey, d))
  {
    SortKeepsTies(Map(Filter(invs, OverdueAt(now)), ToOverdue(now)), OverdueKey);
  }

  function DueSoon(now: int, daysAhead: int): Invoice -> bool {
    (inv: Invoice) => inv.status == Pending && now <= inv.dueDate <= now + daysAhead * DAY
  }

  /** Pending invoices due between now and `daysAhead` days from now, inclusive (default 7). */
  function GetDueSoonInvoices(invs: seq<Invoice>, now: int, daysAhead: int := 7): (r: seq<Invoice>)
    ensures IsSubsequence(r, invs)
    ensures forall i :: 0 <= i < |r| ==>
              r[i].status == Pending && now <= r[i].dueDate <= now + daysAhead * DAY
    ensures forall i :: 0 <= i < |invs| ==>
              (invs[i].status == Pending && now <= invs[i].dueDate <= now + daysAhead * DAY ==> invs[i] in r)
  {
    FilterIsSubsequence(invs, DueSoon(now, daysAhead));
    FilterMembers(invs, DueSoon(now, daysAhead));
    Filter(invs, DueSoon(now, daysAhead))
  }

  /** Nothing is both due soon and overdue. */
  lemma DueSoonNeverOverdue(invs: seq<Invoice>, now: int, daysAhead: int, i: nat)
    requires i < |GetDueSoonInvoices(invs, now, daysAhead)|
    ensures !IsOverdue(GetDueSoonInvoices(invs, now, daysAhead)[i], now)
  {
  }

  /** Load-time normaliser: past-due pending invoices become overdue; nothing else changes. */
  function UpdateInvoiceStatus(inv: Invoice, now: int): (r: Invoice)
    ensures Settled(inv) ==> r == inv
    ensures inv.status == Overdue ==> r == inv
    ensures inv.status == Pending ==> r == inv.(status := if now > inv.dueDate then Overdue else Pending)
    ensures r.(status := inv.status) == inv
    ensures r.status == Overdue <==> inv.status == Overdue || (inv.status == Pending && now > inv.dueDate)
  {
    if inv.status == Paid || inv.status == Draft then inv
    else if now > inv.dueDate && inv.status != Overdue then inv.(status := Overdue)
    else inv
  }

  lemma UpdateInvoiceStatusIdempotent(inv: Invoice, now: int)
    ensures UpdateInvoiceStatus(UpdateInvoiceStatus(inv, now), now) == UpdateInvoiceStatus(inv, now)
  {
  }

  /** After normalising, the stored status says overdue whenever the invoice is overdue. */
  lemma UpdateInvoiceStatusReflectsOverdue(inv: Invoice, now: int)
    ensures IsOverdue(inv, now) ==> UpdateInvoiceStatus(inv, now).status == Overdue
    ensures UpdateInvoiceStatus(inv, now).status == Overdue && now > inv.dueDate ==> IsOverdue(inv, now)
  {
  }

  /** Marking as unpaid immediately after marking as paid clears the payment fields again. */
  lemma UnpaidAfterPaid(inv: Invoice, today: int, freshTrx: string, now: int)
    ensures MarkAsUnpaid(MarkAsPaid(inv, today, freshTrx), now)
            == inv.(status := if now > inv.dueDate then Overdue else Pending,
                    paymentDate := None, paymentMethod := None, transactionId := None)
  {
  }

  /** A second mark-paid on the same day changes nothing, since both fields are then set. */
  lemma MarkAsPaidIdempotent(inv: Invoice, today: int, trx1: string, trx2: string)
    requires trx1 != ""
    ensures MarkAsPaid(MarkAsPaid(inv, today, trx1), today, trx2) == MarkAsPaid(inv, today, trx1)
  {
  }

  /** Facts about Euclidean division by the day length, used for the urgency tiers. */
  lemma DayFloor(x: int, k: int)
    ensures x / DAY < k <==> x < k * DAY
  {
    var q := x / DAY;
    assert q * DAY <= x < q * DAY + DAY;
    if q < k {
      assert q + 1 <= k;
      assert (q + 1) * DAY <= k * DAY;
    } else {
      assert q * DAY >= k * DAY;
    }
  }

  /**
   * Urgency tiers by whole days until due (`Math.floor`): more than 30 days late is
   * critical, more than 7 high, otherwise late or due within 3 days is medium.
   */
  function GetUrgencyLevel(inv: Invoice, now: int): (u: Urgency)
    ensures Settled(inv) ==> u == Low
    ensures !Settled(inv) ==>
      && (u == Critical <==> now - inv.dueDate > 30 * DAY)
      && (u == High <==> 7 * DAY < now - inv.dueDate <= 30 * DAY)
      && (u == Medium <==> -4 * DAY < now - inv.dueDate <= 7 * DAY)
      && (u == Low <==> now - inv.dueDate <= -4 * DAY)
  {
    if inv.status == Paid || inv.status == Draft then Low
    else
      var daysUntilDue := (inv.dueDate - now) / DAY;
      DayFloor(inv.dueDate - now, 0);
      DayFloor(inv.dueDate - now, -30);
      DayFloor(inv.dueDate - now, -7);
      DayFloor(inv.dueDate - now, 4);
      if daysUntilDue < 0 then
        var daysOverdue := -daysUntilDue;
        if daysOverdue > 30 then Critical
        else if daysOverdue > 7 then High
        else Medium
      else if daysUntilDue <= 3 then Medium
      else Low
  }

  /** An overdue invoice is at least of medium urgency; high and critical imply overdue. */
  lemma UrgencyAgreesWithOverdue(inv: Invoice, now: int)
    ensures IsOverdue(inv, now) ==> GetUrgencyLevel(inv, now) != Low
    ensures GetUrgencyLevel(inv, now) in {High, Critical} ==> IsOverdue(inv, now)
  {
  }

  function FormatDaysOverdue(days: int): (s: string)
    ensures days == 1 ==> s == "1 day overdue"
    ensures days != 1 ==> s == IntToString(days) + " days overdue"
  {
    if days == 1 then "1 day overdue" else IntToString(days) + " days overdue"
  }

  /**
   * The reminder text for an overdue invoice, or "" when it is not overdue. The due-date
   * text and the formatted currency amount are passed in.
   */
  function GeneratePaymentReminder(inv: Invoice, now: int, dueText: string, amountText: string): (s: string)
    ensures s == "" <==> !IsOverdue(inv, now)
    ensures IsOverdue(inv, now) ==>
      s == "Invoice " + inv.number + " is " + FormatDaysOverdue(DaysOverdue(inv, now))
           + " (Due: " + dueText + "). Amount: " + amountText
  {
    var overdue := GetOverdueInvoices([inv], now);
    GetOverdueInvoicesExact([inv], now, inv);
    if |overdue| == 0 then ""
    else
      assert overdue[0].invoice == inv;
      "Invoice " + inv.number + " is " + FormatDaysOverdue(overdue[0].daysOverdue)
      + " (Due: " + dueText + "). Amount: " + amountText
  }
}
