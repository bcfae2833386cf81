/**
 * The reports screen (src/components/FinancialReports.tsx): the reporting period and the invoices
 * issued in it, the revenue summary, the payment-method table, the outstanding invoices, the
 * 90-day cash-flow forecast, the course report and the CSV export. `now` is the current time;
 * the calendar arithmetic of the fixed periods, number formatting and the charts are parameters
 * or not part of this model.
 */
module FinancialReports {
  import opened Wrappers
  import opened Strings
  import opened Seqs
  import opened Domain
  import opened Grouping
  import Analytics
  import PaymentService

  // ---------------------------------------------------------------- reporting period

  /**
   * `getDateRange`: the selected period ending now, or the custom dates, where a missing start is
   * the epoch and a missing end is now. `monthsBefore(t, k)` and `yearBefore(t)` are the calendar's
   * `setMonth(getMonth() - k)` and `setFullYear(getFullYear() - 1)`.
   */
  function DateRange(period: string, now: int, startDate: Option<int>, endDate: Option<int>,
                     monthsBefore: (int, nat) -> int, yearBefore: int -> int): (r: (int, int))
    ensures period != "custom" ==> r.1 == now
    ensures period == "custom" ==> r == (startDate.GetOr(0), endDate.GetOr(now))
    ensures period !in ["1month", "3months", "6months", "custom"] ==> r == (yearBefore(now), now)
  {
    match period
    case "1month" => (monthsBefore(now, 1), now)
    case "3months" => (monthsBefore(now, 3), now)
    case "6months" => (monthsBefore(now, 6), now)
    case "custom" => (startDate.GetOr(0), endDate.GetOr(now))
    case _ => (yearBefore(now), now)
  }

  function IssuedWithin(start: int, end: int): Invoice -> bool {
    (inv: Invoice) => start <= inv.issuedDate <= end
  }

  /** `filteredInvoices`: the invoices issued in the range, both ends included. */
  function InPeriod(invs: seq<Invoice>, start: int, end: int): seq<Invoice> {
    Filter(invs, IssuedWithin(start, end))
  }

  /** Exactly the invoices issued between the two ends are kept, in order. */
  lemma InPeriodExact(invs: seq<Invoice>, start: int, end: int)
    ensures forall i :: 0 <= i < |InPeriod(invs, start, end)| ==>
      InPeriod(invs, start, end)[i] in invs && start <= InPeriod(invs, start, end)[i].issuedDate <= end
    ensures forall i :: 0 <= i < |invs| && start <= invs[i].issuedDate <= end ==> invs[i] in InPeriod(invs, start, end)
    ensures IsSubsequence(InPeriod(invs, start, end), invs)
  {
    FilterMembers(invs, IssuedWithin(start, end));
    FilterIsSubsequence(invs, IssuedWithin(start, end));
  }

  /** A custom range with a start after its end shows nothing. */
  lemma ReversedRangeEmpty(invs: seq<Invoice>, start: int, end: int)
    requires start > end
    ensures InPeriod(invs, start, end) == []
  {
    FilterNone(invs, IssuedWithin(start, end));
  }

  // ---------------------------------------------------------------- revenue summary

  datatype RevenueSummary = RevenueSummary(
    totalRevenue: real,
    pendingRevenue: real,
    overdueRevenue: real,
    totalInvoices: nat,
    paidInvoices: nat,
    collectionRate: real)

  lemma PositiveProduct(a: real, b: real)
    requires a > 0.0 && b > 0.0
    ensures a * b > 0.0
  {
  }

  /** `(paidInvoices / totalInvoices) * 100` as a percentage of a whole. */
  lemma RateFacts(p: real, t: real)
    requires 0.0 <= p <= t && t > 0.0
    ensures 0.0 <= (p / t) * 100.0 <= 100.0
    ensures (p / t) * 100.0 == 100.0 <==> p == t
    ensures (p / t) * 100.0 == 0.0 <==> p == 0.0
  {
    var q := p / t;
    assert q * t == p;
    if q > 1.0 {
      PositiveProduct(q - 1.0, t);
    }
    if q < 0.0 {
      PositiveProduct(-q, t);
    }
  }

  /** The collection rate: the paid share in percent, 0 when there are no invoices. */
  function CollectionRate(paid: nat, total: nat): (r: real)
    requires paid <= total
    ensures 0.0 <= r <= 100.0
    ensures r == 100.0 <==> total > 0 && paid == total
    ensures r == 0.0 <==> paid == 0
  {
    if total > 0 then
      RateFacts(paid as real, total as real);
      (paid as real / total as real) * 100.0
    else 0.0
  }

  /** `revenueSummary`: paid, pending and overdue sums, and the collection rate. */
  function Summary(invs: seq<Invoice>, now: int): (r: RevenueSummary)
    ensures r.totalRevenue == Analytics.SumWithStatus(invs, Paid)
    ensures r.pendingRevenue == Analytics.SumWithStatus(invs, Pending)
    ensures r.overdueRevenue == Sum(Filter(invs, PaymentService.OverdueAt(now)), Analytics.Total)
    ensures r.totalInvoices == |invs| && r.paidInvoices == Count(invs, Analytics.WithStatus(Paid))
    ensures r.paidInvoices <= r.totalInvoices
    ensures r.collectionRate == CollectionRate(r.paidInvoices, r.totalInvoices)
  {
    var paid := Count(invs, Analytics.WithStatus(Paid));
    RevenueSummary(Analytics.SumWithStatus(invs, Paid),
                   Analytics.SumWithStatus(invs, Pending),
                   Sum(Filter(invs, PaymentService.OverdueAt(now)), Analytics.Total),
                   |invs|, paid, CollectionRate(paid, |invs|))
  }

  /** The rate is 100 exactly when there are invoices and all are paid, and 0 exactly when none is paid. */
  lemma CollectionRateExtremes(invs: seq<Invoice>, now: int)
    ensures Summary(invs, now).collectionRate == 100.0 <==>
      |invs| > 0 && forall k :: 0 <= k < |invs| ==> invs[k].status == Paid
    ensures Summary(invs, now).collectionRate == 0.0 <==> forall k :: 0 <= k < |invs| ==> invs[k].status != Paid
  {
    var p := Analytics.WithStatus(Paid);
    FilterKeepsAllIff(invs, p);
    if forall k :: 0 <= k < |invs| ==> invs[k].status != Paid {
      FilterNone(invs, p);
    } else {
      FilterMembers(invs, p);
      var k :| 0 <= k < |invs| && invs[k].status == Paid;
      assert invs[k] in Filter(invs, p);
    }
  }

  function PendingPastDue(now: int): Invoice -> bool { (inv: Invoice) => inv.status == Pending && now > inv.dueDate }

  function StoredOverduePastDue(now: int): Invoice -> bool { (inv: Invoice) => inv.status == Overdue && now > inv.dueDate }

  /**
   * The overdue revenue is the past-due pending invoices plus the past-due invoices stored as
   * overdue; so a past-due pending invoice counts in both the pending and the overdue revenue.
   */
  lemma OverdueRevenueSplit(invs: seq<Invoice>, now: int)
    ensures Summary(invs, now).overdueRevenue
      == Sum(Filter(invs, PendingPastDue(now)), Analytics.Total) + Sum(Filter(invs, StoredOverduePastDue(now)), Analytics.Total)
  {
    var o := Filter(invs, PaymentService.OverdueAt(now));
    SumPartition(o, Analytics.Total, Analytics.WithStatus(Pending));
    OverduePendingPart(invs, now);
    OverdueStoredPart(invs, now);
  }

  lemma OverduePendingPart(invs: seq<Invoice>, now: int)
    ensures Filter(Filter(invs, PaymentService.OverdueAt(now)), Analytics.WithStatus(Pending)) == Filter(invs, PendingPastDue(now))
  {
    FilterConj(invs, Analytics.WithStatus(Pending), PaymentService.OverdueAt(now), PendingPastDue(now));
  }

  lemma OverdueStoredPart(invs: seq<Invoice>, now: int)
    ensures Filter(Filter(invs, PaymentService.OverdueAt(now)), Not(Analytics.WithStatus(Pending)))
      == Filter(invs, StoredOverduePastDue(now))
  {
    var notPending := Not(Analytics.WithStatus(Pending));
    forall x: Invoice ensures StoredOverduePastDue(now)(x) == (PaymentService.OverdueAt(now)(x) && notPending(x)) {
      assert PaymentService.OverdueAt(now)(x) == PaymentService.IsOverdue(x, now);
      assert notPending(x) == (x.status != Pending);
    }
    FilterConj(invs, notPending, PaymentService.OverdueAt(now), StoredOverduePastDue(now));
  }

  /** One pending invoice past its due date: its total appears as pending and as overdue revenue. */
  lemma PastDuePendingCountedTwice(inv: Invoice, now: int)
    requires inv.status == Pending && now > inv.dueDate
    ensures Summary([inv], now).pendingRevenue == inv.total
    ensures Summary([inv], now).overdueRevenue == inv.total
    ensures Summary([inv], now).totalRevenue == 0.0
  {
    assert [inv][..0] == [];
  }

  // ---------------------------------------------------------------- payment methods

  /** The filter before the loop: paid, with a method that is neither missing nor empty. */
  function PaidWithMethod(inv: Invoice): bool {
    inv.status == Paid && inv.paymentMethod.Some? && inv.paymentMethod.value != ""
  }

  /** The record key `invoice.paymentMethod || "Unknown"`. */
  function MethodOf(inv: Invoice): string { OrString(inv.paymentMethod, "Unknown") }

  /** `s.replace(from, to)` with a one-character pattern: only the first occurrence is replaced. */
  function ReplaceFirst(s: string, from: char, to: char): (r: string)
    ensures |r| == |s|
    ensures from !in s ==> r == s
    ensures forall i :: 0 <= i < |s| && from !in s[..i] && s[i] == from ==> r[i] == to
    ensures forall i :: 0 <= i < |s| && r[i] != s[i] ==> s[i] == from && r[i] == to && from !in s[..i]
  {
    if s == [] then []
    else if s[0] == from then [to] + s[1..]
    else
      var rest := ReplaceFirst(s[1..], from, to);
      assert forall i :: 1 <= i < |s| ==> s[..i] == [s[0]] + s[1..][..i - 1];
      [s[0]] + rest
  }

  /** A character `\w` matches. */
  predicate IsWordChar(c: char) { 'a' <= c <= 'z' || 'A' <= c <= 'Z' || '0' <= c <= '9' || c == '_' }

  /** Position `i` starts a word: `\b\w` matches there. */
  predicate WordStart(s: string, i: int)
    requires 0 <= i < |s|
  {
    IsWordChar(s[i]) && (i == 0 || !IsWordChar(s[i - 1]))
  }

  /** `s.replace(/\b\w/g, l => l.toUpperCase())`. */
  function CapitalizeWords(s: string): (r: string)
    ensures |r| == |s|
    ensures forall i {:trigger r[i]} :: 0 <= i < |s| && WordStart(s, i) ==> r[i] == UpperChar(s[i])
    ensures forall i {:trigger r[i]} :: 0 <= i < |s| && !WordStart(s, i) ==> r[i] == s[i]
  {
    seq(|s|, i requires 0 <= i < |s| => if WordStart(s, i) then UpperChar(s[i]) else s[i])
  }

  /** Capitalising twice changes nothing more: an upper-cased letter still starts its word. */
  lemma CapitalizeWordsIdempotent(s: string)
    ensures CapitalizeWords(CapitalizeWords(s)) == CapitalizeWords(s)
  {
    var r := CapitalizeWords(s);
    assert forall i :: 0 <= i < |s| ==> (IsWordChar(r[i]) <==> IsWordChar(s[i]));
    forall i | 0 <= i < |s| ensures CapitalizeWords(r)[i] == r[i] {
      assert WordStart(r, i) <==> WordStart(s, i);
    }
  }

  /** The label shown for a method key. */
  function MethodLabel(key: string): string { CapitalizeWords(ReplaceFirst(key, '_', ' ')) }

  /** A non-empty run of lower-case ASCII letters. */
  predicate LowerWord(w: string) { |w| > 0 && forall i :: 0 <= i < |w| ==> 'a' <= w[i] <= 'z' }

  /** The word with its first letter upper-cased. */
  function Capitalized(w: string): string
    requires |w| > 0
  {
    [UpperChar(w[0])] + w[1..]
  }

  /** The first underscore, after a part without one, becomes the space; the rest is kept, underscores included. */
  lemma SplitFirst(a: string, m: string, b: string)
    requires |a| > 0
    ensures (a + m + b)[0] == a[0] && (a + m + b)[1..] == a[1..] + m + b
    ensures a + m + b == [a[0]] + (a[1..] + m + b)
  {
    assert a == [a[0]] + a[1..];
  }

  lemma {:induction false} ReplaceFirstAt(a: string, b: string)
    requires '_' !in a
    ensures ReplaceFirst(a + "_" + b, '_', ' ') == a + " " + b
    decreases |a|
  {
    var s := a + "_" + b;
    if a == [] {
      assert s == ['_'] + b && a + " " + b == [' '] + b;
    } else {
      SplitFirst(a, "_", b);
      SplitFirst(a, " ", b);
      ReplaceFirstAt(a[1..], b);
    }
  }

  /** Before the space, capitalising `x + " " + y` is capitalising `x`. */
  lemma CapitalizeBeforeSpace(x: string, y: string, i: nat)
    requires i < |x|
    ensures CapitalizeWords(x + " " + y)[i] == CapitalizeWords(x)[i]
  {
    var t := x + " " + y;
    assert t[i] == x[i];
    if i > 0 { assert t[i - 1] == x[i - 1]; }
    assert WordStart(t, i) <==> WordStart(x, i);
  }

  /** After the space, capitalising `x + " " + y` is capitalising `y`. */
  lemma CapitalizeAfterSpace(x: string, y: string, i: nat)
    requires |x| < i < |x| + 1 + |y|
    ensures CapitalizeWords(x + " " + y)[i] == CapitalizeWords(y)[i - |x| - 1]
  {
    var t := x + " " + y;
    var j := i - |x| - 1;
    assert t[i] == y[j];
    assert t[i - 1] == if j == 0 then ' ' else y[j - 1];
    assert WordStart(t, i) <==> WordStart(y, j);
  }

  /** The space itself is kept. */
  lemma CapitalizeAtSpace(x: string, y: string)
    ensures CapitalizeWords(x + " " + y)[|x|] == ' '
  {
    var t := x + " " + y;
    assert t[|x|] == ' ';
    assert !WordStart(t, |x|);
  }

  /** A space separates words, so capitalising splits around it. */
  lemma CapitalizeAroundSpace(x: string, y: string)
    ensures CapitalizeWords(x + " " + y) == CapitalizeWords(x) + " " + CapitalizeWords(y)
  {
    var c := CapitalizeWords(x + " " + y);
    var e := CapitalizeWords(x) + " " + CapitalizeWords(y);
    forall i | 0 <= i < |c| ensures c[i] == e[i] {
      if i < |x| {
        CapitalizeBeforeSpace(x, y, i);
      } else if i == |x| {
        CapitalizeAtSpace(x, y);
      } else {
        CapitalizeAfterSpace(x, y, i);
      }
    }
  }

  /** A run of word characters is one word: only its first character is upper-cased. */
  lemma CapitalizeOneWord(w: string)
    requires |w| > 0 && forall i :: 0 <= i < |w| ==> IsWordChar(w[i])
    ensures CapitalizeWords(w) == Capitalized(w)
  {
    var r := CapitalizeWords(w);
    forall i | 0 <= i < |w| ensures r[i] == Capitalized(w)[i] {
      if i > 0 { assert !WordStart(w, i); }
    }
  }

  /** A one-word key is capitalised: `paypal` is shown as `Paypal`. */
  lemma OneWordLabel(a: string)
    requires LowerWord(a)
    ensures MethodLabel(a) == Capitalized(a)
  {
    CapitalizeOneWord(a);
  }

  /** A two-word key is shown as two capitalised words: `bank_transfer` as `Bank Transfer`. */
  lemma TwoWordLabel(a: string, b: string)
    requires LowerWord(a) && LowerWord(b)
    ensures MethodLabel(a + "_" + b) == Capitalized(a) + " " + Capitalized(b)
  {
    ReplaceFirstAt(a, b);
    CapitalizeAroundSpace(a, b);
    CapitalizeOneWord(a);
    CapitalizeOneWord(b);
  }

  /** An underscore is a word character, so a second underscore in a key does not start a new word. */
  lemma UnderscoreJoins(b: string, c: string)
    requires LowerWord(b) && LowerWord(c)
    ensures CapitalizeWords(b + "_" + c) == Capitalized(b) + "_" + c
  {
    var rest := b + "_" + c;
    assert forall i :: 0 <= i < |rest| ==> IsWordChar(rest[i]);
    CapitalizeOneWord(rest);
    assert rest[1..] == b[1..] + "_" + c;
  }

  datatype MethodRow = MethodRow(methodName: string, amount: real, count: nat)

  function ToMethodRow(g: Group<string>): MethodRow { MethodRow(MethodLabel(g.key), g.sum, g.count) }

  function RowAmount(r: MethodRow): real { r.amount }

  /** The record built by the loop, one entry per method key in order of first appearance. */
  function MethodGroups(invs: seq<Invoice>): seq<Group<string>> {
    GroupBy(Filter(invs, PaidWithMethod), MethodOf, Analytics.Total)
  }

  /** `paymentMethodsData`: the entries as rows, largest amount first. */
  function PaymentMethodRows(invs: seq<Invoice>): seq<MethodRow> {
    Sort(Map(MethodGroups(invs), ToMethodRow), ByKeyDesc(RowAmount))
  }

  /** The `forEach` that fills the record in place, then the sort of its values. */
  method PaymentMethodsData(invs: seq<Invoice>) returns (rows: seq<MethodRow>)
    ensures rows == PaymentMethodRows(invs)
  {
    var picked := Filter(invs, PaidWithMethod);
    var acc: seq<Group<string>> := [];
    for i := 0 to |picked|
      invariant acc == GroupBy(picked[..i], MethodOf, Analytics.Total)
    {
      assert picked[..i + 1][..i] == picked[..i];
      acc := AddTo(acc, picked[i], MethodOf, Analytics.Total);
    }
    assert picked[..|picked|] == picked;
    rows := Sort(Map(acc, ToMethodRow), ByKeyDesc(RowAmount));
  }

  /**
   * One entry per method key of the paid invoices with a method, each holding the sum of their
   * totals and their number; the counts add up to the number of such invoices; the rows are
   * those entries, largest amount first.
   */
  lemma PaymentMethodRowsCorrect(invs: seq<Invoice>)
    ensures var picked := Filter(invs, PaidWithMethod);
      var groups := MethodGroups(invs);
      && (forall i :: 0 <= i < |picked| ==> picked[i].status == Paid && picked[i] in invs)
      && (forall i :: 0 <= i < |groups| ==> EntryRight(picked, MethodOf, Analytics.Total, groups[i]))
      && (forall i :: 0 <= i < |picked| ==> HasEntry(groups, MethodOf(picked[i])))
      && (forall i, j :: 0 <= i < j < |groups| ==> groups[i].key != groups[j].key)
      && SumCounts(groups) == |picked|
      && multiset(PaymentMethodRows(invs)) == multiset(Map(groups, ToMethodRow))
      && forall i, j :: 0 <= i < j < |PaymentMethodRows(invs)| ==>
           PaymentMethodRows(invs)[i].amount >= PaymentMethodRows(invs)[j].amount
  {
    var picked := Filter(invs, PaidWithMethod);
    FilterMembers(invs, PaidWithMethod);
    GroupByTotals(picked, MethodOf, Analytics.Total);
    GroupByCovers(picked, MethodOf, Analytics.Total);
    GroupByDistinct(picked, MethodOf, Analytics.Total);
    GroupByCountsSum(picked, MethodOf, Analytics.Total);
    SortByKeyDesc(Map(MethodGroups(invs), ToMethodRow), RowAmount);
  }

  // ---------------------------------------------------------------- outstanding invoices

  datatype OutstandingRow = OutstandingRow(
    id: string,
    number: string,
    client: string,
    amount: real,
    dueDate: int,
    daysOverdue: int,
    status: string)

  /** `inv.status === "pending" || PaymentService.isOverdue(inv)`. */
  function IsOutstanding(now: int): Invoice -> bool {
    (inv: Invoice) => inv.status == Pending || PaymentService.IsOverdue(inv, now)
  }

  /** The row pushed for one invoice: labelled overdue once a whole day has passed since the due date. */
  function ToOutstanding(now: int): Invoice -> OutstandingRow {
    (inv: Invoice) =>
      var days := PaymentService.DaysOverdue(inv, now);
      OutstandingRow(inv.id, inv.number, inv.client.name, inv.total, inv.dueDate, days,
                     if days > 0 then "overdue" else "pending")
  }

  function DaysKey(r: OutstandingRow): real { r.daysOverdue as real }

  /** `outstandingInvoices`, from all invoices whatever the period, most days overdue first. */
  function OutstandingRows(invs: seq<Invoice>, now: int): seq<OutstandingRow> {
    Sort(Map(Filter(invs, IsOutstanding(now)), ToOutstanding(now)), ByKeyDesc(DaysKey))
  }

  /** The `forEach` that pushes one row per outstanding invoice, then the sort. */
  method OutstandingInvoices(invs: seq<Invoice>, now: int) returns (rows: seq<OutstandingRow>)
    ensures rows == OutstandingRows(invs, now)
  {
    var picked := Filter(invs, IsOutstanding(now));
    var outstanding: seq<OutstandingRow> := [];
    for i := 0 to |picked|
      invariant outstanding == Map(picked[..i], ToOutstanding(now))
    {
      outstanding := outstanding + [ToOutstanding(now)(picked[i])];
    }
    assert picked[..|picked|] == picked;
    rows := Sort(outstanding, ByKeyDesc(DaysKey));
  }

  /** An invoice is outstanding when it is pending, or stored as overdue and past its due date. */
  lemma OutstandingIff(inv: Invoice, now: int)
    ensures IsOutstanding(now)(inv) <==> inv.status == Pending || (inv.status == Overdue && now > inv.dueDate)
  {
  }

  /** The label is `overdue` exactly when at least one whole day has passed since the due date. */
  lemma OutstandingLabel(inv: Invoice, now: int)
    ensures ToOutstanding(now)(inv).status == "overdue" <==> now - inv.dueDate >= DAY
    ensures ToOutstanding(now)(inv).status == "overdue" || ToOutstanding(now)(inv).status == "pending"
  {
    PaymentService.DayFloor(now - inv.dueDate, 1);
  }

  /** The rows are those of the outstanding invoices, one each, most days overdue first. */
  lemma OutstandingRowsCorrect(invs: seq<Invoice>, now: int)
    ensures multiset(OutstandingRows(invs, now)) == multiset(Map(Filter(invs, IsOutstanding(now)), ToOutstanding(now)))
    ensures forall i :: 0 <= i < |invs| && IsOutstanding(now)(invs[i]) ==> ToOutstanding(now)(invs[i]) in OutstandingRows(invs, now)
  {
    var picked := Filter(invs, IsOutstanding(now));
    var tagged := Map(picked, ToOutstanding(now));
    var rows := OutstandingRows(invs, now);
    FilterMembers(invs, IsOutstanding(now));
    forall i | 0 <= i < |invs| && IsOutstanding(now)(invs[i]) ensures ToOutstanding(now)(invs[i]) in rows {
      var k :| 0 <= k < |picked| && picked[k] == invs[i];
      assert tagged[k] in multiset(rows);
    }
  }

  /** The rows are listed most days overdue first. */
  lemma OutstandingRowsOrdered(invs: seq<Invoice>, now: int)
    ensures forall i, j :: 0 <= i < j < |OutstandingRows(invs, now)| ==>
      OutstandingRows(invs, now)[i].daysOverdue >= OutstandingRows(invs, now)[j].daysOverdue
  {
    var rows := OutstandingRows(invs, now);
    SortByKeyDesc(Map(Filter(invs, IsOutstanding(now)), ToOutstanding(now)), DaysKey);
    forall i, j | 0 <= i < j < |rows| ensures rows[i].daysOverdue >= rows[j].daysOverdue {
      assert DaysKey(rows[i]) >= DaysKey(rows[j]);
    }
  }

  /** Each row is labelled overdue exactly when its days overdue are positive. */
  lemma OutstandingRowsLabelled(invs: seq<Invoice>, now: int)
    ensures forall i :: 0 <= i < |OutstandingRows(invs, now)| ==>
      (OutstandingRows(invs, now)[i].status == "overdue" <==> OutstandingRows(invs, now)[i].daysOverdue > 0)
  {
    var tagged := Map(Filter(invs, IsOutstanding(now)), ToOutstanding(now));
    var rows := OutstandingRows(invs, now);
    forall i | 0 <= i < |rows| ensures rows[i].status == "overdue" <==> rows[i].daysOverdue > 0 {
      assert rows[i] in multiset(tagged);
      var k :| 0 <= k < |tagged| && tagged[k] == rows[i];
    }
  }

  /** An invoice stored as overdue whose due date has not passed is left out of the list. */
  lemma StoredOverdueNotYetDueLeftOut(inv: Invoice, now: int)
    requires inv.status == Overdue && now <= inv.dueDate
    ensures OutstandingRows([inv], now) == []
  {
    assert [inv][..0] == [];
  }

  // ---------------------------------------------------------------- cash-flow forecast

  function DueBy(t: int): Invoice -> bool { (inv: Invoice) => inv.dueDate <= t }

  /** The end of the forecast window, 90 days from now. */
  function Horizon(now: int): int { now + 90 * DAY }

  /** `cashFlowForecast`: pending invoices due within 90 days from now, from all invoices. */
  function CashFlowForecast(invs: seq<Invoice>, now: int): real {
    Sum(Filter(Filter(invs, Analytics.WithStatus(Pending)), DueBy(Horizon(now))), Analytics.Total)
  }

  function PendingDueBy(t: int): Invoice -> bool { (inv: Invoice) => inv.status == Pending && inv.dueDate <= t }

  /** The invoices the forecast sums. */
  function Forecasted(invs: seq<Invoice>, now: int): seq<Invoice> { Filter(invs, PendingDueBy(Horizon(now))) }

  /**
   * The forecast sums exactly the pending invoices due at most 90 days from now, those already
   * past due included.
   */
  lemma CashFlowForecastCovers(invs: seq<Invoice>, now: int)
    ensures CashFlowForecast(invs, now) == Sum(Forecasted(invs, now), Analytics.Total)
    ensures forall i :: 0 <= i < |invs| && invs[i].status == Pending && invs[i].dueDate <= Horizon(now) ==>
      invs[i] in Forecasted(invs, now)
    ensures forall i :: 0 <= i < |Forecasted(invs, now)| ==>
      Forecasted(invs, now)[i].status == Pending && Forecasted(invs, now)[i].dueDate <= Horizon(now)
  {
    FilterConj(invs, DueBy(Horizon(now)), Analytics.WithStatus(Pending), PendingDueBy(Horizon(now)));
    FilterMembers(invs, PendingDueBy(Horizon(now)));
  }

  /** A pending invoice already past due stays in the forecast. */
  lemma PastDueInForecast(inv: Invoice, now: int)
    requires inv.status == Pending && inv.dueDate < now
    ensures CashFlowForecast([inv], now) == inv.total
  {
    assert [inv][..0] == [];
    assert Filter([inv], Analytics.WithStatus(Pending)) == [inv];
    assert Filter([inv], DueBy(Horizon(now))) == [inv];
    assert Sum([inv], Analytics.Total) == Sum([inv][..0], Analytics.Total) + inv.total;
  }

  // ---------------------------------------------------------------- course report

  datatype CourseRow = CourseRow(
    courseName: string,
    cohort: string,
    courseId: string,
    trainingDates: string,
    amount: real,
    invoiced: bool,
    paid: bool,
    invoiceNumber: string,
    notes: string)

  /** `s || fallback` for a string that is present. */
  function Or(s: string, fallback: string): string { if s == "" then fallback else s }

  function HasCourse(inv: Invoice): bool { inv.courseInfo.Some? }

  /** The row pushed for an invoice with course details. */
  function CourseRowOf(inv: Invoice): (r: CourseRow)
    requires inv.courseInfo.Some?
    ensures r.invoiced && (r.paid <==> inv.status == Paid)
    ensures r.amount == inv.total && r.invoiceNumber == inv.number && r.notes == OrString(inv.notes, "")
    ensures r.courseName != "" && r.cohort != "" && r.courseId != "" && r.trainingDates != ""
    ensures inv.courseInfo.value.courseName != "" ==> r.courseName == inv.courseInfo.value.courseName
    ensures inv.courseInfo.value.courseName == "" ==> r.courseName == "N/A"
    ensures inv.courseInfo.value.cohort == "" ==> r.cohort == "None"
    ensures inv.courseInfo.value.courseId == "" ==> r.courseId == "None"
    ensures inv.courseInfo.value.trainingDates == "" ==> r.trainingDates == "N/A"
  {
    var c := inv.courseInfo.value;
    CourseRow(Or(c.courseName, "N/A"), Or(c.cohort, "None"), Or(c.courseId, "None"),
              Or(c.trainingDates, "N/A"), inv.total, true, inv.status == Paid, inv.number,
              OrString(inv.notes, ""))
  }

  /** The pushed rows in order: one per invoice with course details. */
  function CourseRows(invs: seq<Invoice>): (rows: seq<CourseRow>)
    ensures |rows| == Count(invs, HasCourse)
  {
    if invs == [] then []
    else
      var last := invs[|invs| - 1];
      CourseRows(invs[..|invs| - 1]) + if last.courseInfo.Some? then [CourseRowOf(last)] else []
  }

  function ByCourseName(): (CourseRow, CourseRow) -> bool {
    (a: CourseRow, b: CourseRow) => LexLess(a.courseName, b.courseName)
  }

  lemma ByCourseNameIsStrict()
    ensures StrictOrder(ByCourseName())
  {
    forall x ensures !ByCourseName()(x, x) { LexLessIrreflexive(x.courseName); }
    forall x, y, z | ByCourseName()(x, y) && ByCourseName()(y, z) ensures ByCourseName()(x, z) {
      LexLessTransitive(x.courseName, y.courseName, z.courseName);
    }
  }

  /** `courseReportData`, ordered by course name. */
  function CourseReport(invs: seq<Invoice>): seq<CourseRow> { Sort(CourseRows(invs), ByCourseName()) }

  /** The `forEach` that pushes a row for each invoice with course details, then the sort. */
  method CourseReportData(invs: seq<Invoice>) returns (rows: seq<CourseRow>)
    ensures rows == CourseReport(invs)
  {
    var courseData: seq<CourseRow> := [];
    for i := 0 to |invs|
      invariant courseData == CourseRows(invs[..i])
    {
      assert invs[..i + 1][..i] == invs[..i];
      if invs[i].courseInfo.Some? {
        courseData := courseData + [CourseRowOf(invs[i])];
      }
    }
    assert invs[..|invs|] == invs;
    rows := Sort(courseData, ByCourseName());
  }

  /** Every pushed row comes from an invoice with course details, and every such invoice has a row. */
  lemma {:induction false} CourseRowsFrom(invs: seq<Invoice>)
    ensures forall r :: r in CourseRows(invs) ==>
      exists k :: 0 <= k < |invs| && invs[k].courseInfo.Some? && r == CourseRowOf(invs[k])
    ensures forall k :: 0 <= k < |invs| && invs[k].courseInfo.Some? ==> CourseRowOf(invs[k]) in CourseRows(invs)
    decreases |invs|
  {
    if invs != [] {
      var init := invs[..|invs| - 1];
      CourseRowsFrom(init);
      assert forall k :: 0 <= k < |init| ==> invs[k] == init[k];
    }
  }

  /** One row per invoice with course details, ordered by course name. */
  lemma CourseReportOrdered(invs: seq<Invoice>)
    ensures |CourseReport(invs)| == Count(invs, HasCourse)
    ensures multiset(CourseReport(invs)) == multiset(CourseRows(invs))
    ensures forall i, j :: 0 <= i < j < |CourseReport(invs)| ==>
      !LexLess(CourseReport(invs)[j].courseName, CourseReport(invs)[i].courseName)
  {
    ByCourseNameIsStrict();
    SortSorted(CourseRows(invs), ByCourseName());
  }

  /**
   * Each row of the report has the fields of an invoice with course details, and each such
   * invoice has its row.
   */
  lemma CourseReportRows(invs: seq<Invoice>)
    ensures forall i :: 0 <= i < |CourseReport(invs)| ==>
      exists k :: 0 <= k < |invs| && invs[k].courseInfo.Some? && CourseReport(invs)[i] == CourseRowOf(invs[k])
    ensures forall k :: 0 <= k < |invs| && invs[k].courseInfo.Some? ==> CourseRowOf(invs[k]) in CourseReport(invs)
  {
    var rows := CourseRows(invs);
    var sorted := CourseReport(invs);
    CourseRowsFrom(invs);
    forall i | 0 <= i < |sorted|
      ensures exists k :: 0 <= k < |invs| && invs[k].courseInfo.Some? && sorted[i] == CourseRowOf(invs[k])
    {
      assert sorted[i] in multiset(rows);
      assert sorted[i] in rows;
    }
    forall k | 0 <= k < |invs| && invs[k].courseInfo.Some? ensures CourseRowOf(invs[k]) in sorted {
      assert CourseRowOf(invs[k]) in multiset(rows);
    }
  }

  // ---------------------------------------------------------------- CSV export

  /** A cell as exported: wrapped in double quotes, its content unchanged. */
  function Quote(cell: string): string { "\"" + cell + "\"" }

  function CsvLine(cells: seq<string>): string { Join(Map(cells, Quote), ",") }

  /** `csvData.map(row => row.map(cell => `"${cell}"`).join(",")).join("\n")`, the cells already text. */
  function Csv(rows: seq<seq<string>>): string { Join(Map(rows, CsvLine), "\n") }

  function IsQuoteChar(c: char): bool { c == '"' }

  /**
   * Embedded double quotes are not doubled, as section 2 of RFC 4180 requires: a quoted cell holds
   * exactly two more quote characters than its content.
   */
  lemma QuoteDoesNotEscape(cell: string)
    ensures Count(Quote(cell), IsQuoteChar) == Count(cell, IsQuoteChar) + 2
  {
    FilterAppend("\"" + cell, "\"", IsQuoteChar);
    FilterAppend("\"", cell, IsQuoteChar);
  }

  /** Dropping the first and last character. */
  function Unquote(s: string): string { if |s| >= 2 then s[1..|s| - 1] else s }

  /** The naive reading of an exported file: lines on `\n`, cells on `,`, quotes dropped. */
  function ReadCsv(text: string): seq<seq<string>> {
    Map(Split(text, '\n'), (line: string) => Map(Split(line, ','), Unquote))
  }

  predicate PlainCell(cell: string) { ',' !in cell && '\n' !in cell }

  lemma CsvLineReads(cells: seq<string>)
    requires |cells| >= 1 && forall j :: 0 <= j < |cells| ==> PlainCell(cells[j])
    ensures '\n' !in CsvLine(cells)
    ensures Map(Split(CsvLine(cells), ','), Unquote) == cells
  {
    var quoted := Map(cells, Quote);
    assert forall j :: 0 <= j < |quoted| ==> ',' !in quoted[j] && '\n' !in quoted[j];
    SplitJoin(quoted, ',');
    JoinWithout(quoted, ",", '\n');
    assert forall j :: 0 <= j < |cells| ==> Unquote(quoted[j]) == cells[j];
  }

  /**
   * Every row of the export has at least one cell; when no cell holds a comma or a line break the
   * file reads back as the table it was made from.
   */
  lemma CsvRoundTrip(rows: seq<seq<string>>)
    requires |rows| >= 1
    requires forall i :: 0 <= i < |rows| ==> |rows[i]| >= 1
    requires forall i, j :: 0 <= i < |rows| && 0 <= j < |rows[i]| ==> PlainCell(rows[i][j])
    ensures ReadCsv(Csv(rows)) == rows
  {
    var lines := Map(rows, CsvLine);
    forall i | 0 <= i < |rows| ensures '\n' !in lines[i] && Map(Split(lines[i], ','), Unquote) == rows[i] {
      CsvLineReads(rows[i]);
    }
    SplitJoin(lines, '\n');
  }

  /** The line of one course row; `number` renders the amount. */
  function CourseCells(r: CourseRow, number: real -> string): (cells: seq<string>)
    ensures |cells| == 9 && cells[0] == r.courseName && cells[7] == r.invoiceNumber
    ensures (cells[5] == "Y" <==> r.invoiced) && (cells[6] == "Y" <==> r.paid)
  {
    [r.courseName, r.cohort, r.courseId, r.trainingDates, number(r.amount),
     if r.invoiced then "Y" else "N", if r.paid then "Y" else "N", r.invoiceNumber, r.notes]
  }

  /** The course report file: a title, the generation date, a blank line, the header and one line per row. */
  function CourseCsvTable(rows: seq<CourseRow>, generated: string, number: real -> string): (t: seq<seq<string>>)
    ensures |t| == 4 + |rows|
    ensures forall i :: 0 <= i < |rows| ==> t[4 + i] == CourseCells(rows[i], number)
  {
    var header := [["Course Report", ""], ["Generated", generated], [""],
                   ["Course Name", "Cohort", "Course ID", "Training Dates", "Amount", "Invoiced", "Paid", "Invoice Number", "Notes"]];
    header + seq(|rows|, i requires 0 <= i < |rows| => CourseCells(rows[i], number))
  }

  /** The period cell: the two custom dates, or the period's name. */
  function PeriodText(period: string, startText: string, endText: string): string {
    if period == "custom" then startText + " to " + endText else period
  }

  /** The financial report file: title, dates, the summary, then one line per outstanding invoice. */
  function FinancialCsvTable(s: RevenueSummary, outstanding: seq<OutstandingRow>, periodText: string,
                             generated: string, number: real -> string, oneDecimal: real -> string): (t: seq<seq<string>>)
    ensures |t| == 12 + |outstanding|
    ensures t[8] == ["Collection Rate", oneDecimal(s.collectionRate) + "%"]
    ensures forall i :: 0 <= i < |outstanding| ==>
      t[12 + i] == [outstanding[i].number, outstanding[i].client, number(outstanding[i].amount),
                    IntToString(outstanding[i].daysOverdue)]
  {
    [["Financial Report", ""], ["Generated", generated], ["Period", periodText], [""],
     ["Revenue Summary", ""], ["Total Revenue", number(s.totalRevenue)],
     ["Pending Revenue", number(s.pendingRevenue)], ["Overdue Revenue", number(s.overdueRevenue)],
     ["Collection Rate", oneDecimal(s.collectionRate) + "%"], [""], ["Outstanding Invoices", ""],
     ["Invoice Number", "Client", "Amount", "Days Overdue"]]
    + seq(|outstanding|, i requires 0 <= i < |outstanding| =>
        [outstanding[i].number, outstanding[i].client, number(outstanding[i].amount),
         IntToString(outstanding[i].daysOverdue)])
  }

  /** `exportReport`: the course file for the course report, the financial file otherwise. */
  function ExportContent(reportType: string, courses: seq<CourseRow>, s: RevenueSummary,
                         outstanding: seq<OutstandingRow>, periodText: string, generated: string,
                         number: real -> string, oneDecimal: real -> string): (text: string)
    ensures reportType == "course" ==> text == Csv(CourseCsvTable(courses, generated, number))
    ensures reportType != "course" ==> text == Csv(FinancialCsvTable(s, outstanding, periodText, generated, number, oneDecimal))
  {
    if reportType == "course" then Csv(CourseCsvTable(courses, generated, number))
    else Csv(FinancialCsvTable(s, outstanding, periodText, generated, number, oneDecimal))
  }
}
