/**
 * Dashboard aggregates over a list of invoices (src/utils/analytics.ts). The local-time
 * calendar (`getMonth`, `getFullYear`) is the parameter `cal`, mapping a timestamp to its
 * year and zero-based month.
 */
module Analytics {
  import opened Wrappers
  import opened Strings
  import opened Seqs
  import opened Domain
  import opened Grouping

  datatype MonthKey = MonthKey(year: int, month: int)

  /** Months since year 0, so that consecutive months differ by one. */
  function MonthIndex(k: MonthKey): int { k.year * 12 + k.month }

  /** `new Date(year, month - i, 1)`: the month `i` months before `k`, normalised. */
  function MonthsBack(k: MonthKey, i: int): (r: MonthKey)
    ensures 0 <= r.month < 12
    ensures MonthIndex(r) == MonthIndex(k) - i
  {
    var t := k.year * 12 + k.month - i;
    MonthKey(t / 12, t % 12)
  }

  const MonthNames: seq<string> := ["Jan", "Feb", "Mar", "Apr", "May", "Jun",
                                    "Jul", "Aug", "Sep", "Oct", "Nov", "Dec"]

  function Total(inv: Invoice): real { inv.total }

  function StatusOf(inv: Invoice): Status { inv.status }

  function WithStatus(s: Status): Invoice -> bool { (inv: Invoice) => inv.status == s }

  function SumWithStatus(invs: seq<Invoice>, s: Status): real {
    Sum(Filter(invs, WithStatus(s)), Total)
  }

  function PaidInMonth(cal: int -> MonthKey, k: MonthKey): Invoice -> bool {
    (inv: Invoice) => cal(inv.issuedDate) == k && inv.status == Paid
  }

  /** Paid invoices issued in the given calendar month. */
  function PaidIn(invs: seq<Invoice>, cal: int -> MonthKey, k: MonthKey): seq<Invoice> {
    Filter(invs, PaidInMonth(cal, k))
  }

  // ---------------------------------------------------------------- dashboard metrics

  datatype DashboardMetrics = DashboardMetrics(
    totalRevenue: real,
    monthlyRevenue: real,
    totalInvoices: nat,
    paidInvoices: nat,
    pendingAmount: real,
    overdueAmount: real,
    monthlyGrowth: real,
    averageInvoiceValue: real)

  /** The previous month as the dashboard computes it: January wraps to December. */
  function PreviousMonth(k: MonthKey): MonthKey {
    if k.month == 0 then MonthKey(k.year - 1, 11) else MonthKey(k.year, k.month - 1)
  }

  lemma PreviousMonthIsOneBack(k: MonthKey)
    requires 0 <= k.month < 12
    ensures PreviousMonth(k) == MonthsBack(k, 1)
    ensures MonthIndex(PreviousMonth(k)) == MonthIndex(k) - 1
  {
    var t := k.year * 12 + k.month - 1;
    if k.month == 0 {
      assert t == (k.year - 1) * 12 + 11;
    } else {
      assert t == k.year * 12 + (k.month - 1);
    }
  }

  function GetDashboardMetrics(invs: seq<Invoice>, now: int, cal: int -> MonthKey): (m: DashboardMetrics)
    ensures m.totalInvoices == |invs|
    ensures m.paidInvoices == |Filter(invs, WithStatus(Paid))| <= |invs|
    ensures m.averageInvoiceValue == if |invs| > 0 then m.totalRevenue / (|invs| as real) else 0.0
    ensures m.pendingAmount == SumWithStatus(invs, Pending) && m.overdueAmount == SumWithStatus(invs, Overdue)
    ensures m.totalRevenue == SumWithStatus(invs, Paid) + m.pendingAmount + SumWithStatus(invs, Draft) + m.overdueAmount
    ensures m.monthlyRevenue == Sum(PaidIn(invs, cal, cal(now)), Total)
    ensures var prev := Sum(PaidIn(invs, cal, PreviousMonth(cal(now))), Total);
      && (prev <= 0.0 ==> m.monthlyGrowth == 0.0)
      && (prev > 0.0 ==> m.monthlyGrowth * prev == (m.monthlyRevenue - prev) * 100.0)
  {
    TotalRevenueByStatus(invs);
    var totalRevenue := Sum(invs, Total);
    var current := cal(now);
    var monthlyRevenue := Sum(PaidIn(invs, cal, current), Total);
    var previousMonthRevenue := Sum(PaidIn(invs, cal, PreviousMonth(current)), Total);
    DashboardMetrics(
      totalRevenue,
      monthlyRevenue,
      |invs|,
      |Filter(invs, WithStatus(Paid))|,
      SumWithStatus(invs, Pending),
      SumWithStatus(invs, Overdue),
      if previousMonthRevenue > 0.0 then (monthlyRevenue - previousMonthRevenue) / previousMonthRevenue * 100.0 else 0.0,
      if |invs| > 0 then totalRevenue / (|invs| as real) else 0.0)
  }

  /** Total revenue counts every invoice: it is the sum of the four per-status sums. */
  lemma {:induction false} TotalRevenueByStatus(invs: seq<Invoice>)
    ensures Sum(invs, Total)
      == SumWithStatus(invs, Paid) + SumWithStatus(invs, Pending)
         + SumWithStatus(invs, Draft) + SumWithStatus(invs, Overdue)
    decreases |invs|
  {
    if invs != [] {
      var init := invs[..|invs| - 1];
      TotalRevenueByStatus(init);
      var last := invs[|invs| - 1];
      forall s: Status
        ensures SumWithStatus(invs, s)
                == SumWithStatus(init, s) + (if last.status == s then last.total else 0.0)
      {
        var f := Filter(invs, WithStatus(s));
        if last.status == s {
          assert f[..|f| - 1] == Filter(init, WithStatus(s));
        }
      }
    }
  }

  // ---------------------------------------------------------------- monthly revenue

  datatype MonthlyRevenue = MonthlyRevenue(month: string, revenue: real, invoices: nat)

  /** The chart entry for one month: paid invoices issued in it, their count and total. */
  function MonthEntry(invs: seq<Invoice>, cal: int -> MonthKey, k: MonthKey): MonthlyRevenue
    requires 0 <= k.month < 12
  {
    var paid := PaidIn(invs, cal, k);
    MonthlyRevenue(MonthNames[k.month] + " " + IntToString(k.year), Sum(paid, Total), |paid|)
  }

  /** Only paid invoices contribute: dropping every unpaid invoice changes no entry. */
  lemma MonthEntryOnlyPaid(invs: seq<Invoice>, cal: int -> MonthKey, k: MonthKey)
    requires 0 <= k.month < 12
    ensures MonthEntry(invs, cal, k) == MonthEntry(Filter(invs, WithStatus(Paid)), cal, k)
  {
    FilterSubsumed(invs, PaidInMonth(cal, k), WithStatus(Paid));
  }

  /** The last six months, oldest first, ending with the current month. */
  method GetMonthlyRevenueData(invs: seq<Invoice>, now: int, cal: int -> MonthKey) returns (months: seq<MonthlyRevenue>)
    ensures |months| == 6
    ensures forall k :: 0 <= k < 6 ==> months[k] == MonthEntry(invs, cal, MonthsBack(cal(now), 5 - k))
  {
    var current := cal(now);
    months := [];
    var i := 5;
    while i >= 0
      invariant -1 <= i <= 5
      invariant |months| == 5 - i
      invariant forall k :: 0 <= k < |months| ==> months[k] == MonthEntry(invs, cal, MonthsBack(current, 5 - k))
    {
      var date := MonthsBack(current, i);
      var monthlyInvoices := Filter(invs, PaidInMonth(cal, date));
      var entry := MonthlyRevenue(MonthNames[date.month] + " " + IntToString(date.year),
                                  Sum(monthlyInvoices, Total), |monthlyInvoices|);
      assert entry == MonthEntry(invs, cal, MonthsBack(current, 5 - |months|));
      months := months + [entry];
      i := i - 1;
    }
  }

  /** The six months are consecutive and the last is the current month. */
  lemma MonthlyWindow(now: int, cal: int -> MonthKey)
    requires 0 <= cal(now).month < 12
    ensures MonthsBack(cal(now), 0) == cal(now)
    ensures forall i :: 0 < i <= 5 ==>
      MonthIndex(MonthsBack(cal(now), i)) + 1 == MonthIndex(MonthsBack(cal(now), i - 1))
  {
    var c := cal(now);
    var t := c.year * 12 + c.month;
    assert t / 12 == c.year && t % 12 == c.month;
  }

  // ---------------------------------------------------------------- status distribution

  datatype StatusSlice = StatusSlice(status: Status, display: string, count: nat, value: nat, color: string)

  /** `status.charAt(0).toUpperCase() + status.slice(1)`. */
  function StatusLabel(s: Status): (l: string)
    ensures |l| == |StatusName(s)| && l[1..] == StatusName(s)[1..] && l[0] == UpperChar(StatusName(s)[0])
  {
    match s
    case Paid => "Paid"
    case Pending => "Pending"
    case Draft => "Draft"
    case Overdue => "Overdue"
  }

  function StatusColor(s: Status): string {
    match s
    case Paid => "#22c55e"
    case Pending => "#a855f7"
    case Draft => "#f97316"
    case Overdue => "#ef4444"
  }

  function CountStatus(invs: seq<Invoice>, s: Status): nat {
    |Members(invs, StatusOf, s)|
  }

  function One(inv: Invoice): real { 1.0 }

  function ToSlice(g: Group<Status>): StatusSlice {
    StatusSlice(g.key, StatusLabel(g.key), g.count, g.count, StatusColor(g.key))
  }

  /** Counts invoices per status (`reduce` into a record), then one slice per entry. */
  function StatusDistribution(invs: seq<Invoice>): seq<StatusSlice> {
    Map(GroupBy(invs, StatusOf, One), ToSlice)
  }

  /** The reduce loop updating the per-status accumulator in place, then the mapping to slices. */
  method GetStatusDistribution(invs: seq<Invoice>) returns (dist: seq<StatusSlice>)
    ensures dist == StatusDistribution(invs)
  {
    var acc: seq<Group<Status>> := [];
    var i := 0;
    while i < |invs|
      invariant 0 <= i <= |invs|
      invariant acc == GroupBy(invs[..i], StatusOf, One)
    {
      assert invs[..i + 1][..i] == invs[..i];
      acc := AddTo(acc, invs[i], StatusOf, One);
      i := i + 1;
    }
    assert invs[..i] == invs;
    dist := Map(acc, ToSlice);
  }

  function SumSlices(d: seq<StatusSlice>): int {
    if d == [] then 0 else SumSlices(d[..|d| - 1]) + d[|d| - 1].count
  }

  lemma {:induction false} SumSlicesOfGroups(g: seq<Group<Status>>)
    ensures SumSlices(Map(g, ToSlice)) == SumCounts(g)
    decreases |g|
  {
    if g != [] {
      SumSlicesOfGroups(g[..|g| - 1]);
      assert Map(g, ToSlice)[..|g| - 1] == Map(g[..|g| - 1], ToSlice);
    }
  }

  /**
   * One slice per status present, in order of first occurrence; each count is the number
   * of invoices with that status, the value equals the count, the label is the capitalised
   * status and the counts sum to the number of invoices.
   */
  lemma StatusDistributionCorrect(invs: seq<Invoice>)
    ensures var dist := StatusDistribution(invs);
      && (forall i, j :: 0 <= i < j < |dist| ==> dist[i].status != dist[j].status)
      && (forall i :: 0 <= i < |dist| ==>
            && dist[i].count == CountStatus(invs, dist[i].status) && dist[i].count > 0
            && dist[i].value == dist[i].count
            && dist[i].display == StatusLabel(dist[i].status) && dist[i].color == StatusColor(dist[i].status))
      && (forall k :: 0 <= k < |invs| ==> exists i :: 0 <= i < |dist| && dist[i].status == invs[k].status)
      && SumSlices(dist) == |invs|
  {
    var g := GroupBy(invs, StatusOf, One);
    var dist := StatusDistribution(invs);
    GroupByDistinct(invs, StatusOf, One);
    GroupByTotals(invs, StatusOf, One);
    GroupByCovers(invs, StatusOf, One);
    GroupByCountsSum(invs, StatusOf, One);
    SumSlicesOfGroups(g);
    forall i | 0 <= i < |dist| ensures dist[i].count == CountStatus(invs, dist[i].status) && dist[i].count > 0 {
      assert EntryRight(invs, StatusOf, One, g[i]);
    }
    forall k | 0 <= k < |invs| ensures exists i :: 0 <= i < |dist| && dist[i].status == invs[k].status {
      assert HasEntry(g, StatusOf(invs[k]));
      var i :| 0 <= i < |g| && g[i].key == StatusOf(invs[k]);
      assert dist[i].status == invs[k].status;
    }
  }

  // ---------------------------------------------------------------- top clients

  datatype ClientStats = ClientStats(name: string, revenue: real, invoices: nat)

  function ClientName(inv: Invoice): string { inv.client.name }

  function InvoicesOf(invs: seq<Invoice>, name: string): seq<Invoice> {
    Members(invs, ClientName, name)
  }

  function ToStats(g: Group<string>): ClientStats { ClientStats(g.key, g.sum, g.count) }

  /** Per-client revenue and invoice count, in order of each client name's first occurrence. */
  function GroupByClient(invs: seq<Invoice>): seq<ClientStats> {
    Map(GroupBy(invs, ClientName, Total), ToStats)
  }

  /**
   * One entry per client name of the input and no name twice; each entry holds the sum of the
   * totals and the number of that client's invoices.
   */
  lemma GroupByClientCorrect(invs: seq<Invoice>)
    ensures var g := GroupByClient(invs);
      && (forall i, j :: 0 <= i < j < |g| ==> g[i].name != g[j].name)
      && (forall k :: 0 <= k < |invs| ==> exists i :: 0 <= i < |g| && g[i].name == invs[k].client.name)
      && (forall i :: 0 <= i < |g| ==>
            && g[i].revenue == Sum(InvoicesOf(invs, g[i].name), Total)
            && g[i].invoices == |InvoicesOf(invs, g[i].name)| && g[i].invoices > 0)
  {
    var gs := GroupBy(invs, ClientName, Total);
    var g := GroupByClient(invs);
    GroupByDistinct(invs, ClientName, Total);
    GroupByTotals(invs, ClientName, Total);
    GroupByCovers(invs, ClientName, Total);
    forall i | 0 <= i < |g|
      ensures g[i].revenue == Sum(InvoicesOf(invs, g[i].name), Total)
              && g[i].invoices == |InvoicesOf(invs, g[i].name)| && g[i].invoices > 0
    {
      assert EntryRight(invs, ClientName, Total, gs[i]);
    }
    forall k | 0 <= k < |invs| ensures exists i :: 0 <= i < |g| && g[i].name == invs[k].client.name {
      assert HasEntry(gs, ClientName(invs[k]));
      var i :| 0 <= i < |gs| && gs[i].key == ClientName(invs[k]);
      assert g[i].name == invs[k].client.name;
    }
  }

  function Revenue(c: ClientStats): real { c.revenue }

  /** The five clients with the highest revenue, highest first (ties keep first-seen order). */
  function GetTopClients(invs: seq<Invoice>): (top: seq<ClientStats>)
    ensures |top| == if |GroupByClient(invs)| < 5 then |GroupByClient(invs)| else 5
    ensures forall i, j :: 0 <= i < j < |top| ==> top[i].revenue >= top[j].revenue
    ensures multiset(top) <= multiset(GroupByClient(invs))
  {
    var sorted := Sort(GroupByClient(invs), ByKeyDesc(Revenue));
    TakeSortedIsTop(GroupByClient(invs), Revenue, 5);
    SortByKeyDesc(GroupByClient(invs), Revenue);
    Take(sorted, 5)
  }

  /** A client left out of the top five earned no more than any client in it. */
  lemma TopClientsAreTop(invs: seq<Invoice>, c: ClientStats)
    requires c in GroupByClient(invs) && c !in GetTopClients(invs)
    ensures forall t :: t in GetTopClients(invs) ==> t.revenue >= c.revenue
  {
    var g := GroupByClient(invs);
    var sorted := Sort(g, ByKeyDesc(Revenue));
    var top := GetTopClients(invs);
    TakeSortedIsTop(g, Revenue, 5);
    assert c in multiset(sorted);
    var j :| 0 <= j < |sorted| && sorted[j] == c;
    assert top == sorted[..|top|];
    forall t | t in top ensures t.revenue >= c.revenue {
      var i :| 0 <= i < |top| && top[i] == t;
      assert sorted[i] == t;
    }
  }

  /**
   * The five are the head of the client list sorted by revenue, and that sort keeps clients of
   * equal revenue in first-seen order.
   */
  lemma TopClientsTiesInOrder(invs: seq<Invoice>)
    ensures var sorted := Sort(GroupByClient(invs), ByKeyDesc(Revenue));
      && GetTopClients(invs) == sorted[..|GetTopClients(invs)|]
      && forall v :: Filter(sorted, WithKey(Revenue, v)) == Filter(GroupByClient(invs), WithKey(Revenue, v))
  {
    SortKeepsTies(GroupByClient(invs), Revenue);
  }

  // ---------------------------------------------------------------- recent activity

  datatype ActivityKind = InvoiceCreated | PaymentReceived | InvoiceSent | InvoiceOverdue

  datatype Activity = Activity(
    id: string,
    kind: ActivityKind,
    description: string,
    amount: real,
    date: int,
    invoiceNumber: string)

  function PaymentActivity(inv: Invoice): Activity
    requires inv.paymentDate.Some?
  {
    Activity("payment-" + inv.id, PaymentReceived, "Payment received from " + inv.client.name,
             inv.total, inv.paymentDate.value, inv.number)
  }

  function CreatedActivity(inv: Invoice): Activity {
    Activity("created-" + inv.id, InvoiceCreated, "Invoice created for " + inv.client.name,
             inv.total, inv.issuedDate, inv.number)
  }

  function OverdueActivity(inv: Invoice): Activity {
    Activity("overdue-" + inv.id, InvoiceOverdue, "Invoice " + inv.number + " is now overdue",
             inv.total, inv.dueDate, inv.number)
  }

  /** A payment entry when paid with a payment date, the created entry, an overdue entry if overdue. */
  function EntriesFor(inv: Invoice): seq<Activity> {
    (if inv.status == Paid && inv.paymentDate.Some? then [PaymentActivity(inv)] else [])
    + [CreatedActivity(inv)]
    + (if inv.status == Overdue then [OverdueActivity(inv)] else [])
  }

  /** Every invoice contributes its created entry; payment and overdue entries exactly when due. */
  lemma EntriesForShape(inv: Invoice)
    ensures CreatedActivity(inv) in EntriesFor(inv)
    ensures (inv.status == Paid && inv.paymentDate.Some?) <==>
            (exists i :: 0 <= i < |EntriesFor(inv)| && EntriesFor(inv)[i].kind == PaymentReceived)
    ensures inv.status == Overdue <==>
            (exists i :: 0 <= i < |EntriesFor(inv)| && EntriesFor(inv)[i].kind == InvoiceOverdue)
    ensures forall i :: 0 <= i < |EntriesFor(inv)| ==>
            EntriesFor(inv)[i].invoiceNumber == inv.number && EntriesFor(inv)[i].amount == inv.total
  {
    var e := EntriesFor(inv);
    if inv.status == Paid && inv.paymentDate.Some? {
      assert e[0].kind == PaymentReceived;
    }
    if inv.status == Overdue {
      assert e[|e| - 1].kind == InvoiceOverdue;
    }
  }

  /** The entries pushed for the invoices, invoice by invoice. */
  function ActivitiesOf(invs: seq<Invoice>): seq<Activity> { FlatMap(invs, EntriesFor) }

  function IssuedKey(inv: Invoice): real { inv.issuedDate as real }

  function ActivityDate(a: Activity): real { a.date as real }

  /** The ten most recently issued invoices, newest first. */
  function RecentInvoices(invs: seq<Invoice>): seq<Invoice> {
    Take(Sort(invs, ByKeyDesc(IssuedKey)), 10)
  }

  /** The entries of the recent invoices, newest first, at most eight. */
  function RecentActivity(invs: seq<Invoice>): seq<Activity> {
    Take(Sort(ActivitiesOf(RecentInvoices(invs)), ByKeyDesc(ActivityDate)), 8)
  }

  /** Eight entries, or all of them when there are fewer, newest first. */
  lemma RecentActivityOrdered(invs: seq<Invoice>)
    ensures |RecentActivity(invs)| == if |ActivitiesOf(RecentInvoices(invs))| < 8
                                      then |ActivitiesOf(RecentInvoices(invs))| else 8
    ensures forall i, j :: 0 <= i < j < |RecentActivity(invs)| ==> RecentActivity(invs)[i].date >= RecentActivity(invs)[j].date
  {
    var acc := ActivitiesOf(RecentInvoices(invs));
    var sorted := Sort(acc, ByKeyDesc(ActivityDate));
    var r := RecentActivity(invs);
    SortByKeyDesc(acc, ActivityDate);
    forall i, j | 0 <= i < j < |r| ensures r[i].date >= r[j].date {
      assert r[i] == sorted[i] && r[j] == sorted[j];
      assert ActivityDate(sorted[i]) >= ActivityDate(sorted[j]);
    }
  }

  /** Each entry shown is an entry of one of the ten recent invoices. */
  lemma RecentActivityFrom(invs: seq<Invoice>)
    ensures forall a :: a in RecentActivity(invs) ==>
      exists k :: 0 <= k < |RecentInvoices(invs)| && a in EntriesFor(RecentInvoices(invs)[k])
  {
    var acc := ActivitiesOf(RecentInvoices(invs));
    var sorted := Sort(acc, ByKeyDesc(ActivityDate));
    forall a | a in RecentActivity(invs)
      ensures exists k :: 0 <= k < |RecentInvoices(invs)| && a in EntriesFor(RecentInvoices(invs)[k])
    {
      assert a in sorted;
      assert a in multiset(acc);
      FlatMapMembership(RecentInvoices(invs), EntriesFor, a);
    }
  }

  /** Pushes each recent invoice's entries in turn, then sorts newest first and keeps eight. */
  method GetRecentActivity(invs: seq<Invoice>) returns (activities: seq<Activity>)
    ensures activities == RecentActivity(invs)
  {
    var recent := RecentInvoices(invs);
    var acc: seq<Activity> := [];
    var i := 0;
    while i < |recent|
      invariant 0 <= i <= |recent|
      invariant acc == ActivitiesOf(recent[..i])
    {
      var inv := recent[i];
      ghost var before := acc;
      FlatMapStep(recent, EntriesFor, i);
      if inv.status == Paid && inv.paymentDate.Some? {
        acc := acc + [PaymentActivity(inv)];
      }
      acc := acc + [CreatedActivity(inv)];
      if inv.status == Overdue {
        acc := acc + [OverdueActivity(inv)];
      }
      assert acc == before + EntriesFor(inv);
      i := i + 1;
    }
    assert recent[..i] == recent;
    var sorted := Sort(acc, ByKeyDesc(ActivityDate));
    activities := Take(sorted, 8);
  }

  /** No invoice outside the recent ten was issued after one inside it. */
  lemma RecentAreMostRecent(invs: seq<Invoice>)
    ensures |RecentInvoices(invs)| == if |invs| < 10 then |invs| else 10
    ensures var sorted := Sort(invs, ByKeyDesc(IssuedKey));
      && multiset(RecentInvoices(invs)) + multiset(sorted[|RecentInvoices(invs)|..]) == multiset(invs)
      && forall i, j :: 0 <= i < |RecentInvoices(invs)| <= j < |sorted| ==>
           sorted[i].issuedDate >= sorted[j].issuedDate
  {
    TakeSortedIsTop(invs, IssuedKey, 10);
  }

  /**
   * The entries shown and those cut off together are all the entries of the recent invoices,
   * and no entry cut off is newer than one shown.
   */
  lemma RecentActivityIsNewest(invs: seq<Invoice>)
    ensures var sorted := Sort(ActivitiesOf(RecentInvoices(invs)), ByKeyDesc(ActivityDate));
      && multiset(RecentActivity(invs)) + multiset(sorted[|RecentActivity(invs)|..])
         == multiset(ActivitiesOf(RecentInvoices(invs)))
      && forall i, j :: 0 <= i < |RecentActivity(invs)| <= j < |sorted| ==>
           RecentActivity(invs)[i].date >= sorted[j].date
  {
    var sorted := Sort(ActivitiesOf(RecentInvoices(invs)), ByKeyDesc(ActivityDate));
    TakeSortedIsTop(ActivitiesOf(RecentInvoices(invs)), ActivityDate, 8);
    assert RecentActivity(invs) == sorted[..|RecentActivity(invs)|];
  }
}
