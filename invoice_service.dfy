/**
 * The invoice service (src/services/invoiceService.ts) over four tables held as sequences in
 * creation order: invoices, clients, invoice items and attachments. The reads join an invoice
 * with its client and gather its items and attachments; the writes are the status update, the
 * full update that replaces the items inside a transaction, and the delete. A query that is scoped
 * to a user adds `AND user_id = …` only when that user id is a non-empty string.
 */
module InvoiceService {
  import opened Wrappers
  import opened Strings
  import opened Seqs
  import opened Domain
  import opened Schema

  // ---------------------------------------------------------------- user scoping

  /** `if (userId)`: queries are scoped only to a non-empty user id. */
  predicate Scoped(user: Option<string>) { user.Some? && user.value != "" }

  /** A row owned by `owner` passes the `user_id = $n` filter, or there is no filter. */
  predicate Visible(user: Option<string>, owner: string) { !Scoped(user) || owner == user.value }

  // ---------------------------------------------------------------- row mapping

  function ItemOf(row: DbItem): InvoiceItem {
    InvoiceItem(row.id, row.description, row.quantity, row.unitPrice, row.amount)
  }

  function AttachmentOf(row: DbAttachment): Attachment {
    Attachment(row.name, row.fileSize, row.fileType)
  }

  /**
   * The payment terms the code builds: it tests `payment_terms_days !== undefined`, which a row
   * read from the database always passes (a NULL column arrives as `null`), so only the
   * description decides, and a NULL days value is carried into the terms.
   */
  function TermsAsWritten(row: DbInvoice): (r: Option<(Option<int>, string)>)
    ensures r.Some? <==> row.paymentTermsDescription.Some? && row.paymentTermsDescription.value != ""
    ensures r.Some? ==> r.value.0 == row.paymentTermsDays
  {
    if row.paymentTermsDescription.Some? && row.paymentTermsDescription.value != "" then
      Some((row.paymentTermsDays, row.paymentTermsDescription.value))
    else None
  }

  /** The payment terms as intended: both a days value and a non-empty description. */
  function TermsOf(row: DbInvoice): (r: Option<PaymentTerms>)
    ensures r.Some? <==> row.paymentTermsDays.Some? && row.paymentTermsDescription.Some?
                         && row.paymentTermsDescription.value != ""
    ensures r.Some? ==> r.value == PaymentTerms(row.paymentTermsDays.value, row.paymentTermsDescription.value)
  {
    if row.paymentTermsDays.Some? && row.paymentTermsDescription.Some? && row.paymentTermsDescription.value != "" then
      Some(PaymentTerms(row.paymentTermsDays.value, row.paymentTermsDescription.value))
    else None
  }

  /** A row with a description and no days value gets terms without days as written, none as intended. */
  lemma TermsWithoutDays(row: DbInvoice)
    requires row.paymentTermsDays.None? && row.paymentTermsDescription == Some("Net 30")
    ensures TermsAsWritten(row) == Some((None, "Net 30"))
    ensures TermsOf(row).None?
  {
  }

  /** The two agree whenever the days column is set. */
  lemma TermsAgreeWithDays(row: DbInvoice)
    requires row.paymentTermsDays.Some?
    ensures TermsAsWritten(row).Some? <==> TermsOf(row).Some?
    ensures TermsOf(row).Some? ==>
      TermsAsWritten(row).value == (Some(TermsOf(row).value.days), TermsOf(row).value.description)
  {
  }

  /** Course information exists for a non-empty course name; missing parts become "". */
  function CourseOf(row: DbInvoice): (r: Option<CourseInfo>)
    ensures r.Some? <==> row.courseName.Some? && row.courseName.value != ""
    ensures r.Some? ==> r.value.courseName == row.courseName.value
    ensures r.Some? ==> r.value.courseId == OrString(row.courseId, "")
                        && r.value.cohort == OrString(row.cohort, "")
                        && r.value.trainingDates == OrString(row.trainingDates, "")
  {
    if row.courseName.Some? && row.courseName.value != "" then
      Some(CourseInfo(row.courseName.value, OrString(row.courseId, ""), OrString(row.cohort, ""),
                      OrString(row.trainingDates, "")))
    else None
  }

  /** `dbToInvoice`: an invoice row, the joined client columns, its item and attachment rows. */
  function DbToInvoice(row: DbInvoice, client: DbClient, items: seq<DbItem>, attachments: seq<DbAttachment>): (inv: Invoice)
    ensures inv.id == row.id && inv.number == row.number && inv.status == row.status
    ensures inv.amount == row.total && inv.total == row.total
    ensures inv.subtotal == row.subtotal && inv.tax == row.tax
    ensures inv.client.name == client.name && inv.client.taxId == client.taxId
    ensures inv.client.address == client.address && inv.client.city == client.city
            && inv.client.state == client.state && inv.client.zipCode == client.zipCode
    ensures inv.dueDate == row.dueDate && inv.issuedDate == row.issuedDate
            && inv.notes == row.notes && inv.transactionId == row.transactionId
    ensures |inv.items| == |items|
    ensures forall i :: 0 <= i < |items| ==>
      inv.items[i].id == items[i].id && inv.items[i].description == items[i].description
      && inv.items[i].quantity == items[i].quantity && inv.items[i].unitPrice == items[i].unitPrice
      && inv.items[i].amount == items[i].amount
    ensures inv.attachments.Some? && |inv.attachments.value| == |attachments|
    ensures forall i :: 0 <= i < |attachments| ==>
      inv.attachments.value[i].name == attachments[i].name
      && inv.attachments.value[i].size == attachments[i].fileSize
      && inv.attachments.value[i].fileType == attachments[i].fileType
    ensures inv.paymentTerms == TermsOf(row) && inv.courseInfo == CourseOf(row)
    ensures inv.paymentDate == row.paymentDate && inv.paymentMethod == row.paymentMethod
  {
    Invoice(
      row.id, row.number, row.status, row.total, row.dueDate, row.issuedDate, TermsOf(row),
      InvoiceClient(client.name, client.address, client.city, client.state, client.zipCode, client.taxId),
      Map(items, ItemOf), row.subtotal, row.tax, row.total, row.notes, row.paymentMethod,
      row.transactionId, row.paymentDate, CourseOf(row), Some(Map(attachments, AttachmentOf)))
  }

  // ---------------------------------------------------------------- the join

  datatype Tables = Tables(
    invoices: seq<DbInvoice>,
    clients: seq<DbClient>,
    items: seq<DbItem>,
    attachments: seq<DbAttachment>)

  /** An invoice row together with the client columns the join adds. */
  datatype JoinedRow = JoinedRow(inv: DbInvoice, client: DbClient)

  function InvOf(j: JoinedRow): DbInvoice { j.inv }

  /** `JOIN clients c ON i.client_id = c.id`, with `c.user_id` checked when scoped. */
  function JoinClient(clients: seq<DbClient>, clientId: string, user: Option<string>): (r: Option<DbClient>)
    ensures r.Some? ==> r.value in clients && r.value.id == clientId && Visible(user, r.value.userId)
    ensures r.None? <==> forall i :: 0 <= i < |clients| ==>
                           !(clients[i].id == clientId && Visible(user, clients[i].userId))
  {
    if clients == [] then None
    else if clients[0].id == clientId && Visible(user, clients[0].userId) then Some(clients[0])
    else JoinClient(clients[1..], clientId, user)
  }

  /** The joined row for an invoice, when the invoice is visible and its client joins. */
  function JoinRow(clients: seq<DbClient>, user: Option<string>, inv: DbInvoice): (r: Option<JoinedRow>)
    ensures r.Some? <==> Visible(user, inv.userId) && JoinClient(clients, inv.clientId, user).Some?
    ensures r.Some? ==> r.value.inv == inv && r.value.client == JoinClient(clients, inv.clientId, user).value
  {
    if !Visible(user, inv.userId) then None
    else match JoinClient(clients, inv.clientId, user)
      case None => None
      case Some(c) => Some(JoinedRow(inv, c))
  }

  function Joins(clients: seq<DbClient>, user: Option<string>): DbInvoice -> bool {
    (inv: DbInvoice) => JoinRow(clients, user, inv).Some?
  }

  /** The rows of the `getAllInvoices` join, `ORDER BY i.created_at DESC`: newest first. */
  function Joined(invoices: seq<DbInvoice>, clients: seq<DbClient>, user: Option<string>): seq<JoinedRow>
    decreases |invoices|
  {
    if invoices == [] then []
    else
      var rest := Joined(invoices[..|invoices| - 1], clients, user);
      match JoinRow(clients, user, invoices[|invoices| - 1])
      case Some(j) => [j] + rest
      case None => rest
  }

  /** The joined invoices are the joining ones, newest first, each with its client. */
  lemma {:induction false} JoinedIsReverseFilter(invoices: seq<DbInvoice>, clients: seq<DbClient>, user: Option<string>)
    ensures Map(Joined(invoices, clients, user), InvOf) == Filter(Reverse(invoices), Joins(clients, user))
    ensures forall k :: 0 <= k < |Joined(invoices, clients, user)| ==>
      JoinRow(clients, user, Joined(invoices, clients, user)[k].inv) == Some(Joined(invoices, clients, user)[k])
    decreases |invoices|
  {
    if invoices != [] {
      var init := invoices[..|invoices| - 1];
      var last := invoices[|invoices| - 1];
      JoinedIsReverseFilter(init, clients, user);
      assert Reverse(invoices) == [last] + Reverse(init);
      FilterAppend([last], Reverse(init), Joins(clients, user));
      assert Filter([last], Joins(clients, user)) == if Joins(clients, user)(last) then [last] else [];
      var rest := Joined(init, clients, user);
      match JoinRow(clients, user, last)
      case Some(j) =>
        assert Joined(invoices, clients, user) == [j] + rest;
        assert Map([j] + rest, InvOf) == [last] + Map(rest, InvOf);
      case None =>
    }
  }

  /**
   * `getAllInvoices`' join: only visible invoices with a visible client, each of them, in reverse
   * creation order.
   */
  lemma JoinedRows(invoices: seq<DbInvoice>, clients: seq<DbClient>, user: Option<string>)
    ensures forall k :: 0 <= k < |Joined(invoices, clients, user)| ==>
      var j := Joined(invoices, clients, user)[k];
      && j.inv in invoices && Visible(user, j.inv.userId)
      && j.client in clients && j.client.id == j.inv.clientId && Visible(user, j.client.userId)
    ensures forall i :: 0 <= i < |invoices| && JoinRow(clients, user, invoices[i]).Some? ==>
      JoinRow(clients, user, invoices[i]).value in Joined(invoices, clients, user)
    ensures IsSubsequence(Map(Joined(invoices, clients, user), InvOf), Reverse(invoices))
  {
    var js := Joined(invoices, clients, user);
    var rev := Reverse(invoices);
    JoinedIsReverseFilter(invoices, clients, user);
    FilterMembers(rev, Joins(clients, user));
    FilterIsSubsequence(rev, Joins(clients, user));
    forall k | 0 <= k < |js| ensures js[k].inv in invoices {
      assert Map(js, InvOf)[k] == js[k].inv;
      var m :| 0 <= m < |rev| && rev[m] == js[k].inv;
      assert invoices[|invoices| - 1 - m] == js[k].inv;
    }
    forall i | 0 <= i < |invoices| && JoinRow(clients, user, invoices[i]).Some?
      ensures JoinRow(clients, user, invoices[i]).value in js
    {
      assert rev[|invoices| - 1 - i] == invoices[i];
      assert invoices[i] in Map(js, InvOf);
      var k :| 0 <= k < |js| && Map(js, InvOf)[k] == invoices[i];
      assert js[k].inv == invoices[i];
    }
  }

  // ---------------------------------------------------------------- grouping

  /** `acc[k] || []`. */
  function Lookup<T>(m: map<string, seq<T>>, k: string): seq<T> {
    if k in m then m[k] else []
  }

  function HasKey<T>(key: T -> string, k: string): T -> bool { (x: T) => key(x) == k }

  /**
   * The `reduce` that pushes each row onto the array of its key, creating the array on the
   * key's first row: each key ends up with exactly its rows, in their original order.
   */
  method GroupByKey<T>(s: seq<T>, key: T -> string) returns (m: map<string, seq<T>>)
    ensures forall k :: Lookup(m, k) == Filter(s, HasKey(key, k))
    ensures forall k :: k in m ==> m[k] != []
  {
    m := map[];
    for i := 0 to |s|
      invariant forall k :: Lookup(m, k) == Filter(s[..i], HasKey(key, k))
      invariant forall k :: k in m ==> m[k] != []
    {
      var k := key(s[i]);
      if k !in m {
        m := m[k := []];
      }
      m := m[k := m[k] + [s[i]]];
      assert s[..i + 1][..i] == s[..i];
      forall k' ensures Lookup(m, k') == Filter(s[..i + 1], HasKey(key, k')) {
        assert Filter(s[..i + 1], HasKey(key, k'))
          == Filter(s[..i], HasKey(key, k')) + (if key(s[i]) == k' then [s[i]] else []);
      }
    }
    assert s[..|s|] == s;
  }

  function ItemInvoice(row: DbItem): string { row.invoiceId }

  function AttachmentInvoice(row: DbAttachment): string { row.invoiceId }

  /** `invoice_id = $1 AND user_id = $2` on `invoice_items`. */
  function ItemsFor(id: string, user: Option<string>): DbItem -> bool {
    (row: DbItem) => row.invoiceId == id && Visible(user, row.userId)
  }

  function AttachmentsFor(id: string, user: Option<string>): DbAttachment -> bool {
    (row: DbAttachment) => row.invoiceId == id && Visible(user, row.userId)
  }

  /** `invoice_id = ANY($1) AND user_id = $2`. */
  function ItemInBatch(ids: seq<string>, user: Option<string>): DbItem -> bool {
    (row: DbItem) => row.invoiceId in ids && Visible(user, row.userId)
  }

  function AttachmentInBatch(ids: seq<string>, user: Option<string>): DbAttachment -> bool {
    (row: DbAttachment) => row.invoiceId in ids && Visible(user, row.userId)
  }

  /** The invoice a joined row becomes, with its own visible items and attachments. */
  function Assemble(t: Tables, user: Option<string>): JoinedRow -> Invoice {
    (j: JoinedRow) => DbToInvoice(j.inv, j.client, Filter(t.items, ItemsFor(j.inv.id, user)),
                                  Filter(t.attachments, AttachmentsFor(j.inv.id, user)))
  }

  /** What `getAllInvoices` returns. */
  function AllInvoices(t: Tables, user: Option<string>): seq<Invoice> {
    Map(Joined(t.invoices, t.clients, user), Assemble(t, user))
  }

  /**
   * One invoice per joined row, newest first, each with exactly the visible item rows carrying
   * its id in their original order; nothing when no invoice joins.
   */
  lemma AllInvoicesItems(t: Tables, user: Option<string>)
    ensures |AllInvoices(t, user)| == |Joined(t.invoices, t.clients, user)|
    ensures Joined(t.invoices, t.clients, user) == [] ==> AllInvoices(t, user) == []
    ensures forall k :: 0 <= k < |AllInvoices(t, user)| ==>
      var j := Joined(t.invoices, t.clients, user)[k];
      && AllInvoices(t, user)[k].id == j.inv.id
      && AllInvoices(t, user)[k].items == Map(Filter(t.items, ItemsFor(j.inv.id, user)), ItemOf)
      && AllInvoices(t, user)[k].attachments == Some(Map(Filter(t.attachments, AttachmentsFor(j.inv.id, user)), AttachmentOf))
  {
  }

  /** An invoice without item rows of its own gets the empty item list. */
  lemma AllInvoicesNoItems(t: Tables, user: Option<string>, k: nat)
    requires k < |Joined(t.invoices, t.clients, user)|
    requires forall i :: 0 <= i < |t.items| ==> t.items[i].invoiceId != Joined(t.invoices, t.clients, user)[k].inv.id
    ensures AllInvoices(t, user)[k].items == []
  {
    var id := Joined(t.invoices, t.clients, user)[k].inv.id;
    FilterNone(t.items, ItemsFor(id, user));
  }

  /** The grouped rows of an id of the batch are the rows the single-invoice query would read. */
  lemma BatchGroup<T>(s: seq<T>, key: T -> string, inBatch: T -> bool, single: T -> bool, id: string)
    requires forall x :: single(x) == (inBatch(x) && key(x) == id)
    ensures Filter(Filter(s, inBatch), HasKey(key, id)) == Filter(s, single)
  {
    FilterConj(s, HasKey(key, id), inBatch, single);
  }

  // ---------------------------------------------------------------- single reads

  /** `WHERE i.id = $1` on the join: the first such row. */
  function FindJoined(invoices: seq<DbInvoice>, clients: seq<DbClient>, id: string, user: Option<string>): (r: Option<JoinedRow>)
    ensures r.Some? ==> r.value.inv in invoices && r.value.inv.id == id && JoinRow(clients, user, r.value.inv) == r
    ensures r.None? <==> forall i :: 0 <= i < |invoices| && invoices[i].id == id ==> JoinRow(clients, user, invoices[i]).None?
  {
    if invoices == [] then None
    else if invoices[0].id == id && JoinRow(clients, user, invoices[0]).Some? then JoinRow(clients, user, invoices[0])
    else FindJoined(invoices[1..], clients, id, user)
  }

  /** `getInvoiceById`. */
  function GetInvoiceById(t: Tables, id: string, user: Option<string>): Option<Invoice> {
    match FindJoined(t.invoices, t.clients, id, user)
    case None => None
    case Some(j) => Some(DbToInvoice(j.inv, j.client, Filter(t.items, ItemsFor(id, user)),
                                     Filter(t.attachments, AttachmentsFor(id, user))))
  }

  /**
   * `null` exactly when no visible invoice with the id joins a visible client; otherwise the
   * invoice has that id and exactly its visible item rows, in order.
   */
  lemma GetInvoiceByIdSpec(t: Tables, id: string, user: Option<string>)
    ensures GetInvoiceById(t, id, user).None? <==>
      forall i :: 0 <= i < |t.invoices| && t.invoices[i].id == id ==> JoinRow(t.clients, user, t.invoices[i]).None?
    ensures GetInvoiceById(t, id, user).Some? ==>
      && GetInvoiceById(t, id, user).value.id == id
      && GetInvoiceById(t, id, user).value.items == Map(Filter(t.items, ItemsFor(id, user)), ItemOf)
    ensures forall k :: 0 <= k < |GetInvoiceByIdItems(t, id, user)| ==>
      GetInvoiceByIdItems(t, id, user)[k].invoiceId == id && Visible(user, GetInvoiceByIdItems(t, id, user)[k].userId)
  {
    FilterMembers(t.items, ItemsFor(id, user));
  }

  function GetInvoiceByIdItems(t: Tables, id: string, user: Option<string>): seq<DbItem> {
    Filter(t.items, ItemsFor(id, user))
  }

  // ---------------------------------------------------------------- status update

  datatype PaymentData = PaymentData(paymentMethod: Option<string>, transactionId: Option<string>, paymentDate: Option<int>)

  /** `WHERE id = $5 [AND user_id = $6]`. */
  function InvoiceMatches(id: string, user: Option<string>): DbInvoice -> bool {
    (row: DbInvoice) => row.id == id && Visible(user, row.userId)
  }

  /** `SET status = $1, payment_method = $2, transaction_id = $3, payment_date = $4`. */
  function SetStatus(id: string, status: Status, pd: Option<PaymentData>, user: Option<string>): DbInvoice -> DbInvoice {
    (row: DbInvoice) =>
      if row.id == id && Visible(user, row.userId) then
        row.(status := status,
             paymentMethod := if pd.Some? then pd.value.paymentMethod else None,
             transactionId := if pd.Some? then pd.value.transactionId else None,
             paymentDate := if pd.Some? then pd.value.paymentDate else None)
      else row
  }

  /** `updateInvoiceStatus`: the tables after, and the invoice read back. */
  function StatusUpdate(t: Tables, id: string, status: Status, pd: Option<PaymentData>, user: Option<string>): (Tables, Option<Invoice>) {
    var after := t.(invoices := Map(t.invoices, SetStatus(id, status, pd, user)));
    (after, GetInvoiceById(after, id, user))
  }

  /**
   * Matching rows get the status and all three payment fields, an absent one cleared; every other
   * column and every other row stays; items, clients and attachments are untouched.
   */
  lemma UpdateStatusEffect(t: Tables, id: string, status: Status, pd: Option<PaymentData>, user: Option<string>)
    ensures var after := StatusUpdate(t, id, status, pd, user).0;
      && after.items == t.items && after.clients == t.clients && after.attachments == t.attachments
      && |after.invoices| == |t.invoices|
    ensures var after := StatusUpdate(t, id, status, pd, user).0;
      forall i :: 0 <= i < |t.invoices| && !InvoiceMatches(id, user)(t.invoices[i]) ==> after.invoices[i] == t.invoices[i]
    ensures var after := StatusUpdate(t, id, status, pd, user).0;
      forall i :: 0 <= i < |t.invoices| && InvoiceMatches(id, user)(t.invoices[i]) ==>
        && after.invoices[i].status == status
        && (pd.None? ==> after.invoices[i].paymentMethod.None? && after.invoices[i].transactionId.None?
                         && after.invoices[i].paymentDate.None?)
        && (pd.Some? ==> after.invoices[i].paymentMethod == pd.value.paymentMethod
                         && after.invoices[i].transactionId == pd.value.transactionId
                         && after.invoices[i].paymentDate == pd.value.paymentDate)
        && after.invoices[i].(status := t.invoices[i].status, paymentMethod := t.invoices[i].paymentMethod,
             transactionId := t.invoices[i].transactionId, paymentDate := t.invoices[i].paymentDate) == t.invoices[i]
  {
  }

  /** The invoice read back carries the new status and payment fields and the unchanged items. */
  lemma UpdateStatusReadBack(t: Tables, id: string, status: Status, pd: Option<PaymentData>, user: Option<string>)
    ensures var r := StatusUpdate(t, id, status, pd, user).1;
      r.Some? ==>
        && r.value.status == status
        && r.value.paymentMethod == (if pd.Some? then pd.value.paymentMethod else None)
        && r.value.paymentDate == (if pd.Some? then pd.value.paymentDate else None)
        && r.value.items == Map(Filter(t.items, ItemsFor(id, user)), ItemOf)
  {
    var after := StatusUpdate(t, id, status, pd, user).0;
    match FindJoined(after.invoices, after.clients, id, user)
    case None =>
    case Some(j) =>
      var m := Map(t.invoices, SetStatus(id, status, pd, user));
      var i :| 0 <= i < |m| && m[i] == j.inv;
      assert m[i] == SetStatus(id, status, pd, user)(t.invoices[i]);
      assert InvoiceMatches(id, user)(t.invoices[i]);
  }

  // ---------------------------------------------------------------- full update

  /** The values `updateInvoice` binds, one per column, from the submitted invoice. */
  datatype InvoiceData = InvoiceData(
    number: string,
    clientId: string,
    status: Status,
    subtotal: real,
    tax: real,
    total: real,
    issuedDate: int,
    dueDate: int,
    paymentTerms: Option<PaymentTerms>,
    notes: Option<string>,
    paymentMethod: Option<string>,
    transactionId: Option<string>,
    paymentDate: Option<int>,
    courseInfo: Option<CourseInfo>,
    items: seq<InvoiceItem>)

  const UserRequired: string := "User ID is required for creating invoice items"
  const RetrieveFailed: string := "Failed to retrieve updated invoice"

  /** The `UPDATE invoices SET … updated_at = NOW() WHERE id = $19 [AND user_id = $20]` on one row. */
  function Rewrite(id: string, d: InvoiceData, user: Option<string>, now: string): DbInvoice -> DbInvoice {
    (row: DbInvoice) =>
      if row.id == id && Visible(user, row.userId) then
        row.(number := d.number, clientId := d.clientId, status := d.status, subtotal := d.subtotal,
             tax := d.tax, total := d.total, issuedDate := d.issuedDate, dueDate := d.dueDate,
             paymentTermsDays := if d.paymentTerms.Some? then Some(d.paymentTerms.value.days) else None,
             paymentTermsDescription := if d.paymentTerms.Some? then Some(d.paymentTerms.value.description) else None,
             notes := d.notes, paymentMethod := d.paymentMethod, transactionId := d.transactionId,
             paymentDate := d.paymentDate,
             courseName := if d.courseInfo.Some? then Some(d.courseInfo.value.courseName) else None,
             courseId := if d.courseInfo.Some? then Some(d.courseInfo.value.courseId) else None,
             cohort := if d.courseInfo.Some? then Some(d.courseInfo.value.cohort) else None,
             trainingDates := if d.courseInfo.Some? then Some(d.courseInfo.value.trainingDates) else None,
             updatedAt := now)
      else row
  }

  /** The id the database gives the `n`-th inserted item row. */
  function ItemRowId(n: nat): string { "item-" + NatToString(n) }

  /** `INSERT INTO invoice_items (invoice_id, description, quantity, unit_price, amount, user_id)`. */
  function NewItemRow(n: nat, id: string, item: InvoiceItem, owner: string): DbItem {
    DbItem(ItemRowId(n), id, item.description, item.quantity, item.unitPrice, item.amount, owner)
  }

  /** The rows the insert loop adds for `items`, ids drawn from `serial` on. */
  function NewItemRows(id: string, items: seq<InvoiceItem>, owner: string, serial: nat): (r: seq<DbItem>)
    ensures |r| == |items|
    ensures forall k :: 0 <= k < |items| ==> r[k] == NewItemRow(serial + k, id, items[k], owner)
  {
    seq(|items|, k requires 0 <= k < |items| => NewItemRow(serial + k, id, items[k], owner))
  }

  function Owner(user: Option<string>): string { if Scoped(user) then user.value else "" }

  /**
   * `updateInvoice` as one transaction: the tables after, the next item serial, and the invoice
   * or the error. Any error rolls every write back.
   */
  function UpdateInvoice(t: Tables, id: string, d: InvoiceData, user: Option<string>, serial: nat, now: string): (Tables, nat, Result<Invoice, string>) {
    if d.items != [] && !Scoped(user) then (t, serial, Err(UserRequired))
    else
      var invoices := Map(t.invoices, Rewrite(id, d, user, now));
      var items := Filter(t.items, Not(ItemsFor(id, user))) + NewItemRows(id, d.items, Owner(user), serial);
      var after := t.(invoices := invoices, items := items);
      match FindJoined(invoices, t.clients, id, None)
      case None => (t, serial, Err(RetrieveFailed))
      case Some(j) => (after, serial + |d.items|, Ok(DbToInvoice(j.inv, j.client, Filter(items, ItemsFor(id, None)), [])))
  }

  /** A failed update leaves every table as it was. */
  lemma UpdateInvoiceRollsBack(t: Tables, id: string, d: InvoiceData, user: Option<string>, serial: nat, now: string)
    ensures UpdateInvoice(t, id, d, user, serial, now).2.Err? ==>
      UpdateInvoice(t, id, d, user, serial, now).0 == t && UpdateInvoice(t, id, d, user, serial, now).1 == serial
    ensures UpdateInvoice(t, id, d, user, serial, now).2.Err? ==>
      UpdateInvoice(t, id, d, user, serial, now).2.error in {UserRequired, RetrieveFailed}
  {
  }

  /** Items without a user id to own them are refused, and nothing is written. */
  lemma UpdateInvoiceNeedsUser(t: Tables, id: string, d: InvoiceData, user: Option<string>, serial: nat, now: string)
    requires d.items != [] && !Scoped(user)
    ensures UpdateInvoice(t, id, d, user, serial, now) == (t, serial, Err(UserRequired))
  {
  }

  /**
   * A successful update replaces the item set of the invoice wholesale: the caller's rows for it
   * are exactly the new ones, in the given order, and every other item row stays, in order.
   */
  lemma UpdateInvoiceReplacesItems(t: Tables, id: string, d: InvoiceData, user: Option<string>, serial: nat, now: string)
    requires UpdateInvoice(t, id, d, user, serial, now).2.Ok?
    ensures var after := UpdateInvoice(t, id, d, user, serial, now).0;
      Filter(after.items, ItemsFor(id, user)) == NewItemRows(id, d.items, Owner(user), serial)
    ensures var after := UpdateInvoice(t, id, d, user, serial, now).0;
      Filter(after.items, Not(ItemsFor(id, user))) == Filter(t.items, Not(ItemsFor(id, user)))
  {
    var kept := Filter(t.items, Not(ItemsFor(id, user)));
    var added := NewItemRows(id, d.items, Owner(user), serial);
    FilterMembers(t.items, Not(ItemsFor(id, user)));
    FilterAppend(kept, added, ItemsFor(id, user));
    FilterAppend(kept, added, Not(ItemsFor(id, user)));
    FilterNone(kept, ItemsFor(id, user));
    FilterAll(kept, Not(ItemsFor(id, user)));
    FilterAll(added, ItemsFor(id, user));
    FilterNone(added, Not(ItemsFor(id, user)));
  }

  /** The UPDATE rewrites exactly the matching invoice rows; the clients and attachments stay. */
  lemma UpdateInvoiceRows(t: Tables, id: string, d: InvoiceData, user: Option<string>, serial: nat, now: string)
    requires UpdateInvoice(t, id, d, user, serial, now).2.Ok?
    ensures var after := UpdateInvoice(t, id, d, user, serial, now).0;
      && after.clients == t.clients && after.attachments == t.attachments && |after.invoices| == |t.invoices|
      && (forall i :: 0 <= i < |t.invoices| && !InvoiceMatches(id, user)(t.invoices[i]) ==> after.invoices[i] == t.invoices[i])
      && (forall i :: 0 <= i < |t.invoices| && InvoiceMatches(id, user)(t.invoices[i]) ==>
            after.invoices[i].number == d.number && after.invoices[i].clientId == d.clientId
            && after.invoices[i].status == d.status && after.invoices[i].total == d.total
            && after.invoices[i].id == id && after.invoices[i].updatedAt == now)
  {
  }

  /**
   * Without a user id and without items, every item row of the invoice is deleted and the
   * invoice comes back with none; its attachments are not read back.
   */
  lemma UpdateInvoiceUnscopedClearsItems(t: Tables, id: string, d: InvoiceData, user: Option<string>, serial: nat, now: string)
    requires !Scoped(user) && d.items == [] && UpdateInvoice(t, id, d, user, serial, now).2.Ok?
    ensures var after := UpdateInvoice(t, id, d, user, serial, now).0;
      forall i :: 0 <= i < |after.items| ==> after.items[i].invoiceId != id
    ensures UpdateInvoice(t, id, d, user, serial, now).2.value.items == []
    ensures UpdateInvoice(t, id, d, user, serial, now).2.value.attachments == Some([])
  {
    var kept := Filter(t.items, Not(ItemsFor(id, user)));
    FilterMembers(t.items, Not(ItemsFor(id, user)));
    assert kept + NewItemRows(id, d.items, Owner(user), serial) == kept;
    FilterNone(kept, ItemsFor(id, None));
  }

  /**
   * The UPDATE and the DELETE are scoped to the caller but the item insert and the read back are
   * not: a caller who does not own the invoice leaves its row as it was, yet the new items are
   * added to it under the caller's id, and the owner's invoice is returned.
   */
  lemma UpdateForeignInvoiceAddsItems(t: Tables, id: string, d: InvoiceData, user: Option<string>, serial: nat, now: string)
    requires Scoped(user) && UpdateInvoice(t, id, d, user, serial, now).2.Ok?
    requires forall i :: 0 <= i < |t.invoices| && t.invoices[i].id == id ==> t.invoices[i].userId != user.value
    ensures UpdateInvoice(t, id, d, user, serial, now).0.invoices == t.invoices
    ensures UpdateInvoice(t, id, d, user, serial, now).0.items
      == Filter(t.items, Not(ItemsFor(id, user))) + NewItemRows(id, d.items, user.value, serial)
  {
    var m := Map(t.invoices, Rewrite(id, d, user, now));
    assert m == t.invoices;
  }

  // ---------------------------------------------------------------- delete

  /** `deleteInvoice`: attachments, then items, then the invoice, each scoped; true iff an invoice row went. */
  function DeleteInvoice(t: Tables, id: string, user: Option<string>): (Tables, bool) {
    var attachments := Filter(t.attachments, Not(AttachmentsFor(id, user)));
    var items := Filter(t.items, Not(ItemsFor(id, user)));
    var invoices := Filter(t.invoices, Not(InvoiceMatches(id, user)));
    (t.(attachments := attachments, items := items, invoices := invoices), Count(t.invoices, InvoiceMatches(id, user)) > 0)
  }

  /** Deleting the rows satisfying `p` keeps exactly the others, in order. */
  lemma DeleteWhere<T>(s: seq<T>, p: T -> bool)
    ensures forall r :: r in Filter(s, Not(p)) <==> r in s && !p(r)
    ensures IsSubsequence(Filter(s, Not(p)), s)
  {
    FilterMembers(s, Not(p));
    FilterIsSubsequence(s, Not(p));
  }

  /** The answer is true exactly when a visible invoice with the id existed. */
  lemma DeleteInvoiceAnswer(t: Tables, id: string, user: Option<string>)
    ensures DeleteInvoice(t, id, user).1 <==> exists i :: 0 <= i < |t.invoices| && InvoiceMatches(id, user)(t.invoices[i])
  {
    var p := InvoiceMatches(id, user);
    if forall i :: 0 <= i < |t.invoices| ==> !p(t.invoices[i]) {
      FilterNone(t.invoices, p);
    } else {
      var i :| 0 <= i < |t.invoices| && p(t.invoices[i]);
      FilterMembers(t.invoices, p);
      assert t.invoices[i] in Filter(t.invoices, p);
    }
  }

  /**
   * Afterwards no matching invoice, item or attachment is left, every other row stays in order,
   * and the clients are untouched.
   */
  lemma DeleteInvoiceEffect(t: Tables, id: string, user: Option<string>)
    ensures DeleteInvoice(t, id, user).0.clients == t.clients
    ensures var after := DeleteInvoice(t, id, user).0;
      && (forall r :: r in after.invoices <==> r in t.invoices && !InvoiceMatches(id, user)(r))
      && IsSubsequence(after.invoices, t.invoices)
    ensures var after := DeleteInvoice(t, id, user).0;
      && (forall r :: r in after.items <==> r in t.items && !ItemsFor(id, user)(r))
      && IsSubsequence(after.items, t.items)
    ensures var after := DeleteInvoice(t, id, user).0;
      && (forall r :: r in after.attachments <==> r in t.attachments && !AttachmentsFor(id, user)(r))
      && IsSubsequence(after.attachments, t.attachments)
  {
    DeleteWhere(t.invoices, InvoiceMatches(id, user));
    DeleteWhere(t.items, ItemsFor(id, user));
    DeleteWhere(t.attachments, AttachmentsFor(id, user));
  }

  // ---------------------------------------------------------------- the tables in place

  class InvoiceStore {
    var invoices: seq<DbInvoice>
    var clients: seq<DbClient>
    var items: seq<DbItem>
    var attachments: seq<DbAttachment>
    /** How many item rows have been inserted, which names the next one. */
    var serial: nat

    function State(): Tables
      reads this
    {
      Tables(invoices, clients, items, attachments)
    }

    constructor(t: Tables)
      ensures State() == t && serial == 0
    {
      invoices, clients, items, attachments := t.invoices, t.clients, t.items, t.attachments;
      serial := 0;
    }

    /**
     * `getAllInvoices`: the join, then the items and attachments of the joined ids in one query
     * each, grouped by invoice id; each invoice takes its group, or none.
     */
    method GetAll(user: Option<string>) returns (r: seq<Invoice>)
      ensures r == AllInvoices(State(), user)
    {
      var rows := Joined(invoices, clients, user);
      var ids := Map(rows, (j: JoinedRow) => j.inv.id);
      if |ids| == 0 {
        return [];
      }
      var fetchedItems := Filter(items, ItemInBatch(ids, user));
      var fetchedAttachments := Filter(attachments, AttachmentInBatch(ids, user));
      var itemsByInvoice := GroupByKey(fetchedItems, ItemInvoice);
      var attachmentsByInvoice := GroupByKey(fetchedAttachments, AttachmentInvoice);
      r := Map(rows, (j: JoinedRow) => DbToInvoice(j.inv, j.client, Lookup(itemsByInvoice, j.inv.id),
                                                   Lookup(attachmentsByInvoice, j.inv.id)));
      forall k | 0 <= k < |rows| ensures r[k] == Assemble(State(), user)(rows[k]) {
        var id := rows[k].inv.id;
        assert ids[k] == id;
        BatchGroup(items, ItemInvoice, ItemInBatch(ids, user), ItemsFor(id, user), id);
        BatchGroup(attachments, AttachmentInvoice, AttachmentInBatch(ids, user), AttachmentsFor(id, user), id);
      }
    }

    function GetById(id: string, user: Option<string>): Option<Invoice>
      reads this
    {
      GetInvoiceById(State(), id, user)
    }

    method UpdateStatus(id: string, status: Status, pd: Option<PaymentData>, user: Option<string>) returns (r: Option<Invoice>)
      modifies this
      ensures State() == StatusUpdate(old(State()), id, status, pd, user).0
      ensures r == StatusUpdate(old(State()), id, status, pd, user).1
      ensures serial == old(serial)
    {
      invoices := Map(invoices, SetStatus(id, status, pd, user));
      r := GetInvoiceById(State(), id, user);
    }

    /** `updateInvoice`: UPDATE, DELETE the items, INSERT the new ones one by one, read back; any error restores. */
    method Update(id: string, d: InvoiceData, user: Option<string>, now: string) returns (r: Result<Invoice, string>)
      modifies this
      ensures (State(), serial, r) == UpdateInvoice(old(State()), id, d, user, old(serial), now)
    {
      var snapshot := State();
      var start := serial;
      invoices := Map(invoices, Rewrite(id, d, user, now));
      items := Filter(items, Not(ItemsFor(id, user)));
      var inserted := InsertItems(id, d.items, user);
      if !inserted {
        invoices, clients, items, attachments := snapshot.invoices, snapshot.clients, snapshot.items, snapshot.attachments;
        serial := start;
        return Err(UserRequired);
      }
      var found := FindJoined(invoices, clients, id, None);
      if found.None? {
        invoices, clients, items, attachments := snapshot.invoices, snapshot.clients, snapshot.items, snapshot.attachments;
        serial := start;
        return Err(RetrieveFailed);
      }
      r := Ok(DbToInvoice(found.value.inv, found.value.client, Filter(items, ItemsFor(id, None)), []));
    }

    /**
     * The insert loop of `updateInvoice`: each item becomes a row of the invoice under the
     * caller's id; without a user id the first item throws, before anything is inserted.
     */
    method InsertItems(id: string, added: seq<InvoiceItem>, user: Option<string>) returns (ok: bool)
      modifies this
      ensures ok <==> added == [] || Scoped(user)
      ensures ok ==> items == old(items) + NewItemRows(id, added, Owner(user), old(serial))
                     && serial == old(serial) + |added|
      ensures !ok ==> items == old(items) && serial == old(serial)
      ensures invoices == old(invoices) && clients == old(clients) && attachments == old(attachments)
    {
      var kept := items;
      var start := serial;
      for k := 0 to |added|
        invariant items == kept + NewItemRows(id, added[..k], Owner(user), start)
        invariant serial == start + k
        invariant invoices == old(invoices) && clients == old(clients) && attachments == old(attachments)
        invariant k > 0 ==> Scoped(user)
      {
        if !Scoped(user) {
          assert NewItemRows(id, added[..k], Owner(user), start) == [];
          return false;
        }
        assert NewItemRows(id, added[..k + 1], Owner(user), start)
          == NewItemRows(id, added[..k], Owner(user), start) + [NewItemRow(serial, id, added[k], user.value)];
        items := items + [NewItemRow(serial, id, added[k], user.value)];
        serial := serial + 1;
      }
      assert added[..|added|] == added;
      if added == [] {
        assert NewItemRows(id, added, Owner(user), start) == [];
      }
      return true;
    }

    method Delete(id: string, user: Option<string>) returns (deleted: bool)
      modifies this
      ensures State() == DeleteInvoice(old(State()), id, user).0
      ensures deleted == DeleteInvoice(old(State()), id, user).1
      ensures serial == old(serial)
    {
      var matched := Count(invoices, InvoiceMatches(id, user));
      attachments := Filter(attachments, Not(AttachmentsFor(id, user)));
      items := Filter(items, Not(ItemsFor(id, user)));
      invoices := Filter(invoices, Not(InvoiceMatches(id, user)));
      deleted := matched > 0;
    }
  }
}
