/**
 * The backup import endpoint (src/app/api/backup/import/route.ts): validate, then inside one
 * transaction optionally clear the three tables and insert every client, invoice and item,
 * skipping any whose id is already present. Any error restores the state before the call.
 *
 * A table maps the bound id value to its row; a row holds the bound value of each column.
 */
module BackupImport {
  import opened Wrappers
  import opened Json
  import opened Backup

  /** A stored client row: the bound value of each column but the id. */
  datatype ClientRow = ClientRow(
    name: Json, address: Json, city: Json, state: Json, zipCode: Json, taxId: Json,
    email: Json, phone: Json, defaultUnitPrice: Json,
    billingStreet: Json, billingCity: Json, billingState: Json, billingZip: Json,
    requiresCourseInfo: Json, userId: Json, createdAt: Json, updatedAt: Json)

  datatype InvoiceRow = InvoiceRow(
    number: Json, clientId: Json, status: Json, subtotal: Json, tax: Json, total: Json,
    issuedDate: Json, dueDate: Json, notes: Json, paymentMethod: Json, transactionId: Json,
    paymentDate: Json, courseName: Json, courseId: Json, cohort: Json, trainingDates: Json,
    paymentTermsDays: Json, paymentTermsDescription: Json, userId: Json,
    createdAt: Json, updatedAt: Json)

  datatype ItemRow = ItemRow(
    invoiceId: Json, description: Json, quantity: Json, unitPrice: Json, amount: Json, userId: Json)

  /** Rows keyed by the bound value of their id column. */
  type Table<R> = map<Json, R>

  datatype Tables = Tables(clients: Table<ClientRow>, invoices: Table<InvoiceRow>, items: Table<ItemRow>)

  datatype ImportError =
      /** `const { clearExisting, ...data } = body` on a `null` body. */
    | BodyTypeError
    | Invalid(reason: BackupError)
      /** A row whose id binds to NULL violates the primary key. */
    | NullPrimaryKey
      /** Reading a property of a `null` array entry. */
    | PropertyOfNull

  datatype ImportResponse = Imported(clients: nat, invoices: nat) | Failed(error: ImportError)

  datatype Outcome = Outcome(tables: Tables, response: ImportResponse)

  const EmptyTables: Tables := Tables(map[], map[], map[])

  // ---------------------------------------------------------------- rows

  /** The id every table is keyed by: the entry's `id`, NULL when absent. */
  function EntryId(e: Json): Json { Bind(Get(e, "id")) }

  function ToClientRow(cd: Json, nowIso: string): ClientRow {
    ClientRow(
      Bind(Get(cd, "name")),
      Bind(Or(Get(cd, "address"), JStr(""))),
      Bind(Or(Get(cd, "city"), JStr(""))),
      Bind(Or(Get(cd, "state"), JStr(""))),
      Bind(Or(Get(cd, "zip_code"), JStr(""))),
      Bind(Or(Get(cd, "tax_id"), JStr(""))),
      Bind(Or(Get(cd, "email"), JStr(""))),
      Bind(Or(Get(cd, "phone"), JNull)),
      Bind(Or(Get(cd, "default_unit_price"), JNull)),
      Bind(Or(Get(cd, "billing_address_street"), JNull)),
      Bind(Or(Get(cd, "billing_address_city"), JNull)),
      Bind(Or(Get(cd, "billing_address_state"), JNull)),
      Bind(Or(Get(cd, "billing_address_zip"), JNull)),
      Bind(Or(Get(cd, "requires_course_info"), JBool(false))),
      Bind(Or(Get(cd, "user_id"), JStr("imported-user"))),
      Bind(Or(Get(cd, "created_at"), JStr(nowIso))),
      Bind(Or(Get(cd, "updated_at"), JStr(nowIso))))
  }

  /** `j[a] || j[b] || j[c]`. */
  function First3(j: Json, a: string, b: string, c: string): Json {
    Or(Or(Get(j, a), Get(j, b)), Get(j, c))
  }

  function ToInvoiceRow(inv: Json, nowIso: string): InvoiceRow {
    InvoiceRow(
      Bind(First3(inv, "number", "invoice_number", "invoiceNumber")),
      Bind(Or(Get(inv, "client_id"), Get(inv, "clientId"))),
      Bind(Or(Get(inv, "status"), JStr("pending"))),
      Bind(Or(Get(inv, "subtotal"), JNum(0.0))),
      Bind(Or(First3(inv, "tax", "taxAmount", "tax_amount"), JNum(0.0))),
      Bind(Or(Or(Get(inv, "total"), Get(inv, "amount")), JNum(0.0))),
      Bind(First3(inv, "issued_date", "issuedDate", "issueDate")),
      Bind(Or(Get(inv, "due_date"), Get(inv, "dueDate"))),
      Bind(Or(Get(inv, "notes"), JNull)),
      Bind(Or(Or(Get(inv, "payment_method"), Get(inv, "paymentMethod")), JNull)),
      Bind(Or(Get(inv, "transaction_id"), JNull)),
      Bind(Or(Or(Get(inv, "payment_date"), Get(inv, "paymentDate")), JNull)),
      Bind(Or(Get(inv, "course_name"), JNull)),
      Bind(Or(Get(inv, "course_id"), JNull)),
      Bind(Or(Get(inv, "cohort"), JNull)),
      Bind(Or(Get(inv, "training_dates"), JNull)),
      Bind(Or(Get(inv, "payment_terms_days"), JNull)),
      Bind(Or(Get(inv, "payment_terms_description"), JNull)),
      Bind(Or(Get(inv, "user_id"), JStr("imported-user"))),
      Bind(Or(Get(inv, "created_at"), JStr(nowIso))),
      Bind(Or(Get(inv, "updated_at"), JStr(nowIso))))
  }

  /** An item row; its invoice id falls back to the enclosing invoice's id. */
  function ToItemRow(itm: Json, inv: Json): ItemRow {
    ItemRow(
      Bind(Or(Or(Get(itm, "invoiceId"), Get(itm, "invoice_id")), Get(inv, "id"))),
      Bind(Get(itm, "description")),
      Bind(Or(Get(itm, "quantity"), JNum(1.0))),
      Bind(Or(Or(Get(itm, "price"), Get(itm, "unit_price")), JNum(0.0))),
      Bind(Or(Get(itm, "amount"), JNum(0.0))),
      Bind(Or(Or(Get(itm, "user_id"), Get(inv, "user_id")), JStr("imported-user"))))
  }

  /** Missing client text fields are stored as "", the owner as `imported-user`, the stamps as now. */
  lemma ClientRowDefaults(cd: Json, nowIso: string)
    ensures var row := ToClientRow(cd, nowIso);
      && (!Truthy(Get(cd, "address")) ==> row.address == JStr(""))
      && (!Truthy(Get(cd, "city")) ==> row.city == JStr(""))
      && (!Truthy(Get(cd, "email")) ==> row.email == JStr(""))
      && (!Truthy(Get(cd, "phone")) ==> row.phone == JNull)
      && (!Truthy(Get(cd, "requires_course_info")) ==> row.requiresCourseInfo == JBool(false))
      && (!Truthy(Get(cd, "user_id")) ==> row.userId == JStr("imported-user"))
      && (!Truthy(Get(cd, "created_at")) ==> row.createdAt == JStr(nowIso))
      && (Truthy(Get(cd, "name")) ==> row.name == Get(cd, "name"))
  {
  }

  /**
   * The stored number is the first truthy of `number`, `invoice_number` and `invoiceNumber`;
   * the stored status defaults to "pending", tax and total to 0 and the owner to `imported-user`.
   */
  lemma InvoiceRowResolution(inv: Json, nowIso: string)
    ensures var row := ToInvoiceRow(inv, nowIso);
      && (Truthy(Get(inv, "number")) ==> row.number == Get(inv, "number"))
      && (!Truthy(Get(inv, "number")) && Truthy(Get(inv, "invoice_number")) ==> row.number == Get(inv, "invoice_number"))
      && (!Truthy(Get(inv, "number")) && !Truthy(Get(inv, "invoice_number")) ==> row.number == Bind(Get(inv, "invoiceNumber")))
      && (Truthy(row.number) <==> Truthy(Get(inv, "number")) || Truthy(Get(inv, "invoice_number")) || Truthy(Get(inv, "invoiceNumber")))
      && (!Truthy(Get(inv, "status")) ==> row.status == JStr("pending"))
      && (!Truthy(Get(inv, "tax")) && !Truthy(Get(inv, "taxAmount")) && !Truthy(Get(inv, "tax_amount")) ==> row.tax == JNum(0.0))
      && (!Truthy(Get(inv, "total")) && Truthy(Get(inv, "amount")) ==> row.total == Get(inv, "amount"))
      && (!Truthy(Get(inv, "total")) && !Truthy(Get(inv, "amount")) ==> row.total == JNum(0.0))
      && (!Truthy(Get(inv, "user_id")) ==> row.userId == JStr("imported-user"))
  {
  }

  /**
   * An item as the export writes it (`id`, `invoiceId`, `description`, `quantity`, `price`,
   * `amount`) is stored under its id with those values.
   */
  lemma ExportedItemStored(id: Json, invoiceId: Json, description: Json, quantity: Json, price: Json, amount: Json, inv: Json)
    requires id != JUndefined && description != JUndefined
    requires Truthy(invoiceId) && Truthy(quantity) && Truthy(price) && Truthy(amount)
    ensures var itm := JObj(map["id" := id, "invoiceId" := invoiceId, "description" := description,
                                "quantity" := quantity, "price" := price, "amount" := amount]);
      && EntryId(itm) == id
      && ToItemRow(itm, inv).invoiceId == invoiceId && ToItemRow(itm, inv).description == description
      && ToItemRow(itm, inv).quantity == quantity && ToItemRow(itm, inv).unitPrice == price
      && ToItemRow(itm, inv).amount == amount
  {
  }

  /** An item without a quantity gets 1, without a price 0, and without an invoice id its parent's. */
  lemma ItemRowDefaults(itm: Json, inv: Json)
    ensures var row := ToItemRow(itm, inv);
      && (!Truthy(Get(itm, "quantity")) ==> row.quantity == JNum(1.0))
      && (!Truthy(Get(itm, "price")) && !Truthy(Get(itm, "unit_price")) ==> row.unitPrice == JNum(0.0))
      && (!Truthy(Get(itm, "price")) && Truthy(Get(itm, "unit_price")) ==> row.unitPrice == Get(itm, "unit_price"))
      && (!Truthy(Get(itm, "invoiceId")) && !Truthy(Get(itm, "invoice_id")) ==> row.invoiceId == Bind(Get(inv, "id")))
      && (!Truthy(Get(itm, "user_id")) && Truthy(Get(inv, "user_id")) ==> row.userId == Get(inv, "user_id"))
  {
  }

  function ClientRowOf(nowIso: string): Json -> ClientRow { (cd: Json) => ToClientRow(cd, nowIso) }

  function ItemRowOf(inv: Json): Json -> ItemRow { (itm: Json) => ToItemRow(itm, inv) }

  /** `invoice.items` when it is an array, otherwise no items. */
  function ItemsOf(inv: Json): seq<Json> {
    if Get(inv, "items").JArr? then Get(inv, "items").elems else []
  }

  // ---------------------------------------------------------------- insert-or-skip

  /** `INSERT ... ON CONFLICT (id) DO NOTHING`; a NULL id violates the primary key. */
  function InsertOrSkip<R>(t: Table<R>, id: Json, row: R): (r: Result<Table<R>, ImportError>)
    ensures r.Err? <==> id == JNull
    ensures r.Ok? && id in t ==> r.value == t
    ensures r.Ok? && id !in t ==> r.value == t[id := row]
  {
    if id == JNull then Err(NullPrimaryKey)
    else if id in t then Ok(t)
    else Ok(t[id := row])
  }

  /** One insert-or-skip per entry, in order, stopping at the first error. */
  function InsertAll<R>(t: Table<R>, entries: seq<Json>, toRow: Json -> R): Result<Table<R>, ImportError>
    decreases |entries|
  {
    if entries == [] then Ok(t)
    else if IsNullish(entries[0]) then Err(PropertyOfNull)
    else match InsertOrSkip(t, EntryId(entries[0]), toRow(entries[0]))
      case Err(e) => Err(e)
      case Ok(t') => InsertAll(t', entries[1..], toRow)
  }

  /** Insert-or-skip never changes or removes an existing row. */
  lemma {:induction false} InsertAllKeepsExisting<R>(t: Table<R>, entries: seq<Json>, toRow: Json -> R)
    requires InsertAll(t, entries, toRow).Ok?
    ensures t.Keys <= InsertAll(t, entries, toRow).value.Keys
    ensures forall k :: k in t ==> InsertAll(t, entries, toRow).value[k] == t[k]
    decreases |entries|
  {
    if entries != [] {
      var t' := InsertOrSkip(t, EntryId(entries[0]), toRow(entries[0])).value;
      InsertAllKeepsExisting(t', entries[1..], toRow);
    }
  }

  /** Every key of the result is an old key or the id of one of the entries. */
  lemma {:induction false} InsertAllKeysFrom<R>(t: Table<R>, entries: seq<Json>, toRow: Json -> R)
    requires InsertAll(t, entries, toRow).Ok?
    ensures forall k :: k in InsertAll(t, entries, toRow).value ==>
      k in t || exists i :: 0 <= i < |entries| && EntryId(entries[i]) == k
    decreases |entries|
  {
    if entries != [] {
      var t' := InsertOrSkip(t, EntryId(entries[0]), toRow(entries[0])).value;
      InsertAllKeysFrom(t', entries[1..], toRow);
      forall k | k in InsertAll(t, entries, toRow).value
        ensures k in t || exists i :: 0 <= i < |entries| && EntryId(entries[i]) == k
      {
        if k !in t && k !in t' {
          var i :| 0 <= i < |entries[1..]| && EntryId(entries[1..][i]) == k;
          assert entries[i + 1] == entries[1..][i];
        } else if k !in t {
          assert EntryId(entries[0]) == k;
        }
      }
    }
  }

  /**
   * Once a run of inserts has succeeded, repeating it on any table that already holds all
   * the keys it produced inserts nothing.
   */
  lemma {:induction false} InsertAllAbsorbed<R>(t: Table<R>, entries: seq<Json>, toRow: Json -> R, u: Table<R>)
    requires InsertAll(t, entries, toRow).Ok?
    requires InsertAll(t, entries, toRow).value.Keys <= u.Keys
    ensures InsertAll(u, entries, toRow) == Ok(u)
    decreases |entries|
  {
    if entries != [] {
      var t' := InsertOrSkip(t, EntryId(entries[0]), toRow(entries[0])).value;
      InsertAllKeepsExisting(t', entries[1..], toRow);
      InsertAllAbsorbed(t', entries[1..], toRow, u);
    }
  }

  /** The invoice row, then its items; the items are attempted even when the invoice is skipped. */
  function InsertInvoice(ts: Tables, inv: Json, nowIso: string): (r: Result<Tables, ImportError>)
    ensures r.Ok? ==> r.value.clients == ts.clients
  {
    match InsertOrSkip(ts.invoices, EntryId(inv), ToInvoiceRow(inv, nowIso))
    case Err(e) => Err(e)
    case Ok(invoices) =>
      match InsertAll(ts.items, ItemsOf(inv), ItemRowOf(inv))
      case Err(e) => Err(e)
      case Ok(items) => Ok(Tables(ts.clients, invoices, items))
  }

  function InsertInvoices(ts: Tables, invs: seq<Json>, nowIso: string): (r: Result<Tables, ImportError>)
    ensures r.Ok? ==> r.value.clients == ts.clients
    decreases |invs|
  {
    if invs == [] then Ok(ts)
    else match InsertInvoice(ts, invs[0], nowIso)
      case Err(e) => Err(e)
      case Ok(ts') => InsertInvoices(ts', invs[1..], nowIso)
  }

  /** An invoice whose id is already stored is skipped, but its items are still inserted. */
  lemma SkippedInvoiceItemsAttempted(ts: Tables, inv: Json, nowIso: string)
    requires EntryId(inv) in ts.invoices && EntryId(inv) != JNull
    ensures InsertInvoice(ts, inv, nowIso).Ok? <==> InsertAll(ts.items, ItemsOf(inv), ItemRowOf(inv)).Ok?
    ensures InsertInvoice(ts, inv, nowIso).Ok? ==>
      InsertInvoice(ts, inv, nowIso).value
      == Tables(ts.clients, ts.invoices, InsertAll(ts.items, ItemsOf(inv), ItemRowOf(inv)).value)
  {
  }

  /** One invoice and its items keep every stored row. */
  lemma InsertInvoiceKeepsExisting(ts: Tables, inv: Json, nowIso: string)
    requires InsertInvoice(ts, inv, nowIso).Ok?
    ensures ts.invoices.Keys <= InsertInvoice(ts, inv, nowIso).value.invoices.Keys
    ensures ts.items.Keys <= InsertInvoice(ts, inv, nowIso).value.items.Keys
    ensures forall k :: k in ts.invoices ==> InsertInvoice(ts, inv, nowIso).value.invoices[k] == ts.invoices[k]
    ensures forall k :: k in ts.items ==> InsertInvoice(ts, inv, nowIso).value.items[k] == ts.items[k]
  {
    InsertAllKeepsExisting(ts.items, ItemsOf(inv), ItemRowOf(inv));
  }

  lemma {:induction false} InsertInvoicesKeepsExisting(ts: Tables, invs: seq<Json>, nowIso: string)
    requires InsertInvoices(ts, invs, nowIso).Ok?
    ensures ts.invoices.Keys <= InsertInvoices(ts, invs, nowIso).value.invoices.Keys
    ensures ts.items.Keys <= InsertInvoices(ts, invs, nowIso).value.items.Keys
    ensures forall k :: k in ts.invoices ==> InsertInvoices(ts, invs, nowIso).value.invoices[k] == ts.invoices[k]
    ensures forall k :: k in ts.items ==> InsertInvoices(ts, invs, nowIso).value.items[k] == ts.items[k]
    decreases |invs|
  {
    if invs != [] {
      var ts' := InsertInvoice(ts, invs[0], nowIso).value;
      InsertInvoiceKeepsExisting(ts, invs[0], nowIso);
      InsertInvoicesKeepsExisting(ts', invs[1..], nowIso);
      assert InsertInvoices(ts, invs, nowIso) == InsertInvoices(ts', invs[1..], nowIso);
    }
  }

  lemma {:induction false} InsertInvoicesAbsorbed(ts: Tables, invs: seq<Json>, nowIso: string, us: Tables)
    requires InsertInvoices(ts, invs, nowIso).Ok?
    requires InsertInvoices(ts, invs, nowIso).value.invoices.Keys <= us.invoices.Keys
    requires InsertInvoices(ts, invs, nowIso).value.items.Keys <= us.items.Keys
    ensures InsertInvoices(us, invs, nowIso) == Ok(us)
    decreases |invs|
  {
    if invs != [] {
      var ts' := InsertInvoice(ts, invs[0], nowIso).value;
      InsertInvoicesKeepsExisting(ts', invs[1..], nowIso);
      InsertAllAbsorbed(ts.items, ItemsOf(invs[0]), ItemRowOf(invs[0]), us.items);
      InsertInvoicesAbsorbed(ts', invs[1..], nowIso, us);
    }
  }

  // ---------------------------------------------------------------- the request

  /** `const { clearExisting = false, ...data } = body`: the flag's truthiness and the rest. */
  function SplitBody(body: Json): (r: Result<(bool, Json), ImportError>)
    ensures r.Err? <==> IsNullish(body)
    ensures r.Ok? ==> r.value.1.JObj? && "clearExisting" !in r.value.1.fields
    ensures body.JObj? ==> r == Ok((Truthy(Get(body, "clearExisting")), JObj(body.fields - {"clearExisting"})))
  {
    if IsNullish(body) then Err(BodyTypeError)
    else if body.JObj? then Ok((Truthy(Get(body, "clearExisting")), JObj(body.fields - {"clearExisting"})))
    else Ok((false, JObj(map[])))
  }

  function ClientsOf(data: Json): seq<Json> { if Get(data, "clients").JArr? then Get(data, "clients").elems else [] }

  function InvoicesOf(data: Json): seq<Json> { if Get(data, "invoices").JArr? then Get(data, "invoices").elems else [] }

  /** The work inside the transaction: the optional clear, then the clients, then the invoices. */
  function Transaction(ts: Tables, clear: bool, data: Json, nowIso: string): Result<Tables, ImportError> {
    var start := if clear then EmptyTables else ts;
    match InsertAll(start.clients, ClientsOf(data), ClientRowOf(nowIso))
    case Err(e) => Err(e)
    case Ok(clients) => InsertInvoices(start.(clients := clients), InvoicesOf(data), nowIso)
  }

  /** The tables and the response after one import request. */
  function Import(ts: Tables, body: Json, nowIso: string): (o: Outcome)
    ensures o.response.Failed? ==> o.tables == ts
    ensures o.response.Imported? ==>
      SplitBody(body).Ok? && ValidateBackup(SplitBody(body).value.1).Ok?
      && o.response == Imported(|ClientsOf(SplitBody(body).value.1)|, |InvoicesOf(SplitBody(body).value.1)|)
    ensures SplitBody(body).Ok? && ValidateBackup(SplitBody(body).value.1).Err? ==>
      o == Outcome(ts, Failed(Invalid(ValidateBackup(SplitBody(body).value.1).error)))
  {
    match SplitBody(body)
    case Err(e) => Outcome(ts, Failed(e))
    case Ok((clear, data)) =>
      match ValidateBackup(data)
      case Err(e) => Outcome(ts, Failed(Invalid(e)))
      case Ok(_) =>
        match Transaction(ts, clear, data, nowIso)
        case Err(e) => Outcome(ts, Failed(e))
        case Ok(result) => Outcome(result, Imported(|ClientsOf(data)|, |InvoicesOf(data)|))
  }

  /** Without clearExisting, a successful import leaves every existing row as it was. */
  lemma ImportKeepsExistingRows(ts: Tables, body: Json, nowIso: string)
    requires Import(ts, body, nowIso).response.Imported?
    requires !SplitBody(body).value.0
    ensures var r := Import(ts, body, nowIso).tables;
      && (forall k :: k in ts.clients ==> k in r.clients && r.clients[k] == ts.clients[k])
      && (forall k :: k in ts.invoices ==> k in r.invoices && r.invoices[k] == ts.invoices[k])
      && (forall k :: k in ts.items ==> k in r.items && r.items[k] == ts.items[k])
  {
    var data := SplitBody(body).value.1;
    var clients := InsertAll(ts.clients, ClientsOf(data), ClientRowOf(nowIso)).value;
    InsertAllKeepsExisting(ts.clients, ClientsOf(data), ClientRowOf(nowIso));
    InsertInvoicesKeepsExisting(ts.(clients := clients), InvoicesOf(data), nowIso);
  }

  /** With clearExisting, every client left is one of the payload's clients, whoever owned it. */
  lemma ClearReplacesClients(ts: Tables, body: Json, nowIso: string)
    requires Import(ts, body, nowIso).response.Imported?
    requires SplitBody(body).value.0
    ensures var data := SplitBody(body).value.1;
      forall k :: k in Import(ts, body, nowIso).tables.clients ==>
        exists i :: 0 <= i < |ClientsOf(data)| && EntryId(ClientsOf(data)[i]) == k
  {
    var data := SplitBody(body).value.1;
    InsertAllKeysFrom(map[], ClientsOf(data), ClientRowOf(nowIso));
  }

  /** Importing the same payload a second time changes nothing and reports the same counts. */
  lemma ImportIdempotent(ts: Tables, body: Json, nowIso: string)
    requires Import(ts, body, nowIso).response.Imported?
    ensures Import(Import(ts, body, nowIso).tables, body, nowIso) == Import(ts, body, nowIso)
  {
    var (clear, data) := SplitBody(body).value;
    var start := if clear then EmptyTables else ts;
    var clients := InsertAll(start.clients, ClientsOf(data), ClientRowOf(nowIso)).value;
    var result := InsertInvoices(start.(clients := clients), InvoicesOf(data), nowIso).value;
    if !clear {
      InsertInvoicesKeepsExisting(start.(clients := clients), InvoicesOf(data), nowIso);
      InsertAllAbsorbed(start.clients, ClientsOf(data), ClientRowOf(nowIso), result.clients);
      assert result.(clients := result.clients) == result;
      InsertInvoicesAbsorbed(start.(clients := clients), InvoicesOf(data), nowIso, result);
    }
  }

  /** Validation accepts a `client` key, but the stored client_id reads only client_id/clientId. */
  lemma ClientKeyNotStored(inv: Json, nowIso: string)
    requires !Truthy(Get(inv, "client_id")) && !Truthy(Get(inv, "clientId"))
    ensures !Truthy(ToInvoiceRow(inv, nowIso).clientId)
  {
  }

  /** Issued and due dates are not defaulted: absent under every alias, they bind to NULL. */
  lemma DatesNotDefaulted(inv: Json, nowIso: string)
    requires !Truthy(Get(inv, "issued_date")) && !Truthy(Get(inv, "issuedDate")) && Get(inv, "issueDate") == JUndefined
    requires !Truthy(Get(inv, "due_date")) && Get(inv, "dueDate") == JUndefined
    ensures ToInvoiceRow(inv, nowIso).issuedDate == JNull
    ensures ToInvoiceRow(inv, nowIso).dueDate == JNull
  {
  }

  // ---------------------------------------------------------------- the handler

  class Database {
    var clients: Table<ClientRow>
    var invoices: Table<InvoiceRow>
    var items: Table<ItemRow>

    constructor(initial: Tables)
      ensures State() == initial
    {
      clients := initial.clients;
      invoices := initial.invoices;
      items := initial.items;
    }

    function State(): Tables
      reads this
    {
      Tables(clients, invoices, items)
    }

    /** The client loop: insert-or-skip each entry, stopping at the first error. */
    method InsertClientRows(cs: seq<Json>, nowIso: string) returns (err: Option<ImportError>)
      modifies this
      ensures invoices == old(invoices) && items == old(items)
      ensures err.None? ==> InsertAll(old(clients), cs, ClientRowOf(nowIso)) == Ok(clients)
      ensures err.Some? ==> InsertAll(old(clients), cs, ClientRowOf(nowIso)) == Err(err.value)
    {
      var i := 0;
      while i < |cs|
        invariant 0 <= i <= |cs|
        invariant invoices == old(invoices) && items == old(items)
        invariant InsertAll(old(clients), cs, ClientRowOf(nowIso)) == InsertAll(clients, cs[i..], ClientRowOf(nowIso))
      {
        assert cs[i..][0] == cs[i] && cs[i..][1..] == cs[i + 1..];
        if IsNullish(cs[i]) {
          return Some(PropertyOfNull);
        }
        var id := EntryId(cs[i]);
        if id == JNull {
          return Some(NullPrimaryKey);
        }
        if id !in clients {
          clients := clients[id := ToClientRow(cs[i], nowIso)];
        }
        i := i + 1;
      }
      return None;
    }

    /** The item loop of one invoice. */
    method InsertItemRows(its: seq<Json>, inv: Json) returns (err: Option<ImportError>)
      modifies this
      ensures clients == old(clients) && invoices == old(invoices)
      ensures err.None? ==> InsertAll(old(items), its, ItemRowOf(inv)) == Ok(items)
      ensures err.Some? ==> InsertAll(old(items), its, ItemRowOf(inv)) == Err(err.value)
    {
      var k := 0;
      while k < |its|
        invariant 0 <= k <= |its|
        invariant clients == old(clients) && invoices == old(invoices)
        invariant InsertAll(old(items), its, ItemRowOf(inv)) == InsertAll(items, its[k..], ItemRowOf(inv))
      {
        assert its[k..][0] == its[k] && its[k..][1..] == its[k + 1..];
        if IsNullish(its[k]) {
          return Some(PropertyOfNull);
        }
        var id := EntryId(its[k]);
        if id == JNull {
          return Some(NullPrimaryKey);
        }
        if id !in items {
          items := items[id := ToItemRow(its[k], inv)];
        }
        k := k + 1;
      }
      return None;
    }

    /** One invoice: its row (insert-or-skip), then its items. */
    method InsertInvoiceAndItems(inv: Json, nowIso: string) returns (err: Option<ImportError>)
      modifies this
      ensures clients == old(clients)
      ensures err.None? ==> InsertInvoice(old(State()), inv, nowIso) == Ok(State())
      ensures err.Some? ==> InsertInvoice(old(State()), inv, nowIso) == Err(err.value)
    {
      var id := EntryId(inv);
      if id == JNull {
        return Some(NullPrimaryKey);
      }
      var row := ToInvoiceRow(inv, nowIso);
      if id !in invoices {
        invoices := invoices[id := row];
      }
      assert InsertOrSkip(old(invoices), id, row) == Ok(invoices);
      err := InsertItemRows(ItemsOf(inv), inv);
    }

    /** The invoice loop. */
    method InsertInvoiceRows(invs: seq<Json>, nowIso: string) returns (err: Option<ImportError>)
      modifies this
      ensures clients == old(clients)
      ensures err.None? ==> InsertInvoices(old(State()), invs, nowIso) == Ok(State())
      ensures err.Some? ==> InsertInvoices(old(State()), invs, nowIso) == Err(err.value)
    {
      var j := 0;
      while j < |invs|
        invariant 0 <= j <= |invs|
        invariant clients == old(clients)
        invariant InsertInvoices(old(State()), invs, nowIso) == InsertInvoices(State(), invs[j..], nowIso)
      {
        assert invs[j..][0] == invs[j] && invs[j..][1..] == invs[j + 1..];
        ghost var before := State();
        err := InsertInvoiceAndItems(invs[j], nowIso);
        if err.Some? {
          assert InsertInvoices(before, invs[j..], nowIso) == Err(err.value);
          return;
        }
        assert InsertInvoices(before, invs[j..], nowIso) == InsertInvoices(State(), invs[j + 1..], nowIso);
        j := j + 1;
      }
      return None;
    }

    /** Between BEGIN and COMMIT: the optional clear, then both insert loops. */
    method RunTransaction(clearExisting: bool, data: Json, nowIso: string) returns (err: Option<ImportError>)
      modifies this
      ensures err.None? ==> Transaction(old(State()), clearExisting, data, nowIso) == Ok(State())
      ensures err.Some? ==> Transaction(old(State()), clearExisting, data, nowIso) == Err(err.value)
    {
      if clearExisting {
        items := map[];
        invoices := map[];
        clients := map[];
      }
      ghost var start := State();
      err := InsertClientRows(ClientsOf(data), nowIso);
      if err.None? {
        assert State() == start.(clients := clients);
        err := InsertInvoiceRows(InvoicesOf(data), nowIso);
      }
    }

    /**
     * POST /api/backup/import. Validation runs before the transaction starts; inside it,
     * any error rolls the three tables back to the snapshot taken first.
     */
    method ImportBackup(body: Json, nowIso: string) returns (response: ImportResponse)
      modifies this
      ensures State() == Import(old(State()), body, nowIso).tables
      ensures response == Import(old(State()), body, nowIso).response
    {
      var snapshot := State();
      var split := SplitBody(body);
      if split.Err? {
        response := Failed(split.error);
        return;
      }
      var (clearExisting, data) := split.value;
      var validated := ValidateBackup(data);
      if validated.Err? {
        response := Failed(Invalid(validated.error));
        return;
      }
      var err := RunTransaction(clearExisting, data, nowIso);
      if err.Some? {
        clients, invoices, items := snapshot.clients, snapshot.invoices, snapshot.items;
        response := Failed(err.value);
        return;
      }
      response := Imported(|ClientsOf(data)|, |InvoicesOf(data)|);
    }
  }
}
