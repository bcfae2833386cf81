/**
 * The backup envelope and its validator (src/utils/backup.ts). The payload is a parsed JSON
 * value; serialisation to text and the file download are not part of this model.
 */
module Backup {
  import opened Wrappers
  import opened Json

  const BackupVersion: string := "1.0.0"

  /** Why `validateBackup` rejects a payload, in the order the checks run. */
  datatype BackupError =
    | InvalidFormat
    | VersionMissing
    | TimestampMissing
    | SettingsInvalid
    | ClientsInvalid
    | InvoicesInvalid
    | InvalidClient
    | InvalidInvoice(hasId: bool, hasClient: bool, hasNumber: bool)
      /** Reading a property of a `null` entry throws a TypeError. */
    | NullEntry

  function ErrorMessage(e: BackupError): string {
    match e
    case InvalidFormat => "Invalid backup data format"
    case VersionMissing => "Backup version is missing"
    case TimestampMissing => "Backup timestamp is missing"
    case SettingsInvalid => "Settings data is missing or invalid"
    case ClientsInvalid => "Clients data is missing or invalid"
    case InvoicesInvalid => "Invoices data is missing or invalid"
    case InvalidClient => "Invalid client data: missing required fields"
    case InvalidInvoice(i, c, n) =>
      "Invalid invoice data: missing required fields (id: " + BoolText(i) + ", client: "
      + BoolText(c) + ", number: " + BoolText(n) + ")"
    case NullEntry => "Cannot read properties of null"
  }

  function BoolText(b: bool): string { if b then "true" else "false" }

  /** The envelope: version "1.0.0", the timestamp, and the three parts passed through. */
  function ExportData(settings: map<string, Json>, timestamp: string, clients: seq<Json>, invoices: seq<Json>): (j: Json)
    ensures Get(j, "version") == JStr(BackupVersion) && Get(j, "timestamp") == JStr(timestamp)
    ensures Get(j, "settings") == JObj(settings)
    ensures Get(j, "clients") == JArr(clients) && Get(j, "invoices") == JArr(invoices)
    ensures j.JObj? && j.fields.Keys == {"version", "timestamp", "settings", "clients", "invoices"}
  {
    JObj(map["version" := JStr(BackupVersion), "timestamp" := JStr(timestamp), "settings" := JObj(settings),
             "clients" := JArr(clients), "invoices" := JArr(invoices)])
  }

  /** The invoice's client reference: `client_id || clientId || client`. */
  function ClientRef(invoice: Json): Json {
    Or(Or(Get(invoice, "client_id"), Get(invoice, "clientId")), Get(invoice, "client"))
  }

  /** The invoice's number: `invoice_number || invoiceNumber || number`. */
  function NumberRef(invoice: Json): Json {
    Or(Or(Get(invoice, "invoice_number"), Get(invoice, "invoiceNumber")), Get(invoice, "number"))
  }

  predicate ValidClient(c: Json) { Truthy(Get(c, "id")) && Truthy(Get(c, "name")) }

  predicate ValidInvoice(inv: Json) {
    Truthy(Get(inv, "id")) && Truthy(ClientRef(inv)) && Truthy(NumberRef(inv))
  }

  /** The error the first bad client raises, scanning in array order. */
  function CheckClients(cs: seq<Json>): (r: Option<BackupError>)
    ensures r.None? <==> forall i :: 0 <= i < |cs| ==> !IsNullish(cs[i]) && ValidClient(cs[i])
    ensures r.Some? ==> r.value == NullEntry || r.value == InvalidClient
  {
    if cs == [] then None
    else if IsNullish(cs[0]) then Some(NullEntry)
    else if !ValidClient(cs[0]) then Some(InvalidClient)
    else
      var r := CheckClients(cs[1..]);
      assert forall i :: 0 < i < |cs| ==> cs[i] == cs[1..][i - 1];
      r
  }

  /** The error the first bad invoice raises, scanning in array order. */
  function CheckInvoices(invs: seq<Json>): (r: Option<BackupError>)
    ensures r.None? <==> forall i :: 0 <= i < |invs| ==> !IsNullish(invs[i]) && ValidInvoice(invs[i])
    ensures r.Some? ==> r.value == NullEntry || r.value.InvalidInvoice?
  {
    if invs == [] then None
    else if IsNullish(invs[0]) then Some(NullEntry)
    else if !ValidInvoice(invs[0]) then
      Some(InvalidInvoice(Truthy(Get(invs[0], "id")), Truthy(ClientRef(invs[0])), Truthy(NumberRef(invs[0]))))
    else
      var r := CheckInvoices(invs[1..]);
      assert forall i :: 0 < i < |invs| ==> invs[i] == invs[1..][i - 1];
      r
  }

  /** The payload when every check passes, else the first failed check's error. */
  function ValidateBackup(data: Json): (r: Result<Json, BackupError>)
    ensures r.Ok? ==> r.value == data
    ensures r.Ok? <==>
      && data.JObj?
      && Truthy(Get(data, "version")) && Truthy(Get(data, "timestamp"))
      && (Get(data, "settings").JObj? || Get(data, "settings").JArr?)
      && Get(data, "clients").JArr? && Get(data, "invoices").JArr?
      && (forall i :: 0 <= i < |Get(data, "clients").elems| ==>
            !IsNullish(Get(data, "clients").elems[i]) && ValidClient(Get(data, "clients").elems[i]))
      && (forall i :: 0 <= i < |Get(data, "invoices").elems| ==>
            !IsNullish(Get(data, "invoices").elems[i]) && ValidInvoice(Get(data, "invoices").elems[i]))
    ensures r == Err(InvalidFormat) <==> !(data.JObj? || data.JArr?)
    ensures r == Err(VersionMissing) <==> (data.JObj? || data.JArr?) && !Truthy(Get(data, "version"))
    ensures r == Err(TimestampMissing) <==>
      data.JObj? && Truthy(Get(data, "version")) && !Truthy(Get(data, "timestamp"))
    ensures r == Err(SettingsInvalid) <==>
      && data.JObj? && Truthy(Get(data, "version")) && Truthy(Get(data, "timestamp"))
      && !(Get(data, "settings").JObj? || Get(data, "settings").JArr?)
    ensures r == Err(ClientsInvalid) <==>
      && data.JObj? && Truthy(Get(data, "version")) && Truthy(Get(data, "timestamp"))
      && (Get(data, "settings").JObj? || Get(data, "settings").JArr?)
      && !Get(data, "clients").JArr?
    ensures r == Err(InvoicesInvalid) <==>
      && data.JObj? && Truthy(Get(data, "version")) && Truthy(Get(data, "timestamp"))
      && (Get(data, "settings").JObj? || Get(data, "settings").JArr?)
      && Get(data, "clients").JArr? && !Get(data, "invoices").JArr?
    ensures r.Err? && r.error == InvalidClient ==> CheckClients(Get(data, "clients").elems) == Some(InvalidClient)
    ensures r.Err? && r.error.InvalidInvoice? ==>
      CheckClients(Get(data, "clients").elems).None? && CheckInvoices(Get(data, "invoices").elems) == Some(r.error)
  {
    if !Truthy(data) || !IsObjectType(data) then Err(InvalidFormat)
    else if !Truthy(Get(data, "version")) then Err(VersionMissing)
    else if !Truthy(Get(data, "timestamp")) then Err(TimestampMissing)
    else if !Truthy(Get(data, "settings")) || !IsObjectType(Get(data, "settings")) then Err(SettingsInvalid)
    else if !Get(data, "clients").JArr? then Err(ClientsInvalid)
    else if !Get(data, "invoices").JArr? then Err(InvoicesInvalid)
    else match CheckClients(Get(data, "clients").elems)
      case Some(e) => Err(e)
      case None =>
        match CheckInvoices(Get(data, "invoices").elems)
        case Some(e) => Err(e)
        case None => Ok(data)
  }

  /** Any truthy version passes; its value is never compared with "1.0.0". */
  lemma VersionNotCompared(data: Json, v: Json)
    requires data.JObj? && Truthy(v)
    ensures ValidateBackup(JObj(data.fields["version" := v])).Ok?
            <==> ValidateBackup(JObj(data.fields["version" := JStr(BackupVersion)])).Ok?
  {
    var a := JObj(data.fields["version" := v]);
    var b := JObj(data.fields["version" := JStr(BackupVersion)]);
    assert forall k :: k != "version" ==> Get(a, k) == Get(b, k);
  }

  /** One bad client anywhere rejects the whole payload. */
  lemma OneBadClientRejects(data: Json, i: nat)
    requires Get(data, "clients").JArr? && i < |Get(data, "clients").elems|
    requires !ValidClient(Get(data, "clients").elems[i])
    ensures ValidateBackup(data).Err?
  {
  }

  /** An invoice that names its client only under `client` still passes validation. */
  lemma ClientAliasAccepted()
    ensures ValidInvoice(JObj(map["id" := JStr("i1"), "client" := JStr("c1"), "number" := JStr("INV-2025-0001")]))
  {
  }

  /**
   * Validating the envelope `ExportData` builds succeeds and returns the same clients and
   * invoices, when the timestamp is non-empty and every entry carries its required keys.
   */
  lemma ExportThenValidate(settings: map<string, Json>, timestamp: string, clients: seq<Json>, invoices: seq<Json>)
    requires timestamp != ""
    requires forall i :: 0 <= i < |clients| ==> !IsNullish(clients[i]) && ValidClient(clients[i])
    requires forall i :: 0 <= i < |invoices| ==> !IsNullish(invoices[i]) && ValidInvoice(invoices[i])
    ensures ValidateBackup(ExportData(settings, timestamp, clients, invoices)) == Ok(ExportData(settings, timestamp, clients, invoices))
    ensures Get(ValidateBackup(ExportData(settings, timestamp, clients, invoices)).value, "clients") == JArr(clients)
    ensures Get(ValidateBackup(ExportData(settings, timestamp, clients, invoices)).value, "invoices") == JArr(invoices)
  {
  }
}
