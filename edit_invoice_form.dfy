/**
 * The edit-invoice dialog (src/components/EditInvoiceForm.tsx): the form filled in from an
 * existing invoice, the integer quantity input, the validation that always checks the course
 * fields with the `quantity > 0` rule, and the PUT body that keeps the invoice number. Turning a
 * timestamp into its `YYYY-MM-DD` text is a parameter; the fetches are not part of this model.
 */
module EditInvoiceForm {
  import opened Wrappers
  import opened Strings
  import opened Seqs
  import opened Domain
  import PaymentTermsUtil
  import opened InvoiceFormCommon

  /** `PAYMENT_TERMS_OPTIONS[2]`, the Net 30 fallback. */
  function DefaultTerms(): (t: PaymentTerms)
    ensures t == PaymentTerms(30, "Net 30")
  {
    PaymentTermsUtil.OptionsAscending();
    PaymentTermsUtil.Options[2]
  }

  /** `clients.find(c => c.name === invoice.client.name)?.id || ""`. */
  function ClientIdFor(clients: seq<Client>, name: string): (id: string)
    ensures FindClientByName(clients, name).None? ==> id == ""
    ensures FindClientByName(clients, name).Some? ==> id == FindClientByName(clients, name).value.id
  {
    match FindClientByName(clients, name)
    case None => ""
    case Some(c) => c.id
  }

  function LineOf(item: InvoiceItem): LineItem { LineItem(item.description, item.quantity, item.unitPrice) }

  /** The effect that fills the form from the invoice; `isoDay` renders a timestamp as `YYYY-MM-DD`. */
  function Populate(invoice: Invoice, clients: seq<Client>, isoDay: int -> string): (f: FormData)
    ensures f.clientId == ClientIdFor(clients, invoice.client.name)
    ensures f.status == invoice.status
    ensures f.issuedDate == isoDay(invoice.issuedDate) && f.dueDate == isoDay(invoice.dueDate)
    ensures invoice.paymentTerms.Some? ==> f.paymentTerms == TermsOfOption(invoice.paymentTerms.value)
    ensures invoice.paymentTerms.None? ==> f.paymentTerms == FormTerms(Some(30), "Net 30")
    ensures f.notes == OrString(invoice.notes, "")
    ensures |f.items| == |invoice.items| && forall i :: 0 <= i < |f.items| ==>
      && f.items[i].description == invoice.items[i].description
      && f.items[i].quantity == invoice.items[i].quantity
      && f.items[i].unitPrice == invoice.items[i].unitPrice
    ensures invoice.courseInfo.Some? ==> f.courseInfo == invoice.courseInfo.value
    ensures invoice.courseInfo.None? ==> f.courseInfo == EmptyCourse
  {
    FormData(
      ClientIdFor(clients, invoice.client.name),
      invoice.status,
      isoDay(invoice.issuedDate),
      isoDay(invoice.dueDate),
      TermsOfOption(if invoice.paymentTerms.Some? then invoice.paymentTerms.value else DefaultTerms()),
      OrString(invoice.notes, ""),
      Map(invoice.items, LineOf),
      if invoice.courseInfo.Some? then invoice.courseInfo.value else EmptyCourse)
  }

  /** `clients[i]` is the first client called `name`. */
  predicate FirstNamed(clients: seq<Client>, name: string, i: int) {
    0 <= i < |clients| && clients[i].name == name && forall j :: 0 <= j < i ==> clients[j].name != name
  }

  /** The form's client is the first of that name; with no client of that name it stays unselected. */
  lemma PopulateClient(invoice: Invoice, clients: seq<Client>, isoDay: int -> string)
    ensures var id := Populate(invoice, clients, isoDay).clientId;
      && ((forall i :: 0 <= i < |clients| ==> clients[i].name != invoice.client.name) ==> id == "")
      && forall i :: FirstNamed(clients, invoice.client.name, i) ==> id == clients[i].id
  {
    forall i | FirstNamed(clients, invoice.client.name, i)
      ensures ClientIdFor(clients, invoice.client.name) == clients[i].id
    {
      FirstByName(clients, invoice.client.name, i);
    }
    if forall i :: 0 <= i < |clients| ==> clients[i].name != invoice.client.name {
      FindClientByNameNone(clients, invoice.client.name);
    }
  }

  lemma {:induction false} FirstByName(clients: seq<Client>, name: string, i: nat)
    requires i < |clients| && clients[i].name == name
    requires forall j :: 0 <= j < i ==> clients[j].name != name
    ensures FindClientByName(clients, name) == Some(clients[i])
    decreases i
  {
    if i > 0 {
      assert clients[0].name != name;
      FirstByName(clients[1..], name, i - 1);
    }
  }

  lemma FindClientByNameNone(clients: seq<Client>, name: string)
    requires forall i :: 0 <= i < |clients| ==> clients[i].name != name
    ensures FindClientByName(clients, name).None?
  {
  }

  /** `Number.parseInt(value) || 1` for the quantity input: NaN and 0 both become 1. */
  function QuantityInput(value: string): (q: real)
    ensures q != 0.0
    ensures ParseInt(value).Some? && ParseInt(value).value != 0 ==> q == ParseInt(value).value as real
    ensures ParseInt(value).None? || ParseInt(value).value == 0 ==> q == 1.0
  {
    match ParseInt(value)
    case None => 1.0
    case Some(n) => if n == 0 then 1.0 else n as real
  }

  /** A typed integer other than 0 is taken as it is; the quantity is always a whole number. */
  lemma QuantityInputOfInt(n: int)
    ensures QuantityInput(IntToString(n)) == if n == 0 then 1.0 else n as real
  {
    ParseIntOfInt(n);
  }

  /** A typed negative quantity is kept, so it falls to the `quantity > 0` check. */
  lemma NegativeQuantityKept()
    ensures QuantityInput(IntToString(-2)) == -2.0
    ensures !QuantityOk(Positive, QuantityInput(IntToString(-2)))
  {
    QuantityInputOfInt(-2);
  }

  /** `addItem` here always starts the item at price 0. */
  function AddItemTo(f: FormData): FormData { f.(items := AddItem(f.items, 0.0)) }

  /** `validateForm`'s dictionary: the course fields for every client. */
  function Validate(f: FormData): Errors { FormErrors(f, true, Positive) }

  /**
   * The form passes exactly when the client and both dates are set, all four course fields are
   * filled in, and every item has a description, a positive quantity and a non-negative price.
   */
  lemma ValidatePassesIff(f: FormData)
    ensures Validate(f) == map[] <==>
      && f.clientId != "" && f.issuedDate != "" && f.dueDate != ""
      && CourseComplete(f.courseInfo)
      && forall i :: 0 <= i < |f.items| ==>
           !Blank(f.items[i].description) && f.items[i].quantity > 0.0 && f.items[i].unitPrice >= 0.0
  {
    FormErrorsEmptyIff(f, true, Positive);
  }

  /** The edit rule accepts a quantity the create rule rejects. */
  lemma QuantityRulesDiffer()
    ensures QuantityOk(Positive, 0.005) && !QuantityOk(AtLeastOneHundredth, 0.005)
  {
  }

  /** `handleSubmit`: nothing unless the form passes, else the PUT body with the original number. */
  function Submit(f: FormData, invoice: Invoice, stamp: int): (r: Option<Payload>)
    ensures r.Some? <==> Validate(f) == map[]
    ensures r.Some? ==>
      && r.value.number == invoice.number && r.value.clientId == f.clientId && r.value.status == f.status
      && r.value.subtotal == CalculateTotals(f.items).subtotal && r.value.tax == 0.0
      && r.value.total == r.value.subtotal
      && Sum(r.value.items, ItemAmountOf) == r.value.total
      && r.value.courseInfo == Some(f.courseInfo)
      && (r.value.notes.Some? <==> f.notes != "")
  {
    if Validate(f) != map[] then None else Some(BuildPayload(f, invoice.number, Some(f.courseInfo), stamp))
  }

  /**
   * Saving a form filled from an invoice without touching it resubmits that invoice's items (under
   * new ids), its number and its status.
   */
  lemma ResubmitUnchanged(invoice: Invoice, clients: seq<Client>, isoDay: int -> string, stamp: int)
    requires Validate(Populate(invoice, clients, isoDay)) == map[]
    ensures var r := Submit(Populate(invoice, clients, isoDay), invoice, stamp);
      && r.Some? && r.value.number == invoice.number && r.value.status == invoice.status
      && |r.value.items| == |invoice.items|
      && forall i :: 0 <= i < |invoice.items| ==>
           && r.value.items[i].description == invoice.items[i].description
           && r.value.items[i].quantity == invoice.items[i].quantity
           && r.value.items[i].unitPrice == invoice.items[i].unitPrice
  {
  }

  /**
   * The dialog's state: the form, the fetched clients and the shown errors. The handlers that
   * set one plain field (dates, notes, status, course fields) are record updates of `formData`
   * and are not methods here.
   */
  class Form {
    var formData: FormData
    var clients: seq<Client>
    var errors: Errors

    constructor(initial: FormData, fetched: seq<Client>)
      ensures formData == initial && clients == fetched && errors == map[]
    {
      formData := initial;
      clients := fetched;
      errors := map[];
    }

    /** The populate effect, run when the invoice, the open flag or the clients change. */
    method Load(invoice: Invoice, isoDay: int -> string)
      modifies this
      ensures formData == Populate(invoice, clients, isoDay)
      ensures clients == old(clients) && errors == old(errors)
    {
      formData := Populate(invoice, clients, isoDay);
    }

    method AddItem()
      modifies this
      ensures formData == AddItemTo(old(formData))
      ensures clients == old(clients) && errors == old(errors)
    {
      formData := AddItemTo(formData);
    }

    method RemoveItem(index: int)
      modifies this
      ensures formData == old(formData).(items := InvoiceFormCommon.RemoveItem(old(formData).items, index))
      ensures |old(formData).items| >= 1 ==> |formData.items| >= 1
      ensures clients == old(clients) && errors == old(errors)
    {
      if |formData.items| > 1 {
        formData := formData.(items := WithoutIndex(formData.items, index));
      }
      RemoveItemSpec(old(formData).items, index);
    }

    method UpdateItem(index: int, edit: ItemEdit)
      modifies this
      ensures formData == old(formData).(items := InvoiceFormCommon.UpdateItem(old(formData).items, index, edit))
      ensures clients == old(clients) && errors == old(errors)
    {
      formData := formData.(items := InvoiceFormCommon.UpdateItem(formData.items, index, edit));
    }

    /** The quantity input's `onChange`. */
    method TypeQuantity(index: int, value: string)
      modifies this
      ensures formData == old(formData).(items := InvoiceFormCommon.UpdateItem(old(formData).items, index, SetQuantity(QuantityInput(value))))
      ensures clients == old(clients) && errors == old(errors)
    {
      formData := formData.(items := InvoiceFormCommon.UpdateItem(formData.items, index, SetQuantity(QuantityInput(value))));
    }

    method ChoosePaymentTerms(value: string)
      modifies this
      ensures formData == old(formData).(paymentTerms := DecodeTerms(value))
      ensures clients == old(clients) && errors == old(errors)
    {
      formData := formData.(paymentTerms := DecodeTerms(value));
    }

    /** `validateForm`: fills the errors and answers whether there are none. */
    method ValidateForm() returns (ok: bool)
      modifies this
      ensures errors == Validate(formData)
      ensures ok <==> errors == map[]
      ensures formData == old(formData) && clients == old(clients)
    {
      var header := HeaderErrors(formData, true);
      errors := CollectItemErrors(header, formData.items, Positive);
      ok := errors == map[];
    }
  }
}
