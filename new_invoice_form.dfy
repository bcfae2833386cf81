/**
 * The create-invoice dialog (src/components/NewInvoiceForm.tsx): the client's default price and
 * the two rules that apply it to the items, the course check that depends on the client, the
 * validation with the `quantity >= 0.01` rule, and the POST body. The clients list, the next
 * invoice number and `Date.now()` are inputs; the fetches are not part of this model.
 */
module NewInvoiceForm {
  import opened Wrappers
  import opened Seqs
  import opened Domain
  import opened InvoiceFormCommon

  /** `clients.find(c => c.id === clientId)?.defaultUnitPrice || 0`. */
  function DefaultPrice(clients: seq<Client>, clientId: string): (p: real)
    ensures FindClientById(clients, clientId).Some? && FindClientById(clients, clientId).value.defaultUnitPrice.Some?
      ==> p == FindClientById(clients, clientId).value.defaultUnitPrice.value
    ensures FindClientById(clients, clientId).None? || FindClientById(clients, clientId).value.defaultUnitPrice.None?
      ==> p == 0.0
  {
    match FindClientById(clients, clientId)
    case None => 0.0
    case Some(c) => if c.defaultUnitPrice.Some? then c.defaultUnitPrice.value else 0.0
  }

  /** `selectedClient?.requiresCourseInfo`. */
  predicate RequiresCourse(clients: seq<Client>, clientId: string) {
    FindClientById(clients, clientId).Some? && FindClientById(clients, clientId).value.requiresCourseInfo
  }

  /** Every item at the given price. */
  function WithAllPrices(items: seq<LineItem>, price: real): (r: seq<LineItem>)
    ensures |r| == |items|
    ensures forall i :: 0 <= i < |items| ==> r[i] == items[i].(unitPrice := price)
  {
    seq(|items|, i requires 0 <= i < |items| => items[i].(unitPrice := price))
  }

  /** Zero prices replaced by the given price; other prices kept. */
  function WithZeroPricesFilled(items: seq<LineItem>, price: real): (r: seq<LineItem>)
    ensures |r| == |items|
    ensures forall i :: 0 <= i < |items| ==>
      r[i] == if items[i].unitPrice == 0.0 then items[i].(unitPrice := price) else items[i]
  {
    seq(|items|, i requires 0 <= i < |items| =>
      if items[i].unitPrice == 0.0 then items[i].(unitPrice := price) else items[i])
  }

  /** The client select's `onValueChange`: the new client, and every item at its default price. */
  function SelectClient(f: FormData, clients: seq<Client>, clientId: string): FormData {
    f.(clientId := clientId, items := WithAllPrices(f.items, DefaultPrice(clients, clientId)))
  }

  /** The effect on `[formData.clientId, clients]`: only items still at price 0 take the default. */
  function ClientPriceEffect(f: FormData, clients: seq<Client>): FormData {
    if f.clientId != "" && |clients| > 0 then
      f.(items := WithZeroPricesFilled(f.items, DefaultPrice(clients, f.clientId)))
    else f
  }

  /**
   * Selecting a client prices every item at its default, whatever it was; nothing else of the form
   * changes besides the client id.
   */
  lemma SelectClientPrices(f: FormData, clients: seq<Client>, clientId: string)
    ensures var g := SelectClient(f, clients, clientId);
      && g.clientId == clientId
      && |g.items| == |f.items|
      && (forall i :: 0 <= i < |g.items| ==>
            g.items[i].unitPrice == DefaultPrice(clients, clientId)
            && g.items[i].description == f.items[i].description
            && g.items[i].quantity == f.items[i].quantity)
      && g.(clientId := f.clientId, items := f.items) == f
  {
  }

  /** The effect keeps every non-zero price, and prices each zero-priced item at the default. */
  lemma ClientPriceEffectPrices(f: FormData, clients: seq<Client>)
    requires f.clientId != "" && |clients| > 0
    ensures var g := ClientPriceEffect(f, clients);
      && |g.items| == |f.items|
      && (forall i :: 0 <= i < |f.items| && f.items[i].unitPrice != 0.0 ==> g.items[i] == f.items[i])
      && (forall i :: 0 <= i < |f.items| && f.items[i].unitPrice == 0.0 ==>
            g.items[i] == f.items[i].(unitPrice := DefaultPrice(clients, f.clientId)))
  {
  }

  /** Running the effect again changes nothing. */
  lemma ClientPriceEffectIdempotent(f: FormData, clients: seq<Client>)
    ensures ClientPriceEffect(ClientPriceEffect(f, clients), clients) == ClientPriceEffect(f, clients)
  {
    var g := ClientPriceEffect(f, clients);
    if f.clientId != "" && |clients| > 0 {
      var p := DefaultPrice(clients, f.clientId);
      assert WithZeroPricesFilled(g.items, p) == g.items;
    }
  }

  /** After a selection the effect that follows it has nothing left to change. */
  lemma EffectAfterSelect(f: FormData, clients: seq<Client>, clientId: string)
    ensures var g := SelectClient(f, clients, clientId);
      ClientPriceEffect(g, clients) == g
  {
    var g := SelectClient(f, clients, clientId);
    if g.clientId != "" && |clients| > 0 {
      assert WithZeroPricesFilled(g.items, DefaultPrice(clients, clientId)) == g.items;
    }
  }

  /** `addItem`: a blank item at the selected client's default price. */
  function AddItemTo(f: FormData, clients: seq<Client>): FormData {
    f.(items := AddItem(f.items, DefaultPrice(clients, f.clientId)))
  }

  /** `validateForm`'s dictionary: course fields only for a client that requires them. */
  function Validate(f: FormData, clients: seq<Client>): Errors {
    FormErrors(f, RequiresCourse(clients, f.clientId), AtLeastOneHundredth)
  }

  /**
   * The form passes exactly when the client and both dates are set, the course fields are filled
   * in if the client requires them, and every item has a description, a quantity of at least 0.01
   * and a non-negative price.
   */
  lemma ValidatePassesIff(f: FormData, clients: seq<Client>)
    ensures Validate(f, clients) == map[] <==>
      && f.clientId != "" && f.issuedDate != "" && f.dueDate != ""
      && (RequiresCourse(clients, f.clientId) ==> CourseComplete(f.courseInfo))
      && forall i :: 0 <= i < |f.items| ==>
           !Blank(f.items[i].description) && f.items[i].quantity >= 0.01 && f.items[i].unitPrice >= 0.0
  {
    FormErrorsEmptyIff(f, RequiresCourse(clients, f.clientId), AtLeastOneHundredth);
  }

  /** A client without the course flag lets empty course fields through. */
  lemma CourseOnlyWhenRequired(f: FormData, clients: seq<Client>)
    requires !RequiresCourse(clients, f.clientId)
    ensures CourseNameKey !in Validate(f, clients)
  {
    FormErrorsHeaderKeys(f, false, AtLeastOneHundredth);
  }

  /** `handleSubmit`: nothing unless the form passes, else the POST body. */
  function Submit(f: FormData, clients: seq<Client>, number: string, stamp: int): (r: Option<Payload>)
    ensures r.Some? <==> Validate(f, clients) == map[]
    ensures r.Some? ==>
      && r.value.number == number && r.value.clientId == f.clientId && r.value.status == f.status
      && r.value.subtotal == CalculateTotals(f.items).subtotal && r.value.tax == 0.0
      && r.value.total == r.value.subtotal
      && Sum(r.value.items, ItemAmountOf) == r.value.total
      && r.value.paymentTerms == f.paymentTerms
      && (r.value.courseInfo.Some? <==> RequiresCourse(clients, f.clientId))
      && (r.value.courseInfo.Some? ==> r.value.courseInfo.value == f.courseInfo)
      && (r.value.notes.Some? <==> f.notes != "")
  {
    if Validate(f, clients) != map[] then None
    else
      var course := if RequiresCourse(clients, f.clientId) then Some(f.courseInfo) else None;
      Some(BuildPayload(f, number, course, stamp))
  }

  /** The form the dialog opens with (and is reset to): settings defaults, today, one blank item. */
  function InitialForm(defaultStatus: Option<Status>, defaultTerms: Option<PaymentTerms>,
                       defaultNotes: Option<string>, today: string): FormData
  {
    FormData("", if defaultStatus.Some? then defaultStatus.value else Draft, today, "",
             if defaultTerms.Some? then TermsOfOption(defaultTerms.value) else FormTerms(Some(30), "Net 30"),
             OrString(defaultNotes, ""), [LineItem("", 1.0, 0.0)], EmptyCourse)
  }

  /** The opening form cannot be submitted: no client is selected and its item has no description. */
  lemma InitialFormRejected(defaultStatus: Option<Status>, defaultTerms: Option<PaymentTerms>,
                            defaultNotes: Option<string>, today: string, clients: seq<Client>)
    ensures var f := InitialForm(defaultStatus, defaultTerms, defaultNotes, today);
      && ClientKey in Validate(f, clients)
      && ItemKey(0, DescriptionField) in Validate(f, clients)
      && Submit(f, clients, "", 0).None?
  {
    var f := InitialForm(defaultStatus, defaultTerms, defaultNotes, today);
    var course := RequiresCourse(clients, f.clientId);
    FormErrorsHeaderKeys(f, course, AtLeastOneHundredth);
    FormErrorsItemKey(f, course, AtLeastOneHundredth, 0, DescriptionField);
    assert Blank(f.items[0].description);
  }

  /**
   * The dialog's state: the form, the fetched clients and the shown errors. The handlers that
   * set one plain field (dates, notes, status, course fields) are record updates of `formData`
   * and are not methods here.
   */
  class Form {
    var formData: FormData
    var clients: seq<Client>
    var errors: Errors

    constructor(initial: FormData, fetched: seq<Client>)
      ensures formData == initial && clients == fetched && errors == map[]
    {
      formData := initial;
      clients := fetched;
      errors := map[];
    }

    method AddItem()
      modifies this
      ensures formData == AddItemTo(old(formData), clients)
      ensures clients == old(clients) && errors == old(errors)
    {
      formData := AddItemTo(formData, clients);
    }

    method RemoveItem(index: int)
      modifies this
      ensures formData == old(formData).(items := InvoiceFormCommon.RemoveItem(old(formData).items, index))
      ensures |old(formData).items| >= 1 ==> |formData.items| >= 1
      ensures clients == old(clients) && errors == old(errors)
    {
      if |formData.items| > 1 {
        formData := formData.(items := WithoutIndex(formData.items, index));
      }
      RemoveItemSpec(old(formData).items, index);
    }

    method UpdateItem(index: int, edit: ItemEdit)
      modifies this
      ensures formData == old(formData).(items := InvoiceFormCommon.UpdateItem(old(formData).items, index, edit))
      ensures clients == old(clients) && errors == old(errors)
    {
      formData := formData.(items := InvoiceFormCommon.UpdateItem(formData.items, index, edit));
    }

    /** The client select, then the effect it triggers, which finds nothing left to do. */
    method ChooseClient(clientId: string)
      modifies this
      ensures formData == SelectClient(old(formData), clients, clientId)
      ensures formData == ClientPriceEffect(formData, clients)
      ensures clients == old(clients) && errors == old(errors)
    {
      formData := SelectClient(formData, clients, clientId);
      EffectAfterSelect(old(formData), clients, clientId);
    }

    /** The payment-terms select's `onValueChange`. */
    method ChoosePaymentTerms(value: string)
      modifies this
      ensures formData == old(formData).(paymentTerms := DecodeTerms(value))
      ensures clients == old(clients) && errors == old(errors)
    {
      formData := formData.(paymentTerms := DecodeTerms(value));
    }

    /** `validateForm`: fills the errors and answers whether there are none. */
    method ValidateForm() returns (ok: bool)
      modifies this
      ensures errors == Validate(formData, clients)
      ensures ok <==> errors == map[]
      ensures formData == old(formData) && clients == old(clients)
    {
      var header := HeaderErrors(formData, RequiresCourse(clients, formData.clientId));
      errors := CollectItemErrors(header, formData.items, AtLeastOneHundredth);
      ok := errors == map[];
    }
  }
}
