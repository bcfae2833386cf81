/**
 * The `/api/invoices` handlers (src/app/api/invoices/route.ts): each checks the caller first,
 * then the request, in a fixed order, and only then calls the invoice service once.
 */
module InvoiceRoutes {
  import opened Wrappers
  import opened Json
  import opened Domain
  import opened Http
  import ApiValidation

  // ---------------------------------------------------------------- GET

  function GetInvoices(user: Option<string>): (d: Decision<string>)
    ensures d.Reply? <==> !HasUser(user)
    ensures d.Reply? ==> d.response == Unauthorized
    ensures d.Invoke? ==> d.call == user.value
  {
    if !HasUser(user) then Reply(Unauthorized) else Invoke(user.value)
  }

  function GetInvoicesResponse(outcome: Outcome<Json>): (r: Response)
    ensures outcome.Ok? ==> r == Success(outcome.value)
    ensures outcome.Err? ==> r == Error(500, "Failed to fetch invoices")
  {
    match outcome
    case Ok(invoices) => Success(invoices)
    case Err(_) => Error(500, "Failed to fetch invoices")
  }

  // ---------------------------------------------------------------- PATCH

  /** `updateInvoiceStatus(id, status, paymentData, userId)`. */
  datatype StatusChange = StatusChange(id: Json, status: Status, paymentData: Json, userId: string)

  /** The list the handler checks against, spelled out in the handler itself. */
  const PatchStatuses: seq<string> := ["paid", "pending", "draft", "overdue"]

  /**
   * The string `uuidRegex.test(id)` examines. The test converts its argument to a string: a
   * string is itself and an array of one element is that element's string; every other value
   * (a number, a boolean, `null`, an object, an array of another length) converts to a text that
   * cannot have hyphens at positions 8, 13, 18 and 23 and no comma, so the empty string stands for it.
   */
  function UuidSubject(j: Json): string {
    match j
    case JStr(s) => s
    case JArr(es) => if |es| == 1 then UuidSubject(es[0]) else ""
    case _ => ""
  }

  const PatchFailed: Response := Error(500, "Failed to update invoice")

  function PatchInvoice(user: Option<string>, body: Body): (d: Decision<StatusChange>)
  {
    if !HasUser(user) then Reply(Unauthorized)
    else if body.None? || IsNullish(body.value) then Reply(PatchFailed)
    else
      var id := Get(body.value, "id");
      var status := Get(body.value, "status");
      if !Truthy(id) || !Truthy(status) then Reply(Error(400, "Invoice ID and status are required"))
      else if !(status.JStr? && status.s in PatchStatuses) then Reply(Error(400, "Invalid invoice status"))
      else if !ApiValidation.IsValidUUID(UuidSubject(id)) then Reply(Error(400, "Invalid invoice ID format"))
      else match ApiValidation.ParseStatus(status.s)
        case Some(st) => Invoke(StatusChange(id, st, Get(body.value, "paymentData"), user.value))
        case None => Reply(Error(400, "Invalid invoice status"))
  }

  function PatchResponse(outcome: Outcome<Option<Json>>): (r: Response)
    ensures outcome.Ok? && outcome.value.None? ==> r == Error(404, "Invoice not found")
    ensures outcome.Ok? && outcome.value.Some? ==> r == Success(outcome.value.value)
    ensures outcome.Err? ==> r == PatchFailed
  {
    match outcome
    case Ok(None) => Error(404, "Invoice not found")
    case Ok(Some(inv)) => Success(inv)
    case Err(_) => PatchFailed
  }

  /** The handler's list is the validator's list. */
  lemma PatchStatusesAreValid(s: string)
    ensures s in PatchStatuses <==> ApiValidation.IsValidInvoiceStatus(s)
  {
    assert PatchStatuses == ApiValidation.ValidStatuses;
  }

  /**
   * The update is called exactly when there is a caller, the body parses to a non-nullish value,
   * id and status are truthy, status is one of the four names and id passes the UUID test; the
   * call carries the parsed status, the id and paymentData as sent, and the caller's id.
   */
  lemma PatchCallsOnlyWhenValid(user: Option<string>, body: Body)
    ensures PatchInvoice(user, body).Invoke? <==>
      HasUser(user) && body.Some? && !IsNullish(body.value)
      && Truthy(Get(body.value, "id"))
      && Get(body.value, "status").JStr? && ApiValidation.IsValidInvoiceStatus(Get(body.value, "status").s)
      && ApiValidation.IsValidUUID(UuidSubject(Get(body.value, "id")))
    ensures PatchInvoice(user, body).Invoke? ==>
      var c := PatchInvoice(user, body).call;
      && StatusName(c.status) == Get(body.value, "status").s
      && c.id == Get(body.value, "id") && c.paymentData == Get(body.value, "paymentData")
      && c.userId == user.value
  {
    if HasUser(user) && body.Some? && !IsNullish(body.value) {
      var status := Get(body.value, "status");
      if status.JStr? {
        PatchStatusesAreValid(status.s);
        ApiValidation.ValidStatusIffName(status.s);
      }
    }
  }

  /**
   * The guards answer in order: 401 before anything else, then 500 for a body that cannot be
   * read, then the three 400s in the order presence, status, id format.
   */
  lemma PatchGuardOrder(user: Option<string>, body: Body)
    ensures !HasUser(user) ==> PatchInvoice(user, body) == Reply(Unauthorized)
    ensures HasUser(user) && (body.None? || IsNullish(body.value)) ==> PatchInvoice(user, body) == Reply(PatchFailed)
    ensures HasUser(user) && body.Some? && !IsNullish(body.value)
              && (!Truthy(Get(body.value, "id")) || !Truthy(Get(body.value, "status"))) ==>
            PatchInvoice(user, body) == Reply(Error(400, "Invoice ID and status are required"))
    ensures HasUser(user) && body.Some? && !IsNullish(body.value)
              && Truthy(Get(body.value, "id")) && Truthy(Get(body.value, "status"))
              && !(Get(body.value, "status").JStr? && ApiValidation.IsValidInvoiceStatus(Get(body.value, "status").s)) ==>
            PatchInvoice(user, body) == Reply(Error(400, "Invalid invoice status"))
    ensures HasUser(user) && body.Some? && !IsNullish(body.value)
              && Truthy(Get(body.value, "id"))
              && Get(body.value, "status").JStr? && ApiValidation.IsValidInvoiceStatus(Get(body.value, "status").s)
              && !ApiValidation.IsValidUUID(UuidSubject(Get(body.value, "id"))) ==>
            PatchInvoice(user, body) == Reply(Error(400, "Invalid invoice ID format"))
  {
    if body.Some? && !IsNullish(body.value) {
      var status := Get(body.value, "status");
      if status.JStr? {
        PatchStatusesAreValid(status.s);
      }
    }
  }

  /** An id that is an array holding one valid UUID string passes the format check. */
  lemma PatchIdArrayPasses(u: string)
    requires ApiValidation.IsValidUUID(u)
    ensures ApiValidation.IsValidUUID(UuidSubject(JArr([JStr(u)])))
  {
  }

  // ---------------------------------------------------------------- POST

  /** `createInvoice({ ...body, clientId: body.clientId }, userId)`: the body itself. */
  datatype NewInvoice = NewInvoice(data: Json, userId: string)

  const PostFailed: Response := Error(500, "Failed to create invoice")

  predicate IsNumber(j: Json) { j.JNum? }

  function PostInvoice(user: Option<string>, body: Body): (d: Decision<NewInvoice>)
  {
    if !HasUser(user) then Reply(Unauthorized)
    else if body.None? || IsNullish(body.value) then Reply(PostFailed)
    else
      var b := body.value;
      var items := Get(b, "items");
      if !Truthy(Get(b, "clientId")) || !Truthy(items) || !items.JArr? || |items.elems| == 0 then
        Reply(Error(400, "Client ID and at least one item are required"))
      else if !IsNumber(Get(b, "subtotal")) || !IsNumber(Get(b, "tax")) || !IsNumber(Get(b, "total")) then
        Reply(Error(400, "Invalid subtotal, tax, or total values"))
      else Invoke(NewInvoice(b, user.value))
  }

  function PostResponse(outcome: Outcome<Json>): (r: Response)
    ensures outcome.Ok? ==> r == Created(outcome.value)
    ensures outcome.Err? ==> r == PostFailed
  {
    match outcome
    case Ok(inv) => Created(inv)
    case Err(_) => PostFailed
  }

  /**
   * The invoice is created exactly when there is a caller, clientId is truthy, items is a
   * non-empty array and subtotal, tax and total are numbers; their sum is not checked.
   */
  lemma PostCallsOnlyWhenValid(user: Option<string>, body: Body)
    ensures PostInvoice(user, body).Invoke? <==>
      HasUser(user) && body.Some? && !IsNullish(body.value)
      && Truthy(Get(body.value, "clientId"))
      && Get(body.value, "items").JArr? && |Get(body.value, "items").elems| > 0
      && IsNumber(Get(body.value, "subtotal")) && IsNumber(Get(body.value, "tax")) && IsNumber(Get(body.value, "total"))
    ensures PostInvoice(user, body).Invoke? ==> PostInvoice(user, body).call == NewInvoice(body.value, user.value)
    ensures !HasUser(user) ==> PostInvoice(user, body) == Reply(Unauthorized)
  {
  }

  /** The two 400s answer in order: the client and items first, then the three numbers. */
  lemma PostGuardOrder(user: Option<string>, body: Body)
    requires HasUser(user) && body.Some? && !IsNullish(body.value)
    ensures !Truthy(Get(body.value, "clientId")) || !Get(body.value, "items").JArr? || Get(body.value, "items").elems == [] ==>
      PostInvoice(user, body) == Reply(Error(400, "Client ID and at least one item are required"))
    ensures Truthy(Get(body.value, "clientId")) && Get(body.value, "items").JArr? && Get(body.value, "items").elems != []
            && !(IsNumber(Get(body.value, "subtotal")) && IsNumber(Get(body.value, "tax")) && IsNumber(Get(body.value, "total"))) ==>
      PostInvoice(user, body) == Reply(Error(400, "Invalid subtotal, tax, or total values"))
  {
  }

  /** Totals that do not add up are accepted. */
  lemma PostIgnoresTotalMismatch(user: string, items: seq<Json>)
    requires user != "" && items != []
    ensures PostInvoice(Some(user), Some(JObj(map["clientId" := JStr("c"), "items" := JArr(items),
                "subtotal" := JNum(10.0), "tax" := JNum(0.0), "total" := JNum(99.0)]))).Invoke?
  {
    var b := JObj(map["clientId" := JStr("c"), "items" := JArr(items),
                "subtotal" := JNum(10.0), "tax" := JNum(0.0), "total" := JNum(99.0)]);
    assert Get(b, "clientId") == JStr("c");
    assert Get(b, "items") == JArr(items);
    assert Get(b, "subtotal") == JNum(10.0);
    assert Get(b, "tax") == JNum(0.0);
    assert Get(b, "total") == JNum(99.0);
  }
}
