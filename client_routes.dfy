/**
 * The `/api/clients` handlers (src/app/api/clients/route.ts): GET dispatches on the query
 * parameters to one of three service reads, POST checks the required address fields.
 */
module ClientRoutes {
  import opened Wrappers
  import opened Json
  import opened Http

  // ---------------------------------------------------------------- GET

  /** The service read the GET handler makes. */
  datatype ClientQuery =
    | SearchClients(term: string, userId: string)
    | ClientsWithCounts(userId: string)
    | AllClients(userId: string)

  /**
   * `search` and `withCounts` are `searchParams.get(...)`: the parameter's value, or `None` when
   * the query string does not have it.
   */
  function GetClients(user: Option<string>, search: Option<string>, withCounts: Option<string>): (d: Decision<ClientQuery>)
  {
    if !HasUser(user) then Reply(Unauthorized)
    else if search.Some? && search.value != "" then Invoke(SearchClients(search.value, user.value))
    else if withCounts == Some("true") then Invoke(ClientsWithCounts(user.value))
    else Invoke(AllClients(user.value))
  }

  /**
   * A non-empty search wins over withCounts; withCounts must be exactly "true"; otherwise every
   * client is read. Each read is for the caller.
   */
  lemma GetClientsDispatch(user: Option<string>, search: Option<string>, withCounts: Option<string>)
    ensures !HasUser(user) <==> GetClients(user, search, withCounts) == Reply(Unauthorized)
    ensures HasUser(user) ==> GetClients(user, search, withCounts).Invoke?
    ensures HasUser(user) ==>
      var q := GetClients(user, search, withCounts).call;
      && (q.SearchClients? <==> search.Some? && search.value != "")
      && (q.SearchClients? ==> q.term == search.value)
      && (q.ClientsWithCounts? <==> (search.None? || search.value == "") && withCounts == Some("true"))
      && (q.AllClients? <==> (search.None? || search.value == "") && withCounts != Some("true"))
      && q.userId == user.value
  {
  }

  function GetClientsResponse(outcome: Outcome<Json>): (r: Response)
    ensures outcome.Ok? ==> r == Success(outcome.value)
    ensures outcome.Err? ==> r == Error(500, "Failed to fetch clients")
  {
    match outcome
    case Ok(clients) => Success(clients)
    case Err(_) => Error(500, "Failed to fetch clients")
  }

  // ---------------------------------------------------------------- POST

  datatype NewClient = NewClient(data: Json, userId: string)

  const PostFailed: Response := Error(500, "Failed to create client")

  const RequiredFields: seq<string> := ["name", "address", "city", "state", "zipCode"]

  predicate HasRequiredFields(data: Json) {
    Truthy(Get(data, "name")) && Truthy(Get(data, "address")) && Truthy(Get(data, "city"))
    && Truthy(Get(data, "state")) && Truthy(Get(data, "zipCode"))
  }

  function PostClient(user: Option<string>, body: Body): (d: Decision<NewClient>)
  {
    if !HasUser(user) then Reply(Unauthorized)
    else if body.None? || IsNullish(body.value) then Reply(PostFailed)
    else if !HasRequiredFields(body.value) then
      Reply(Error(400, "Name, address, city, state, and zip code are required"))
    else Invoke(NewClient(body.value, user.value))
  }

  /**
   * 401 without a caller; otherwise the client is created, from the body as sent, exactly when
   * each of the five required fields is truthy; email (or anything else) is not required.
   */
  lemma PostClientGuard(user: Option<string>, body: Body)
    ensures !HasUser(user) ==> PostClient(user, body) == Reply(Unauthorized)
    ensures PostClient(user, body).Invoke? <==>
      HasUser(user) && body.Some? && !IsNullish(body.value)
      && forall k :: 0 <= k < |RequiredFields| ==> Truthy(Get(body.value, RequiredFields[k]))
    ensures PostClient(user, body).Invoke? ==> PostClient(user, body).call == NewClient(body.value, user.value)
  {
    if HasUser(user) && body.Some? && !IsNullish(body.value) && !HasRequiredFields(body.value) {
      var b := body.value;
      if !Truthy(Get(b, "name")) { assert !Truthy(Get(b, RequiredFields[0])); }
      else if !Truthy(Get(b, "address")) { assert !Truthy(Get(b, RequiredFields[1])); }
      else if !Truthy(Get(b, "city")) { assert !Truthy(Get(b, RequiredFields[2])); }
      else if !Truthy(Get(b, "state")) { assert !Truthy(Get(b, RequiredFields[3])); }
      else { assert !Truthy(Get(b, RequiredFields[4])); }
    }
  }

  /** A client with the five fields and no email is created. */
  lemma EmailNotRequired(user: string, data: Json)
    requires user != "" && HasRequiredFields(data) && Get(data, "email") == JUndefined
    ensures PostClient(Some(user), Some(data)) == Invoke(NewClient(data, user))
  {
  }

  function PostClientResponse(outcome: Outcome<Json>): (r: Response)
    ensures outcome.Ok? ==> r == Created(outcome.value)
    ensures outcome.Err? ==> r == PostFailed
  {
    match outcome
    case Ok(client) => Created(client)
    case Err(_) => PostFailed
  }
}
