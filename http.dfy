/**
 * What the route handlers return, and how a handler is cut into the part that decides and the
 * service call it makes. The caller's identity arrives already extracted from the request: the
 * token decoding is not part of this model.
 */
module Http {
  import opened Wrappers
  import opened Json

  /** `NextResponse.json(body, { status })`. */
  datatype Response = Response(status: nat, body: Json)

  /** `{ error: message }` with the given status. */
  function Error(status: nat, message: string): Response {
    Response(status, JObj(map["error" := JStr(message)]))
  }

  function Success(body: Json): Response { Response(200, body) }

  function Created(body: Json): Response { Response(201, body) }

  const Unauthorized: Response := Error(401, "Unauthorized")

  /** `if (!userId)`: no id was extracted from the request, or it is empty. */
  predicate HasUser(user: Option<string>) { user.Some? && user.value != "" }

  /**
   * A handler either answers from its guards, or makes exactly one service call, described by
   * `call`; the answer to a call is computed from the call's outcome separately.
   */
  datatype Decision<C> = Reply(response: Response) | Invoke(call: C)

  /** A request body: `None` when `request.json()` cannot parse it (the handler's catch answers 500). */
  type Body = Option<Json>

  /** The outcome of a service call: the value it resolves to, or an exception (answered with 500). */
  type Outcome<T> = Result<T, string>
}
