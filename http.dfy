/**
 * What the service's middleware and handlers exchange with Express: the
 * request parts zod validates, replies, thrown errors and the outcome of a
 * middleware (call `next()`, call `next(error)`, or answer).
 */
module Http {
  import opened Wrappers
  import opened Json
  import opened Zod

  /** An exception as the handlers and `errorHandler` see it. */
  datatype Error =
    | ZodError(issues: seq<Issue>)
    | JsError(name: string, message: string, code: Option<string>)

  /** The class name Prisma gives a known request error (`P2002`, `P2025`, ...). */
  const KnownRequestError := "PrismaClientKnownRequestError"

  /** A response: its status and its JSON body; `None` is the empty body of `send()`. */
  datatype Reply = Reply(status: int, body: Option<Json>)

  /** What a middleware does with a request. */
  datatype Outcome = Next | NextError(error: Error) | Respond(reply: Reply)

  /** How a route handler ends: it sends a reply, or an exception leaves it. */
  datatype HandlerResult = Sent(reply: Reply) | Thrown(error: Error)

  /** A call that returns a value or throws. */
  datatype Attempt<+T> = Returned(value: T) | Raised(error: Error)

  /** `{ body: req.body, params: req.params, query: req.query }`, the object every schema parses. */
  datatype RequestParts = RequestParts(body: Option<Json>, params: Json, query: Json)

  /** The parsed object: a schema's output holds only the parts its shape names. */
  datatype Validated = Validated(body: Option<Json>, params: Option<Json>, query: Option<Json>)

  /** `schema.parseAsync(value)`: resolves with the output, or rejects with a `ZodError`. */
  function ParseAsync(p: Parsed<Validated>): (a: Attempt<Validated>)
    ensures a.Returned? <==> p.Ok?
    ensures p.Invalid? ==> a == Raised(ZodError(p.issues))
  {
    match p
    case Ok(v) => Returned(v)
    case Invalid(issues) => Raised(ZodError(issues))
  }

  /** The three parts of an Express request that validation reads and overwrites. */
  class Request {
    var body: Option<Json>
    var params: Json
    var query: Json

    constructor (body: Option<Json>, params: Json, query: Json)
      ensures this.body == body && this.params == params && this.query == query
    {
      this.body := body;
      this.params := params;
      this.query := query;
    }

    function Parts(): RequestParts
      reads this
    {
      RequestParts(body, params, query)
    }
  }
}
