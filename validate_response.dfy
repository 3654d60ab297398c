/**
 * `src/middleware/validateResponse.ts`: the middleware replaces `res.json`
 * by a function that parses the body with a schema before sending it, and
 * sends `{ error: 'Response validation failed' }` instead when parsing
 * throws.  The replacement keeps the status already set.
 */
module ValidateResponse {
  import opened Wrappers
  import opened Json
  import opened Http

  type Schema = Json -> Attempt<Json>

  const Substitute := ErrorBody("Response validation failed")

  /** The body the replaced `res.json(data)` hands to the `res.json` it wraps. */
  function Checked(schema: Schema, data: Json): (body: Json)
    ensures schema(data).Returned? ==> body == schema(data).value
    ensures schema(data).Raised? ==> body == Substitute
  {
    match schema(data)
    case Returned(v) => v
    case Raised(_) => Substitute
  }

  /**
   * The body that leaves after every installed schema has run: the schema
   * installed last wraps the others, so it sees the data first.
   */
  function Filtered(schemas: seq<Schema>, data: Json): Json
    decreases |schemas|
  {
    if schemas == [] then data
    else Filtered(schemas[..|schemas| - 1], Checked(schemas[|schemas| - 1], data))
  }

  /** The response an Express handler writes: its status, what was sent, and the wrappers around `json`. */
  class Response {
    var statusCode: int
    var sent: Option<Json>
    var schemas: seq<Schema>

    constructor ()
      ensures statusCode == 200 && sent == None && schemas == []
    {
      statusCode := 200;
      sent := None;
      schemas := [];
    }

    /** `res.status(code)`. */
    method Status(code: int)
      modifies this
      ensures statusCode == code && sent == old(sent) && schemas == old(schemas)
    {
      statusCode := code;
    }

    /** `res.json(data)`, through every replacement installed so far. */
    method Json(data: Json)
      modifies this
      ensures statusCode == old(statusCode) && schemas == old(schemas)
      ensures sent == Some(Filtered(schemas, data))
    {
      sent := Some(Filtered(schemas, data));
    }
  }

  /** `validateResponse(schema)` run on one request: replace `res.json`, then `next()`. */
  method ValidateResponse(schema: Schema, res: Response) returns (outcome: Outcome)
    modifies res
    ensures outcome == Next
    ensures res.schemas == old(res.schemas) + [schema]
    ensures res.statusCode == old(res.statusCode) && res.sent == old(res.sent)
  {
    res.schemas := res.schemas + [schema];
    outcome := Next;
  }

  /** With one schema installed, an accepted body goes out parsed and a rejected one is replaced. */
  lemma SingleSchema(schema: Schema, data: Json)
    ensures Filtered([schema], data) == if schema(data).Returned? then schema(data).value else Substitute
  {
  }

  /** A handler's `res.status(code).json(data)` after the middleware: the status stays, the body is checked. */
  method StatusThenJson(schema: Schema, code: int, data: Json) returns (res: Response)
    ensures res.statusCode == code
    ensures res.sent == Some(if schema(data).Returned? then schema(data).value else Substitute)
  {
    res := new Response();
    var outcome := ValidateResponse(schema, res);
    res.Status(code);
    res.Json(data);
    SingleSchema(schema, data);
  }
}
