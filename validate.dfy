/**
 * `src/middleware/validate.ts`: `validate(schema)` parses the body, params
 * and query of a request; on success it overwrites the parts the schema
 * produced and passes the request on, on a `ZodError` it answers 400 with one
 * detail per issue, and any other error goes to `next(error)`.
 */
module Validate {
  import opened Wrappers
  import opened Json
  import opened Zod
  import opened Http
  import Strings

  /** A path segment as `Array.prototype.join` writes it. */
  function SegmentText(s: PathSegment): string
  {
    match s
    case Key(k) => k
    case Index(i) => Strings.DecimalText(i)
  }

  function SegmentTexts(path: Path): (texts: seq<string>)
    ensures |texts| == |path|
    ensures forall i :: 0 <= i < |path| ==> texts[i] == SegmentText(path[i])
  {
    seq(|path|, i requires 0 <= i < |path| => SegmentText(path[i]))
  }

  /** `issue.path.join('.')`. */
  function PathText(path: Path): string
  {
    Strings.Join(SegmentTexts(path), '.')
  }

  /** The joined path can be split back into its segments when no key holds a dot. */
  lemma PathTextSplits(path: Path)
    requires |path| >= 1
    requires forall i :: 0 <= i < |path| && path[i].Key? ==> '.' !in path[i].name
    ensures Strings.Split(PathText(path), '.') == SegmentTexts(path)
  {
    var texts := SegmentTexts(path);
    forall i | 0 <= i < |texts| ensures '.' !in texts[i] {
      if path[i].Index? {
        assert Strings.IsDigits(Strings.DecimalText(path[i].i));
      }
    }
    Strings.SplitJoin(texts, '.');
  }

  /** One `{ path, message }` entry per issue, in issue order. */
  function Details(issues: seq<Issue>): (details: seq<Json>)
    ensures |details| == |issues|
    ensures forall i :: 0 <= i < |issues| ==>
              details[i] == JObj(map["path" := JStr(PathText(issues[i].path)), "message" := JStr(issues[i].message)])
  {
    seq(|issues|, i requires 0 <= i < |issues| =>
      JObj(map["path" := JStr(PathText(issues[i].path)), "message" := JStr(issues[i].message)]))
  }

  /** The 400 answer to a request the schema rejected. */
  function ValidationFailure(issues: seq<Issue>): Reply
  {
    Reply(400, Some(JObj(map["error" := JStr("Validation error"), "details" := JArr(Details(issues))])))
  }

  /** The middleware `validate(schema)` returns, run on one request. */
  method Validate(schema: RequestParts -> Attempt<Validated>, req: Request) returns (outcome: Outcome)
    modifies req
    ensures var attempt := schema(old(req.Parts()));
      match attempt
      case Returned(v) =>
        && outcome == Next
        && req.body == (if v.body.Some? then v.body else old(req.body))
        && req.params == (if v.params.Some? then v.params.value else old(req.params))
        && req.query == (if v.query.Some? then v.query.value else old(req.query))
      case Raised(ZodError(issues)) =>
        outcome == Respond(ValidationFailure(issues)) && req.Parts() == old(req.Parts())
      case Raised(error) =>
        outcome == NextError(error) && req.Parts() == old(req.Parts())
  {
    var attempt := schema(RequestParts(req.body, req.params, req.query));
    match attempt {
      case Returned(validated) =>
        if validated.body.Some? {
          req.body := validated.body;
        }
        if validated.params.Some? {
          req.params := validated.params.value;
        }
        if validated.query.Some? {
          req.query := validated.query.value;
        }
        outcome := Next;
      case Raised(error) =>
        if error.ZodError? {
          outcome := Respond(ValidationFailure(error.issues));
        } else {
          outcome := NextError(error);
        }
    }
  }

  /** What a route gives back when its `validate` middleware did not pass the request on. */
  function Stopped(outcome: Outcome): HandlerResult
    requires !outcome.Next?
  {
    if outcome.Respond? then Sent(outcome.reply) else Thrown(outcome.error)
  }
}
