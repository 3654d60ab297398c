/**
 * `src/middleware/errorHandler.ts`: the last handler turns an error into a
 * 400 (a `ZodError`) or a 500 (a database error, or anything else, whose
 * message is hidden when `NODE_ENV` is `production`).  It never calls `next`.
 */
module ErrorHandler {
  import opened Wrappers
  import opened Json
  import opened Zod
  import opened Http

  const ValidationMessage := "Ошибка валидации"
  const DatabaseMessage := "Ошибка базы данных"
  const InternalMessage := "Внутренняя ошибка сервера"

  function CodeName(code: IssueCode): string
  {
    match code
    case InvalidType => "invalid_type"
    case TooSmall => "too_small"
    case InvalidFormat => "invalid_format"
    case InvalidValue => "invalid_value"
  }

  function SegmentJson(s: PathSegment): Json
  {
    match s
    case Key(k) => JStr(k)
    case Index(i) => JNum(i)
  }

  /** An issue as `res.json` writes it. */
  function IssueJson(issue: Issue): Json
  {
    JObj(map["code" := JStr(CodeName(issue.code)),
             "path" := JArr(seq(|issue.path|, i requires 0 <= i < |issue.path| => SegmentJson(issue.path[i]))),
             "message" := JStr(issue.message)])
  }

  /** `errorHandler(err, req, res, next)`; `nodeEnv` is `process.env.NODE_ENV` as the process has it. */
  function HandleError(err: Error, nodeEnv: Option<string>): (reply: Reply)
    ensures reply.status == 400 || reply.status == 500
    ensures reply.status == 400 <==> err.ZodError?
    ensures err.ZodError? ==>
              reply.body == Some(JObj(map["error" := JStr(ValidationMessage),
                                          "details" := JArr(seq(|err.issues|, i requires 0 <= i < |err.issues| => IssueJson(err.issues[i])))]))
    ensures err.JsError? && err.name == KnownRequestError ==> reply.body == Some(ErrorBody(DatabaseMessage))
    ensures err.JsError? && err.name != KnownRequestError ==>
              reply.body == Some(ErrorBody(if nodeEnv == Some("production") then InternalMessage else err.message))
  {
    if err.ZodError? then
      Reply(400, Some(JObj(map["error" := JStr(ValidationMessage),
                               "details" := JArr(seq(|err.issues|, i requires 0 <= i < |err.issues| => IssueJson(err.issues[i])))])))
    else if err.name == KnownRequestError then
      Reply(500, Some(ErrorBody(DatabaseMessage)))
    else
      Reply(500, Some(ErrorBody(if nodeEnv == Some("production") then InternalMessage else err.message)))
  }

  /** In production no error's own message reaches the client. */
  lemma ProductionHidesMessages(err: Error)
    requires err.JsError?
    ensures var body := HandleError(err, Some("production")).body;
      body == Some(ErrorBody(DatabaseMessage)) || body == Some(ErrorBody(InternalMessage))
  {
  }
}
