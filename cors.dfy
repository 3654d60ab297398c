/**
 * The `origin` callback of `src/middleware/cors.ts`: with no allow-list every
 * origin passes; otherwise an origin passes when it is one of the entries of
 * `CORS_ORIGIN` split on commas, compared exactly.
 */
module Cors {
  import opened Wrappers
  import opened Http
  import opened Json
  import Strings
  import ErrorHandler

  const NotAllowed := JsError("Error", "Not allowed by CORS policy", None)

  /** The one call the callback receives: `callback(null, true)` or `callback(error)`. */
  datatype Decision = Allow | Deny(error: Error)

  /** `origin(origin, callback)`, with `allowList` the configured `CORS_ORIGIN`. */
  function OriginDecision(origin: Option<string>, allowList: Option<string>): (d: Decision)
    ensures d == Allow <==>
              || origin.None? || origin.value == ""
              || allowList.None? || allowList.value == ""
              || origin.value in Strings.Split(allowList.value, ',')
    ensures d != Allow ==> d == Deny(NotAllowed)
  {
    if origin.None? || origin.value == "" then Allow
    else if allowList.None? || allowList.value == "" then Allow
    else if origin.value in Strings.Split(allowList.value, ',') then Allow
    else Deny(NotAllowed)
  }

  /** For an allow-list written as a comma-joined list of origins, exactly those origins pass. */
  lemma AllowListMembership(origin: string, origins: seq<string>)
    requires |origins| >= 1 && origin != ""
    requires forall i :: 0 <= i < |origins| ==> ',' !in origins[i]
    requires Strings.Join(origins, ',') != ""
    ensures OriginDecision(Some(origin), Some(Strings.Join(origins, ','))) == Allow <==> origin in origins
  {
    Strings.SplitJoin(origins, ',');
  }

  /**
   * A refused origin is a plain error, which the cors package passes to
   * `next(err)`; `errorHandler`, registered after it, answers 500, with the
   * refusal text outside production.
   */
  lemma DeniedOriginAnswer(origin: Option<string>, allowList: Option<string>, nodeEnv: Option<string>)
    requires OriginDecision(origin, allowList).Deny?
    ensures ErrorHandler.HandleError(OriginDecision(origin, allowList).error, nodeEnv) ==
            Reply(500, Some(ErrorBody(if nodeEnv == Some("production") then ErrorHandler.InternalMessage
                                      else "Not allowed by CORS policy")))
  {
  }
}
