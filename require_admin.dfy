/**
 * `src/middleware/requireAdmin.ts`: after the token check has attached its
 * claims to the request, only the role `admin` may pass.
 */
module RequireAdmin {
  import opened Wrappers
  import opened Json
  import opened Http

  /** The claims of a verified token, as far as the gate reads them. */
  datatype AuthPayload = AuthPayload(sub: Option<int>, role: Option<string>)

  const Forbidden := Reply(403, Some(ErrorBody("Forbidden: admin role required")))

  /** `requireAdmin`: proceed exactly when the role claim is `admin`, otherwise answer 403. */
  function RequireAdmin(auth: Option<AuthPayload>): (outcome: Outcome)
    ensures outcome == Next <==> auth.Some? && auth.value.role == Some("admin")
    ensures outcome != Next ==> outcome == Respond(Forbidden)
  {
    if auth.Some? && auth.value.role == Some("admin") then Next else Respond(Forbidden)
  }

  /** The subject claim plays no part in the decision. */
  lemma OnlyRoleDecides(a: AuthPayload, b: AuthPayload)
    requires a.role == b.role
    ensures RequireAdmin(Some(a)) == RequireAdmin(Some(b))
  {
  }
}
