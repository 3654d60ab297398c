/**
 * `src/config/env.ts`: the process environment parsed once, at start-up,
 * into an immutable configuration; any violation makes the parse throw, so
 * there is no partially valid configuration.
 */
module EnvConfig {
  import opened Wrappers
  import opened Json
  import opened Zod
  import Strings

  datatype NodeEnv = Development | Production | Test

  datatype Env = Env(
    nodeEnv: NodeEnv,
    port: nat,
    databaseUrl: string,
    corsOrigin: Option<string>,
    jwtSecret: string,
    jwtExpiresIn: string,
    jwtAudience: string,
    jwtIssuer: string)

  const NodeEnvNames := ["development", "production", "test"]
  const DefaultPort := 1480

  function NodeEnvName(e: NodeEnv): string
  {
    match e
    case Development => "development"
    case Production => "production"
    case Test => "test"
  }

  function NodeEnvOf(name: string): NodeEnv
  {
    if name == "production" then Production else if name == "test" then Test else Development
  }

  /** `process.env[key]`: every variable is a string; a missing one is `undefined`. */
  function Var(vars: map<string, string>, key: string): Option<Json>
  {
    if key in vars then Some(JStr(vars[key])) else None
  }

  /** `z.string().regex(/^\d+$/).transform(Number).default(1480)`. */
  function Port(v: Option<Json>): (r: Parsed<nat>)
    ensures r.Ok? <==> v.None? || (v.value.JStr? && Strings.IsDigits(v.value.s))
    ensures r.Ok? ==> r.value == if v.None? then DefaultPort else Strings.DecimalValue(v.value.s)
    ensures Reported(r)
  {
    match CheckedString(v, [Key("PORT")], Strings.IsDigits, InvalidFormat, "Invalid string: must match pattern /^\\d+$/")
    case Invalid(issues) => Default(v, Invalid(issues), DefaultPort)
    case Ok(s) => Default(v, Ok(Strings.DecimalValue(s)), DefaultPort)
  }

  /** `z.string()` with a default, for the token settings. */
  function StringOr(vars: map<string, string>, key: string, d: string): (r: Parsed<string>)
    ensures r == Ok(if key in vars then vars[key] else d)
  {
    Default(Var(vars, key), String(Var(vars, key), [Key(key)]), d)
  }

  /** `envSchema.parse(process.env)`. */
  function ParseEnv(fmt: Formats, vars: map<string, string>): (r: Parsed<Env>)
    ensures r.Ok? <==>
      && ("NODE_ENV" in vars ==> vars["NODE_ENV"] in NodeEnvNames)
      && ("PORT" in vars ==> Strings.IsDigits(vars["PORT"]))
      && "DATABASE_URL" in vars && fmt.isUrl(vars["DATABASE_URL"])
      && ("CORS_ORIGIN" in vars ==> fmt.isUrl(vars["CORS_ORIGIN"]))
      && "JWT_SECRET" in vars && Strings.JsLength(vars["JWT_SECRET"]) >= 32
    ensures r.Ok? ==> r.value == Env(
      if "NODE_ENV" in vars then NodeEnvOf(vars["NODE_ENV"]) else Development,
      if "PORT" in vars then Strings.DecimalValue(vars["PORT"]) else DefaultPort,
      vars["DATABASE_URL"],
      if "CORS_ORIGIN" in vars then Some(vars["CORS_ORIGIN"]) else None,
      vars["JWT_SECRET"],
      if "JWT_EXPIRES_IN" in vars then vars["JWT_EXPIRES_IN"] else "1d",
      if "JWT_AUDIENCE" in vars then vars["JWT_AUDIENCE"] else "shop-api",
      if "JWT_ISSUER" in vars then vars["JWT_ISSUER"] else "shop-backend")
    ensures Reported(r)
  {
    var nodeEnv := Default(Var(vars, "NODE_ENV"), Enum(Var(vars, "NODE_ENV"), [Key("NODE_ENV")], NodeEnvNames), "development");
    var port := Port(Var(vars, "PORT"));
    var databaseUrl := CheckedString(Var(vars, "DATABASE_URL"), [Key("DATABASE_URL")], fmt.isUrl, InvalidFormat,
                                     "DATABASE_URL must be a valid URL");
    var corsOrigin := Optional(Var(vars, "CORS_ORIGIN"),
                               CheckedString(Var(vars, "CORS_ORIGIN"), [Key("CORS_ORIGIN")], fmt.isUrl, InvalidFormat, "Invalid URL"));
    var secret := MinLength(Var(vars, "JWT_SECRET"), [Key("JWT_SECRET")], 32, "JWT_SECRET must be at least 32 characters");
    var expiresIn := StringOr(vars, "JWT_EXPIRES_IN", "1d");
    var audience := StringOr(vars, "JWT_AUDIENCE", "shop-api");
    var issuer := StringOr(vars, "JWT_ISSUER", "shop-backend");
    match Both(nodeEnv, Both(port, Both(databaseUrl, Both(corsOrigin, Both(secret, Both(expiresIn, Both(audience, issuer)))))))
    case Invalid(issues) => Invalid(issues)
    case Ok((n, (p, (d, (c, (s, (e, (a, i))))))))  =>
      Ok(Env(NodeEnvOf(n), p, d, c, s, e, a, i))
  }

  /** The variables a configuration is read from: every setting written out. */
  function EnvVars(e: Env): map<string, string>
  {
    var vars := map["NODE_ENV" := NodeEnvName(e.nodeEnv),
                    "PORT" := Strings.DecimalText(e.port),
                    "DATABASE_URL" := e.databaseUrl,
                    "JWT_SECRET" := e.jwtSecret,
                    "JWT_EXPIRES_IN" := e.jwtExpiresIn,
                    "JWT_AUDIENCE" := e.jwtAudience,
                    "JWT_ISSUER" := e.jwtIssuer];
    if e.corsOrigin.Some? then vars["CORS_ORIGIN" := e.corsOrigin.value] else vars
  }

  /** Every configuration the schema admits is read back unchanged from its variables. */
  lemma {:induction false} EnvRoundTrip(fmt: Formats, e: Env)
    requires fmt.isUrl(e.databaseUrl)
    requires e.corsOrigin.Some? ==> fmt.isUrl(e.corsOrigin.value)
    requires Strings.JsLength(e.jwtSecret) >= 32
    ensures ParseEnv(fmt, EnvVars(e)) == Ok(e)
  {
    Strings.DecimalRoundTrip(e.port);
    var vars := EnvVars(e);
    assert vars["PORT"] == Strings.DecimalText(e.port);
    assert NodeEnvOf(NodeEnvName(e.nodeEnv)) == e.nodeEnv;
  }

  /** A secret shorter than 32 characters stops the start-up, whatever the other variables say. */
  lemma ShortSecretRejected(fmt: Formats, vars: map<string, string>)
    requires "JWT_SECRET" in vars && Strings.JsLength(vars["JWT_SECRET"]) < 32
    ensures ParseEnv(fmt, vars).Invalid?
    ensures Issue(TooSmall, [Key("JWT_SECRET")], "JWT_SECRET must be at least 32 characters") in ParseEnv(fmt, vars).issues
  {
  }
}
