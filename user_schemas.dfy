/**
 * The request schemas of `src/schemas/user.ts`, and the typed inputs the
 * handlers read from a request once it has been validated.
 */
module UserSchemas {
  import opened Wrappers
  import opened Json
  import opened Zod
  import opened Http
  import Strings

  /** `CreateUserInput`: the validated body of a create or register request. */
  datatype CreateUserInput = CreateUserInput(email: string, name: string, password: string)

  /** `UpdateUserInput`: the validated body of an update; `name` may be absent. */
  datatype UpdateUserInput = UpdateUserInput(name: Option<string>)

  /** The validated body of a login request. */
  datatype LoginInput = LoginInput(email: string, password: string)

  const InvalidEmail := "Invalid email"
  const ShortName := "Name must be at least 2 characters"
  const ShortPassword := "Password must be at least 8 characters"
  const BadId := "ID must be a positive number"

  // ---- Reading the typed inputs out of a body ----

  function CreateUserInputOf(body: Option<Json>): Option<CreateUserInput>
  {
    if StrAt(body, "email").Some? && StrAt(body, "name").Some? && StrAt(body, "password").Some?
    then Some(CreateUserInput(StrAt(body, "email").value, StrAt(body, "name").value, StrAt(body, "password").value))
    else None
  }

  function UpdateUserInputOf(body: Option<Json>): Option<UpdateUserInput>
  {
    if body.Some? && body.value.JObj? then
      if "name" !in body.value.fields then Some(UpdateUserInput(None))
      else if body.value.fields["name"].JStr? then Some(UpdateUserInput(Some(body.value.fields["name"].s)))
      else None
    else None
  }

  function LoginInputOf(body: Option<Json>): Option<LoginInput>
  {
    if StrAt(body, "email").Some? && StrAt(body, "password").Some?
    then Some(LoginInput(StrAt(body, "email").value, StrAt(body, "password").value))
    else None
  }

  /** The `id` a validated `params` object holds. */
  function IdOf(params: Option<Json>): Option<int>
  {
    if params.Some? && params.value.JObj? && "id" in params.value.fields && params.value.fields["id"].JNum?
    then Some(params.value.fields["id"].n)
    else None
  }

  // ---- The schemas' outputs, and that the handlers read back exactly what was validated ----

  function CreateUserJson(c: CreateUserInput): (j: Json)
    ensures CreateUserInputOf(Some(j)) == Some(c)
    ensures j.JObj? && j.fields.Keys == {"email", "name", "password"}
  {
    JObj(map["email" := JStr(c.email), "name" := JStr(c.name), "password" := JStr(c.password)])
  }

  function UpdateUserJson(u: UpdateUserInput): (j: Json)
    ensures UpdateUserInputOf(Some(j)) == Some(u)
    ensures j.JObj? && j.fields.Keys <= {"name"}
  {
    JObj(if u.name.Some? then map["name" := JStr(u.name.value)] else map[])
  }

  function LoginJson(l: LoginInput): (j: Json)
    ensures LoginInputOf(Some(j)) == Some(l)
    ensures j.JObj? && j.fields.Keys == {"email", "password"}
  {
    JObj(map["email" := JStr(l.email), "password" := JStr(l.password)])
  }

  function IdJson(id: int): (j: Json)
    ensures IdOf(Some(j)) == Some(id)
    ensures j.JObj? && j.fields.Keys == {"id"}
  {
    JObj(map["id" := JNum(id)])
  }

  // ---- Field constraints ----

  predicate CreateUserAllowed(fmt: Formats, c: CreateUserInput)
  {
    fmt.isEmail(c.email) && Strings.JsLength(c.name) >= 2 && Strings.JsLength(c.password) >= 8
  }

  predicate LoginAllowed(fmt: Formats, l: LoginInput)
  {
    fmt.isEmail(l.email) && Strings.JsLength(l.password) >= 8
  }

  predicate UpdateAllowed(u: UpdateUserInput)
  {
    u.name.Some? ==> Strings.JsLength(u.name.value) >= 2
  }

  /** The number `z.coerce.number()` makes of `params.id`, if it is one. */
  function CoercedId(params: Json): Json
  {
    Coerce(At(if params.JObj? then params.fields else map[], "id"))
  }

  /** `params: z.object({ id: z.coerce.number().int().positive(...) })`. */
  function IdParams(params: Json): (r: Parsed<int>)
    ensures r.Ok? <==> params.JObj? && CoercedId(params).JNum? && CoercedId(params).n > 0
    ensures r.Ok? ==> r.value == CoercedId(params).n
    ensures Reported(r)
  {
    match Object(Some(params), [Key("params")])
    case Invalid(issues) => Invalid(issues)
    case Ok(p) => PositiveInt(At(p, "id"), [Key("params"), Key("id")], BadId)
  }

  /** `body: z.object({ name: z.string().min(2, ...).optional() })`. */
  function NameBody(body: Option<Json>, message: string): (r: Parsed<UpdateUserInput>)
    ensures r.Ok? <==> UpdateUserInputOf(body).Some? && UpdateAllowed(UpdateUserInputOf(body).value)
    ensures r.Ok? ==> r.value == UpdateUserInputOf(body).value
    ensures Reported(r)
  {
    match Object(body, [Key("body")])
    case Invalid(issues) => Invalid(issues)
    case Ok(b) =>
      var name := At(b, "name");
      match Optional(name, MinLength(name, [Key("body"), Key("name")], 2, message))
      case Invalid(issues) => Invalid(issues)
      case Ok(n) => Ok(UpdateUserInput(n))
  }

  // ---- The schemas ----

  /** `createUserSchema`: a body with an email, a name of 2 or more and a password of 8 or more characters. */
  function CreateUserSchema(fmt: Formats, input: RequestParts): (r: Parsed<Validated>)
    ensures r.Ok? <==> CreateUserInputOf(input.body).Some? && CreateUserAllowed(fmt, CreateUserInputOf(input.body).value)
    ensures r.Ok? ==> r.value == Validated(Some(CreateUserJson(CreateUserInputOf(input.body).value)), None, None)
    ensures Reported(r)
  {
    match Object(input.body, [Key("body")])
    case Invalid(issues) => Invalid(issues)
    case Ok(b) =>
      var email := CheckedString(At(b, "email"), [Key("body"), Key("email")], fmt.isEmail, InvalidFormat, InvalidEmail);
      var name := MinLength(At(b, "name"), [Key("body"), Key("name")], 2, ShortName);
      var password := MinLength(At(b, "password"), [Key("body"), Key("password")], 8, ShortPassword);
      match Both(email, Both(name, password))
      case Invalid(issues) => Invalid(issues)
      case Ok((e, (n, p))) => Ok(Validated(Some(CreateUserJson(CreateUserInput(e, n, p))), None, None))
  }

  /** `updateUserSchema`: a positive integer id in the params and an optional name of 2 or more characters. */
  function UpdateUserSchema(input: RequestParts): (r: Parsed<Validated>)
    ensures r.Ok? <==>
      && IdParams(input.params).Ok?
      && UpdateUserInputOf(input.body).Some? && UpdateAllowed(UpdateUserInputOf(input.body).value)
    ensures r.Ok? ==>
              r.value == Validated(Some(UpdateUserJson(UpdateUserInputOf(input.body).value)),
                                   Some(IdJson(CoercedId(input.params).n)), None)
    ensures Reported(r)
  {
    match Both(IdParams(input.params), NameBody(input.body, TooShortMessage(2)))
    case Invalid(issues) => Invalid(issues)
    case Ok((id, u)) => Ok(Validated(Some(UpdateUserJson(u)), Some(IdJson(id)), None))
  }

  /** `updateMeSchema`: only the body is checked; the params are left as they are. */
  function UpdateMeSchema(input: RequestParts): (r: Parsed<Validated>)
    ensures r.Ok? <==> UpdateUserInputOf(input.body).Some? && UpdateAllowed(UpdateUserInputOf(input.body).value)
    ensures r.Ok? ==> r.value == Validated(Some(UpdateUserJson(UpdateUserInputOf(input.body).value)), None, None)
    ensures Reported(r)
  {
    match NameBody(input.body, ShortName)
    case Invalid(issues) => Invalid(issues)
    case Ok(u) => Ok(Validated(Some(UpdateUserJson(u)), None, None))
  }

  /** `getUserSchema`: a positive integer id in the params; the body is not looked at. */
  function GetUserSchema(input: RequestParts): (r: Parsed<Validated>)
    ensures r.Ok? <==> IdParams(input.params).Ok?
    ensures r.Ok? ==> r.value == Validated(None, Some(IdJson(CoercedId(input.params).n)), None)
    ensures Reported(r)
  {
    match IdParams(input.params)
    case Invalid(issues) => Invalid(issues)
    case Ok(id) => Ok(Validated(None, Some(IdJson(id)), None))
  }

  /** `loginSchema`: a body with an email and a password of 8 or more characters. */
  function LoginSchema(fmt: Formats, input: RequestParts): (r: Parsed<Validated>)
    ensures r.Ok? <==> LoginInputOf(input.body).Some? && LoginAllowed(fmt, LoginInputOf(input.body).value)
    ensures r.Ok? ==> r.value == Validated(Some(LoginJson(LoginInputOf(input.body).value)), None, None)
    ensures Reported(r)
  {
    match Object(input.body, [Key("body")])
    case Invalid(issues) => Invalid(issues)
    case Ok(b) =>
      var email := CheckedString(At(b, "email"), [Key("body"), Key("email")], fmt.isEmail, InvalidFormat, "Invalid email address");
      var password := MinLength(At(b, "password"), [Key("body"), Key("password")], 8, ShortPassword);
      match Both(email, password)
      case Invalid(issues) => Invalid(issues)
      case Ok((e, p)) => Ok(Validated(Some(LoginJson(LoginInput(e, p))), None, None))
  }

  /** Whatever else a register body carries (a `role`, say) is not in the validated body. */
  lemma CreateUserDropsUnknownKeys(fmt: Formats, input: RequestParts)
    requires CreateUserSchema(fmt, input).Ok?
    ensures var body := CreateUserSchema(fmt, input).value.body.value;
      body.JObj? && "role" !in body.fields && "id" !in body.fields
  {
  }

  /** The `params` of a request for `/:id`, as the router hands them over: the id as text. */
  function IdPathParams(id: nat): Json
  {
    JObj(map["id" := JStr(Strings.DecimalText(id))])
  }

  /** A positive id in the path passes `getUserSchema` and is the id the handlers use. */
  lemma IdPathAccepted(id: nat)
    requires 0 < id
    ensures IdParams(IdPathParams(id)).Ok?
    ensures CoercedId(IdPathParams(id)) == JNum(id)
  {
    Strings.DecimalRoundTrip(id);
  }

  /** A name of one character outside the Basic Multilingual Plane already has length 2. */
  lemma AstralNameAccepted(fmt: Formats, email: string, password: string)
    requires fmt.isEmail(email) && Strings.JsLength(password) >= 8
    ensures CreateUserAllowed(fmt, CreateUserInput(email, "\U{1F600}", password))
    ensures UpdateAllowed(UpdateUserInput(Some("\U{1F600}")))
  {
    assert Strings.JsLength("\U{1F600}") == 2;
  }
}
