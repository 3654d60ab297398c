/**
 * `src/routes/auth.ts`: `POST /register` hashes the password and stores the
 * user; `POST /login` checks the credentials and issues a token.  Each route
 * runs `validate(schema)` before its handler.
 */
module AuthRoutes {
  import opened Wrappers
  import opened Json
  import opened Zod
  import opened Http
  import opened UserSchemas
  import opened UserStore
  import Validate
  import ErrorHandler

  /** The password library: a one-way hash, and the check of a password against a stored hash. */
  datatype Passwords = Passwords(hash: string -> string, compare: (string, string) -> bool)

  /** A password always matches its own hash. */
  ghost predicate MatchesOwnHash(pw: Passwords)
  {
    forall p :: pw.compare(p, pw.hash(p))
  }

  /** The claims `signAccessToken` signs. */
  datatype TokenPayload = TokenPayload(sub: int, email: string, role: string)

  const WrongCredentials := Reply(401, Some(ErrorBody("Неверный логин или пароль")))

  /** The claims of a stored user. */
  function PayloadOf(u: User): TokenPayload
  {
    TokenPayload(u.id, u.email, RoleName(u.role))
  }

  /** The body of a successful login: the token and the user's id, name and email, nothing more. */
  function LoginBody(token: string, u: User): (j: Json)
    ensures j.JObj? && j.fields.Keys == {"token", "user"} && j.fields["token"] == JStr(token)
    ensures j.fields["user"] == JObj(map["id" := JNum(u.id), "name" := JStr(u.name), "email" := JStr(u.email)])
  {
    JObj(map["token" := JStr(token),
             "user" := JObj(map["id" := JNum(u.id), "name" := JStr(u.name), "email" := JStr(u.email)])])
  }

  /** What the register handler does to a table, given its outcome. */
  ghost predicate Registered(t0: Table, outage: Option<string>, input: CreateUserInput, hash: string -> string,
                             t1: Table, r: HandlerResult)
  {
    var data := NewUser(input.email, input.name, hash(input.password));
    if outage.Some? then
      t1 == t0 && r == Thrown(StoreError(Unreachable(outage.value)))
    else if FindByEmail(t0.rows, input.email).Some? then
      t1 == t0 && r == Thrown(StoreError(UniqueViolation("email")))
    else
      t1 == Insert(t0, data) && r == Sent(Reply(201, Some(WithoutPassword(NewRow(t0.nextId, data)))))
  }

  /**
   * The `POST /register` handler: store the body with the password replaced by
   * its hash and answer 201 with the new row minus its password.  A store
   * error is not caught: a taken email leaves the handler as Prisma's P2002.
   */
  method Register(db: UserTable, input: CreateUserInput, hash: string -> string) returns (r: HandlerResult)
    requires db.Valid()
    modifies db
    ensures db.Valid() && db.outage == old(db.outage)
    ensures Registered(old(db.table), old(db.outage), input, hash, db.table, r)
  {
    var passwordHash := hash(input.password);
    var created := db.Create(NewUser(input.email, input.name, passwordHash));
    match created {
      case Failure(e) =>
        r := Thrown(StoreError(e));
      case Success(user) =>
        r := Sent(Reply(201, Some(WithoutPassword(user))));
    }
  }

  /**
   * The `POST /login` handler.  An unknown email and a wrong password get the
   * same 401; the password is only compared when the email is known.  It
   * only reads the store.
   */
  method Login(db: UserTable, input: LoginInput, pw: Passwords, sign: TokenPayload -> string) returns (r: HandlerResult)
    ensures db.outage.Some? ==> r == Thrown(StoreError(Unreachable(db.outage.value)))
    ensures db.outage.None? && FindByEmail(db.table.rows, input.email).None? ==> r == Sent(WrongCredentials)
    ensures db.outage.None? && FindByEmail(db.table.rows, input.email).Some? ==>
              var u := FindByEmail(db.table.rows, input.email).value;
              r == if pw.compare(input.password, u.password) then Sent(Reply(200, Some(LoginBody(sign(PayloadOf(u)), u))))
                   else Sent(WrongCredentials)
  {
    var found := db.FindUniqueByEmail(input.email);
    if found.Failure? {
      return Thrown(StoreError(found.error));
    }
    if found.value.None? {
      return Sent(WrongCredentials);
    }
    var authUser := found.value.value;
    var didMatch := pw.compare(input.password, authUser.password);
    if !didMatch {
      return Sent(WrongCredentials);
    }
    var token := sign(PayloadOf(authUser));
    r := Sent(Reply(200, Some(LoginBody(token, authUser))));
  }

  /** The `POST /register` route: `validate(createUserSchema)`, then the handler. */
  method PostRegister(db: UserTable, req: Request, fmt: Formats, hash: string -> string) returns (r: HandlerResult)
    requires db.Valid()
    modifies db, req
    ensures db.Valid() && db.outage == old(db.outage)
    ensures var parsed := CreateUserSchema(fmt, old(req.Parts()));
      && (parsed.Invalid? ==> r == Sent(Validate.ValidationFailure(parsed.issues)) && db.table == old(db.table))
      && (parsed.Ok? ==> Registered(old(db.table), old(db.outage), CreateUserInputOf(old(req.body)).value, hash, db.table, r))
  {
    var outcome := Validate.Validate(parts => ParseAsync(CreateUserSchema(fmt, parts)), req);
    if !outcome.Next? {
      return Validate.Stopped(outcome);
    }
    var input := CreateUserInputOf(req.body);
    r := Register(db, input.value, hash);
  }

  /** The `POST /login` route: `validate(loginSchema)`, then the handler. */
  method PostLogin(db: UserTable, req: Request, fmt: Formats, pw: Passwords, sign: TokenPayload -> string)
    returns (r: HandlerResult)
    modifies req
    ensures var parsed := LoginSchema(fmt, old(req.Parts()));
      && (parsed.Invalid? ==> r == Sent(Validate.ValidationFailure(parsed.issues)))
      && (parsed.Ok? && db.outage.Some? ==> r == Thrown(StoreError(Unreachable(db.outage.value))))
      && (parsed.Ok? && db.outage.None? && FindByEmail(db.table.rows, LoginInputOf(old(req.body)).value.email).None? ==>
            r == Sent(WrongCredentials))
      && (parsed.Ok? && db.outage.None? && FindByEmail(db.table.rows, LoginInputOf(old(req.body)).value.email).Some? ==>
            var input := LoginInputOf(old(req.body)).value;
            var u := FindByEmail(db.table.rows, input.email).value;
            r == if pw.compare(input.password, u.password) then Sent(Reply(200, Some(LoginBody(sign(PayloadOf(u)), u))))
                 else Sent(WrongCredentials))
  {
    var outcome := Validate.Validate(parts => ParseAsync(LoginSchema(fmt, parts)), req);
    if !outcome.Next? {
      return Validate.Stopped(outcome);
    }
    var input := LoginInputOf(req.body);
    r := Login(db, input.value, pw, sign);
  }

  /** A registered user is stored with the hash of the submitted password and the role `user`. */
  lemma RegisterStoresHash(t0: Table, input: CreateUserInput, hash: string -> string, t1: Table, r: HandlerResult)
    requires TableInvariant(t0)
    requires Registered(t0, None, input, hash, t1, r)
    requires r.Sent?
    ensures r.reply.status == 201
    ensures FindByEmail(t1.rows, input.email) == Some(User(t0.nextId, input.email, input.name, hash(input.password), RoleUser,
                                                          Profile(None, None, None, None)))
    ensures FindById(t1.rows, t0.nextId).value.password == hash(input.password)
  {
    InsertSpec(t0, NewUser(input.email, input.name, hash(input.password)));
  }

  /**
   * Registering an email that is already taken changes nothing and throws
   * P2002.  Under Express 4 the rejected promise reaches no error handler; were
   * it passed to `errorHandler`, the answer would be its 500 database error
   * rather than a conflict answer.
   */
  lemma DuplicateEmailAnswer(t0: Table, input: CreateUserInput, hash: string -> string, t1: Table, r: HandlerResult,
                             nodeEnv: Option<string>)
    requires Registered(t0, None, input, hash, t1, r)
    requires FindByEmail(t0.rows, input.email).Some?
    ensures t1 == t0 && r == Thrown(StoreError(UniqueViolation("email"))) && r.error.code == Some("P2002")
    ensures ErrorHandler.HandleError(r.error, nodeEnv) == Reply(500, Some(ErrorBody(ErrorHandler.DatabaseMessage)))
  {
  }

  /**
   * Registering and then logging in with the same password succeeds and signs
   * the claims of the new user, given that a password matches its own hash.
   */
  method RegisterThenLogin(db: UserTable, input: CreateUserInput, pw: Passwords, sign: TokenPayload -> string)
    returns (registered: HandlerResult, loggedIn: HandlerResult)
    requires db.Valid() && db.outage.None?
    requires FindByEmail(db.table.rows, input.email).None?
    requires MatchesOwnHash(pw)
    modifies db
    ensures registered.Sent? && registered.reply.status == 201
    ensures var u := NewRow(old(db.table).nextId, NewUser(input.email, input.name, pw.hash(input.password)));
      loggedIn == Sent(Reply(200, Some(LoginBody(sign(TokenPayload(u.id, input.email, "user")), u))))
  {
    registered := Register(db, input, pw.hash);
    RegisterStoresHash(old(db.table), input, pw.hash, db.table, registered);
    loggedIn := Login(db, LoginInput(input.email, input.password), pw, sign);
  }
}
