/**
 * `src/routes/user.ts`: the older user routes.  They store and return rows
 * as they are: the password is not hashed and is part of every answer.
 */
module UserRoutes {
  import opened Wrappers
  import opened Json
  import opened Zod
  import opened Http
  import opened UserSchemas
  import opened UserStore
  import Validate

  const UserNotFound := Reply(404, Some(ErrorBody("Пользователь не найден")))

  /** `POST /` after `validate(createUserSchema)`: the body is stored as given and the whole row is sent back. */
  method CreateUser(db: UserTable, req: Request, fmt: Formats) returns (r: HandlerResult)
    requires db.Valid()
    modifies db, req
    ensures db.Valid() && db.outage == old(db.outage)
    ensures var parsed := CreateUserSchema(fmt, old(req.Parts()));
      && (parsed.Invalid? ==> r == Sent(Validate.ValidationFailure(parsed.issues)) && db.table == old(db.table))
      && (parsed.Ok? ==>
            var input := CreateUserInputOf(old(req.body)).value;
            var data := NewUser(input.email, input.name, input.password);
            if old(db.outage).Some? then
              r == Thrown(StoreError(Unreachable(old(db.outage).value))) && db.table == old(db.table)
            else if FindByEmail(old(db.table).rows, input.email).Some? then
              r == Thrown(StoreError(UniqueViolation("email"))) && db.table == old(db.table)
            else
              && r == Sent(Reply(201, Some(UserJson(NewRow(old(db.table).nextId, data)))))
              && db.table == Insert(old(db.table), data))
  {
    var outcome := Validate.Validate(parts => ParseAsync(CreateUserSchema(fmt, parts)), req);
    if !outcome.Next? {
      return Validate.Stopped(outcome);
    }
    var data := CreateUserInputOf(req.body).value;
    var user := db.Create(NewUser(data.email, data.name, data.password));
    if user.Failure? {
      return Thrown(StoreError(user.error));
    }
    r := Sent(Reply(201, Some(UserJson(user.value))));
  }

  /** `GET /:id` after `validate(getUserSchema)`: the whole row, or 404. */
  method GetUser(db: UserTable, req: Request) returns (r: HandlerResult)
    modifies req
    ensures var parsed := GetUserSchema(old(req.Parts()));
      && (parsed.Invalid? ==> r == Sent(Validate.ValidationFailure(parsed.issues)))
      && (parsed.Ok? && db.outage.Some? ==> r == Thrown(StoreError(Unreachable(db.outage.value))))
      && (parsed.Ok? && db.outage.None? ==>
            var found := FindById(db.table.rows, CoercedId(old(req.params)).n);
            r == if found.None? then Sent(UserNotFound) else Sent(Reply(200, Some(UserJson(found.value)))))
  {
    var outcome := Validate.Validate(parts => ParseAsync(GetUserSchema(parts)), req);
    if !outcome.Next? {
      return Validate.Stopped(outcome);
    }
    var id := IdOf(Some(req.params)).value;
    var user := db.FindUnique(id);
    if user.Failure? {
      return Thrown(StoreError(user.error));
    }
    if user.value.None? {
      return Sent(UserNotFound);
    }
    r := Sent(Reply(200, Some(UserJson(user.value.value))));
  }

  /** `PATCH /:id` after `validate(updateUserSchema)`: a missing user leaves as the store's P2025. */
  method PatchUser(db: UserTable, req: Request) returns (r: HandlerResult)
    requires db.Valid()
    modifies db, req
    ensures db.Valid() && db.outage == old(db.outage)
    ensures var parsed := UpdateUserSchema(old(req.Parts()));
      && (parsed.Invalid? ==> r == Sent(Validate.ValidationFailure(parsed.issues)) && db.table == old(db.table))
      && (parsed.Ok? && old(db.outage).Some? ==>
            r == Thrown(StoreError(Unreachable(old(db.outage).value))) && db.table == old(db.table))
      && (parsed.Ok? && old(db.outage).None? ==>
            var id := CoercedId(old(req.params)).n;
            var changes := UserChanges(UpdateUserInputOf(old(req.body)).value.name);
            if FindById(old(db.table).rows, id).None? then
              r == Thrown(StoreError(RecordNotFound)) && db.table == old(db.table)
            else
              && r == Sent(Reply(200, Some(UserJson(Apply(FindById(old(db.table).rows, id).value, changes)))))
              && db.table == Table(UpdateRows(old(db.table).rows, id, changes), old(db.table).nextId))
  {
    var outcome := Validate.Validate(parts => ParseAsync(UpdateUserSchema(parts)), req);
    if !outcome.Next? {
      return Validate.Stopped(outcome);
    }
    var id := IdOf(Some(req.params)).value;
    var data := UpdateUserInputOf(req.body).value;
    var user := db.Update(id, UserChanges(data.name));
    if user.Failure? {
      return Thrown(StoreError(user.error));
    }
    r := Sent(Reply(200, Some(UserJson(user.value))));
  }

  /**
   * Creating a user through this router and reading it back: the stored
   * password is the submitted one, and both answers carry it.
   */
  method CreateThenGet(db: UserTable, fmt: Formats, input: CreateUserInput)
    returns (created: HandlerResult, fetched: HandlerResult)
    requires db.Valid() && db.outage.None?
    requires CreateUserAllowed(fmt, input)
    requires FindByEmail(db.table.rows, input.email).None?
    modifies db
    ensures created.Sent? && created.reply.status == 201 && created.reply.body.Some?
    ensures created.reply.body.value.JObj? && "password" in created.reply.body.value.fields
    ensures created.reply.body.value.fields["password"] == JStr(input.password)
    ensures fetched == Sent(Reply(200, created.reply.body))
  {
    var id: nat := db.table.nextId;
    var createRequest := new Request(Some(CreateUserJson(input)), JObj(map[]), JObj(map[]));
    created := CreateUser(db, createRequest, fmt);
    InsertSpec(old(db.table), NewUser(input.email, input.name, input.password));
    IdPathAccepted(id);
    var getRequest := new Request(None, IdPathParams(id), JObj(map[]));
    fetched := GetUser(db, getRequest);
  }
}
