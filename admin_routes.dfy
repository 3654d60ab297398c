/**
 * `src/routes/admin.ts`: the administrator's user routes under
 * `/api/admin/users`.  Every answer leaves the password out.
 */
module AdminRoutes {
  import opened Wrappers
  import opened Json
  import opened Zod
  import opened Http
  import opened UserSchemas
  import opened UserStore
  import Validate

  const UserNotFound := Reply(404, Some(ErrorBody("User not found")))
  const InternalError := Reply(500, Some(ErrorBody("Internal server error")))

  /** The store's change for a validated `PATCH` body. */
  function ChangesOf(u: UpdateUserInput): UserChanges
  {
    UserChanges(u.name)
  }

  /** The rows as listed: each without its password, in table order. */
  function Listing(rows: seq<User>): (j: Json)
    ensures j.JArr? && |j.items| == |rows|
    ensures forall i :: 0 <= i < |rows| ==> j.items[i] == WithoutPassword(rows[i])
  {
    JArr(seq(|rows|, i requires 0 <= i < |rows| => WithoutPassword(rows[i])))
  }

  /** `GET /`: every user, without passwords. */
  method ListUsers(db: UserTable) returns (r: HandlerResult)
    ensures db.outage.Some? ==> r == Thrown(StoreError(Unreachable(db.outage.value)))
    ensures db.outage.None? ==> r.Sent? && r.reply.status == 200 && r.reply.body.Some?
    ensures db.outage.None? ==>
              var items := r.reply.body.value;
              && items.JArr? && |items.items| == |db.table.rows|
              && forall i :: 0 <= i < |items.items| ==>
                   && items.items[i] == WithoutPassword(db.table.rows[i])
                   && "password" !in items.items[i].fields
  {
    var users := db.FindMany();
    if users.Failure? {
      return Thrown(StoreError(users.error));
    }
    r := Sent(Reply(200, Some(Listing(users.value))));
  }

  /** `GET /:id` after `validate(getUserSchema)`. */
  method GetUser(db: UserTable, req: Request) returns (r: HandlerResult)
    modifies req
    ensures var parsed := GetUserSchema(old(req.Parts()));
      && (parsed.Invalid? ==> r == Sent(Validate.ValidationFailure(parsed.issues)))
      && (parsed.Ok? && db.outage.Some? ==> r == Thrown(StoreError(Unreachable(db.outage.value))))
      && (parsed.Ok? && db.outage.None? ==>
            var found := FindById(db.table.rows, CoercedId(old(req.params)).n);
            r == if found.None? then Sent(UserNotFound) else Sent(Reply(200, Some(WithoutPassword(found.value)))))
  {
    var outcome := Validate.Validate(parts => ParseAsync(GetUserSchema(parts)), req);
    if !outcome.Next? {
      return Validate.Stopped(outcome);
    }
    var id := IdOf(Some(req.params)).value;
    var user := db.FindUnique(id);
    if user.Failure? {
      return Thrown(StoreError(user.error));
    }
    if user.value.None? {
      return Sent(UserNotFound);
    }
    r := Sent(Reply(200, Some(WithoutPassword(user.value.value))));
  }

  /**
   * `PATCH /:id` after `validate(updateUserSchema)`.  There is no check for a
   * missing user: the store's P2025 leaves the handler as an exception.
   */
  method PatchUser(db: UserTable, req: Request) returns (r: HandlerResult)
    requires db.Valid()
    modifies db, req
    ensures db.Valid() && db.outage == old(db.outage)
    ensures var parsed := UpdateUserSchema(old(req.Parts()));
      && (parsed.Invalid? ==> r == Sent(Validate.ValidationFailure(parsed.issues)) && db.table == old(db.table))
      && (parsed.Ok? && old(db.outage).Some? ==>
            r == Thrown(StoreError(Unreachable(old(db.outage).value))) && db.table == old(db.table))
      && (parsed.Ok? && old(db.outage).None? ==>
            var id := CoercedId(old(req.params)).n;
            var changes := ChangesOf(UpdateUserInputOf(old(req.body)).value);
            if FindById(old(db.table).rows, id).None? then
              r == Thrown(StoreError(RecordNotFound)) && db.table == old(db.table)
            else
              && r == Sent(Reply(200, Some(WithoutPassword(Apply(FindById(old(db.table).rows, id).value, changes)))))
              && db.table == Table(UpdateRows(old(db.table).rows, id, changes), old(db.table).nextId))
  {
    var outcome := Validate.Validate(parts => ParseAsync(UpdateUserSchema(parts)), req);
    if !outcome.Next? {
      return Validate.Stopped(outcome);
    }
    var id := IdOf(Some(req.params)).value;
    var data := UpdateUserInputOf(req.body).value;
    var user := db.Update(id, ChangesOf(data));
    if user.Failure? {
      return Thrown(StoreError(user.error));
    }
    r := Sent(Reply(200, Some(WithoutPassword(user.value))));
  }

  /**
   * `DELETE /:id` after `validate(getUserSchema)`.  The handler catches every
   * store error: a missing user is 404, anything else 500.  It answers 204
   * with no body when the row is gone.
   */
  method DeleteUser(db: UserTable, req: Request) returns (r: HandlerResult)
    requires db.Valid()
    modifies db, req
    ensures db.Valid() && db.outage == old(db.outage)
    ensures var parsed := GetUserSchema(old(req.Parts()));
      && (parsed.Invalid? ==> r == Sent(Validate.ValidationFailure(parsed.issues)) && db.table == old(db.table))
      && (parsed.Ok? ==> r.Sent?)
      && (parsed.Ok? && old(db.outage).Some? ==> r == Sent(InternalError) && db.table == old(db.table))
      && (parsed.Ok? && old(db.outage).None? ==>
            var id := CoercedId(old(req.params)).n;
            if FindById(old(db.table).rows, id).None? then
              r == Sent(UserNotFound) && db.table == old(db.table)
            else
              r == Sent(Reply(204, None)) && db.table == Table(RemoveRows(old(db.table).rows, id), old(db.table).nextId))
  {
    var outcome := Validate.Validate(parts => ParseAsync(GetUserSchema(parts)), req);
    if !outcome.Next? {
      return Validate.Stopped(outcome);
    }
    var id := IdOf(Some(req.params)).value;
    var deleted := db.Delete(id);
    match deleted {
      case Success(_) =>
        r := Sent(Reply(204, None));
      case Failure(e) =>
        if IsNotFoundError(StoreError(e)) {
          return Sent(UserNotFound);
        }
        r := Sent(InternalError);
    }
  }

  /** After an administrator deletes a user, fetching that user answers 404. */
  method DeleteThenGet(db: UserTable, id: nat) returns (deleted: HandlerResult, fetched: HandlerResult)
    requires db.Valid() && db.outage.None? && 0 < id
    requires FindById(db.table.rows, id).Some?
    modifies db
    ensures deleted == Sent(Reply(204, None))
    ensures fetched == Sent(UserNotFound)
    ensures |db.table.rows| == |old(db.table.rows)| - 1
  {
    IdPathAccepted(id);
    var deleteRequest := new Request(None, IdPathParams(id), JObj(map[]));
    deleted := DeleteUser(db, deleteRequest);
    RemoveSpec(old(db.table), id);
    var getRequest := new Request(None, IdPathParams(id), JObj(map[]));
    fetched := GetUser(db, getRequest);
  }
}
