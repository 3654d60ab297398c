/**
 * The `user` table behind `prisma.user`.  Rows are kept in insertion order,
 * which is also increasing id order since ids come from an autoincrement
 * counter that never reuses a value.  The database enforces that emails are
 * unique.  The pure functions below say what each store call does; the class
 * `UserTable` is the client the handlers call, which changes the table in
 * place.
 */
module UserStore {
  import opened Wrappers
  import opened Json
  import opened Http

  datatype Role = RoleUser | RoleAdmin

  function RoleName(r: Role): string
  {
    match r
    case RoleUser => "user"
    case RoleAdmin => "admin"
  }

  /** The nullable profile columns; no handler of the core writes them. */
  datatype Profile = Profile(emailVerified: Option<bool>, phone: Option<string>, city: Option<string>, avatar: Option<string>)

  datatype User = User(id: int, email: string, name: string, password: string, role: Role, profile: Profile)

  /** The `data` of `prisma.user.create`: the columns a handler supplies. */
  datatype NewUser = NewUser(email: string, name: string, password: string)

  /** The `data` of `prisma.user.update`: the validated update body, whose only key is an optional `name`. */
  datatype UserChanges = UserChanges(name: Option<string>)

  /** A failed store call: Prisma's P2025 (no such record), P2002 (unique constraint), or an unreachable database. */
  datatype DbError = RecordNotFound | UniqueViolation(field: string) | Unreachable(message: string)

  /** The exception a failed store call throws. */
  function StoreError(e: DbError): Error
  {
    match e
    case RecordNotFound => JsError(KnownRequestError, "Record not found", Some("P2025"))
    case UniqueViolation(field) => JsError(KnownRequestError, "Unique constraint failed on the fields: (`" + field + "`)", Some("P2002"))
    case Unreachable(message) => JsError("PrismaClientInitializationError", message, None)
  }

  /** `isPrismaNotFoundError(error)`: a known request error with code P2025. */
  predicate IsNotFoundError(e: Error)
  {
    e.JsError? && e.name == KnownRequestError && e.code == Some("P2025")
  }

  datatype Table = Table(rows: seq<User>, nextId: int)

  /** What the database guarantees of the table. */
  predicate TableInvariant(t: Table)
  {
    && 0 < t.nextId
    && (forall i :: 0 <= i < |t.rows| ==> 0 < t.rows[i].id < t.nextId)
    && (forall i, j :: 0 <= i < j < |t.rows| ==> t.rows[i].id < t.rows[j].id)
    && (forall i, j :: 0 <= i < j < |t.rows| ==> t.rows[i].email != t.rows[j].email)
  }

  const EmptyTable := Table([], 1)

  // ---- Lookups ----

  /** `findUnique({ where: { id } })`. */
  function FindById(rows: seq<User>, id: int): (r: Option<User>)
    ensures r.Some? ==> r.value in rows && r.value.id == id
    ensures r.None? <==> forall i :: 0 <= i < |rows| ==> rows[i].id != id
    decreases |rows|
  {
    if rows == [] then None
    else if rows[0].id == id then Some(rows[0])
    else FindById(rows[1..], id)
  }

  /** `findUnique({ where: { email } })`. */
  function FindByEmail(rows: seq<User>, email: string): (r: Option<User>)
    ensures r.Some? ==> r.value in rows && r.value.email == email
    ensures r.None? <==> forall i :: 0 <= i < |rows| ==> rows[i].email != email
    decreases |rows|
  {
    if rows == [] then None
    else if rows[0].email == email then Some(rows[0])
    else FindByEmail(rows[1..], email)
  }

  // ---- Changes ----

  /** The row `create` stores: the next id, the given columns, role `user`, empty profile. */
  function NewRow(id: int, data: NewUser): User
  {
    User(id, data.email, data.name, data.password, RoleUser, Profile(None, None, None, None))
  }

  function Insert(t: Table, data: NewUser): Table
  {
    Table(t.rows + [NewRow(t.nextId, data)], t.nextId + 1)
  }

  /** A row after `update` with `changes`: only a given name is written. */
  function Apply(u: User, changes: UserChanges): User
  {
    if changes.name.Some? then u.(name := changes.name.value) else u
  }

  function UpdateRows(rows: seq<User>, id: int, changes: UserChanges): (r: seq<User>)
    ensures |r| == |rows|
    ensures forall i :: 0 <= i < |rows| ==> r[i] == if rows[i].id == id then Apply(rows[i], changes) else rows[i]
  {
    seq(|rows|, i requires 0 <= i < |rows| => if rows[i].id == id then Apply(rows[i], changes) else rows[i])
  }

  /** The rows that remain after `delete({ where: { id } })`, in their order. */
  function RemoveRows(rows: seq<User>, id: int): (r: seq<User>)
    decreases |rows|
  {
    if rows == [] then []
    else if rows[0].id == id then RemoveRows(rows[1..], id)
    else [rows[0]] + RemoveRows(rows[1..], id)
  }

  // ---- What the changes do ----

  lemma {:induction false} FindInAppended(rows: seq<User>, u: User, id: int)
    ensures FindById(rows + [u], id) == if FindById(rows, id).Some? then FindById(rows, id)
                                        else if u.id == id then Some(u) else None
    decreases |rows|
  {
    if rows != [] {
      assert (rows + [u])[1..] == rows[1..] + [u];
      FindInAppended(rows[1..], u, id);
    }
  }

  /** `create` keeps the invariant, stores the new row under the next id and leaves every other id as it was. */
  lemma InsertSpec(t: Table, data: NewUser)
    requires TableInvariant(t)
    requires FindByEmail(t.rows, data.email).None?
    ensures TableInvariant(Insert(t, data))
    ensures FindById(Insert(t, data).rows, t.nextId) == Some(NewRow(t.nextId, data))
    ensures forall id :: id != t.nextId ==> FindById(Insert(t, data).rows, id) == FindById(t.rows, id)
    ensures FindByEmail(Insert(t, data).rows, data.email) == Some(NewRow(t.nextId, data))
  {
    var u := NewRow(t.nextId, data);
    FindInAppended(t.rows, u, t.nextId);
    forall id | id != t.nextId ensures FindById(Insert(t, data).rows, id) == FindById(t.rows, id) {
      FindInAppended(t.rows, u, id);
    }
    FindEmailInAppended(t.rows, u);
  }

  lemma {:induction false} FindEmailInAppended(rows: seq<User>, u: User)
    requires FindByEmail(rows, u.email).None?
    ensures FindByEmail(rows + [u], u.email) == Some(u)
    decreases |rows|
  {
    if rows != [] {
      assert (rows + [u])[1..] == rows[1..] + [u];
      FindEmailInAppended(rows[1..], u);
    }
  }

  lemma {:induction false} FindInUpdated(rows: seq<User>, id: int, changes: UserChanges, k: int)
    ensures FindById(UpdateRows(rows, id, changes), k) ==
            if k == id && FindById(rows, id).Some? then Some(Apply(FindById(rows, id).value, changes))
            else FindById(rows, k)
    decreases |rows|
  {
    if rows != [] {
      assert UpdateRows(rows, id, changes)[1..] == UpdateRows(rows[1..], id, changes);
      FindInUpdated(rows[1..], id, changes, k);
    }
  }

  /** `update` keeps the invariant, changes the row with that id and no other. */
  lemma UpdateSpec(t: Table, id: int, changes: UserChanges)
    requires TableInvariant(t)
    ensures TableInvariant(Table(UpdateRows(t.rows, id, changes), t.nextId))
    ensures forall k :: FindById(UpdateRows(t.rows, id, changes), k) ==
              if k == id && FindById(t.rows, id).Some? then Some(Apply(FindById(t.rows, id).value, changes))
              else FindById(t.rows, k)
  {
    forall k ensures FindById(UpdateRows(t.rows, id, changes), k) ==
              if k == id && FindById(t.rows, id).Some? then Some(Apply(FindById(t.rows, id).value, changes))
              else FindById(t.rows, k) {
      FindInUpdated(t.rows, id, changes, k);
    }
  }

  lemma {:induction false} RemovedRows(rows: seq<User>, id: int)
    ensures forall u :: u in RemoveRows(rows, id) <==> u in rows && u.id != id
    decreases |rows|
  {
    if rows != [] {
      RemovedRows(rows[1..], id);
      assert rows == [rows[0]] + rows[1..];
    }
  }

  lemma {:induction false} RemovedOne(rows: seq<User>, id: int)
    requires forall i, j :: 0 <= i < j < |rows| ==> rows[i].id < rows[j].id
    requires FindById(rows, id).Some?
    ensures |RemoveRows(rows, id)| == |rows| - 1
    decreases |rows|
  {
    if rows[0].id == id {
      RemovedRows(rows[1..], id);
      if RemoveRows(rows[1..], id) != rows[1..] {
        RemovedNothing(rows[1..], id);
      }
    } else {
      RemovedOne(rows[1..], id);
    }
  }

  lemma {:induction false} RemovedNothing(rows: seq<User>, id: int)
    requires forall i :: 0 <= i < |rows| ==> rows[i].id != id
    ensures RemoveRows(rows, id) == rows
    decreases |rows|
  {
    if rows != [] {
      RemovedNothing(rows[1..], id);
    }
  }

  lemma {:induction false} RemovedSorted(rows: seq<User>, id: int)
    requires forall i, j :: 0 <= i < j < |rows| ==> rows[i].id < rows[j].id
    ensures forall i, j :: 0 <= i < j < |RemoveRows(rows, id)| ==> RemoveRows(rows, id)[i].id < RemoveRows(rows, id)[j].id
    decreases |rows|
  {
    if rows != [] {
      RemovedSorted(rows[1..], id);
      RemovedRows(rows[1..], id);
      var rest := RemoveRows(rows[1..], id);
      if rows[0].id != id {
        var r := [rows[0]] + rest;
        forall i, j | 0 <= i < j < |r| ensures r[i].id < r[j].id {
          assert r[j] == rest[j - 1];
          if i == 0 {
            assert r[j] in rows[1..];
            var k :| 0 <= k < |rows[1..]| && rows[1..][k] == r[j];
            assert rows[k + 1] == r[j];
          } else {
            assert r[i] == rest[i - 1];
          }
        }
      }
    }
  }

  lemma {:induction false} RemovedDistinctEmails(rows: seq<User>, id: int)
    requires forall i, j :: 0 <= i < j < |rows| ==> rows[i].email != rows[j].email
    ensures forall i, j :: 0 <= i < j < |RemoveRows(rows, id)| ==> RemoveRows(rows, id)[i].email != RemoveRows(rows, id)[j].email
    decreases |rows|
  {
    if rows != [] {
      RemovedDistinctEmails(rows[1..], id);
      RemovedRows(rows[1..], id);
      var rest := RemoveRows(rows[1..], id);
      if rows[0].id != id {
        var r := [rows[0]] + rest;
        forall i, j | 0 <= i < j < |r| ensures r[i].email != r[j].email {
          assert r[j] == rest[j - 1];
          if i == 0 {
            assert r[j] in rows[1..];
            var k :| 0 <= k < |rows[1..]| && rows[1..][k] == r[j];
            assert rows[k + 1] == r[j];
          } else {
            assert r[i] == rest[i - 1];
          }
        }
      }
    }
  }

  lemma {:induction false} FindInRemoved(rows: seq<User>, id: int, k: int)
    requires forall i, j :: 0 <= i < j < |rows| ==> rows[i].id < rows[j].id
    ensures FindById(RemoveRows(rows, id), k) == if k == id then None else FindById(rows, k)
    decreases |rows|
  {
    if rows != [] {
      FindInRemoved(rows[1..], id, k);
    }
  }

  /**
   * `delete` keeps the invariant and removes exactly the row with that id:
   * one row fewer, a later lookup of the id finds nothing, other ids are found as before.
   */
  lemma RemoveSpec(t: Table, id: int)
    requires TableInvariant(t)
    requires FindById(t.rows, id).Some?
    ensures TableInvariant(Table(RemoveRows(t.rows, id), t.nextId))
    ensures |RemoveRows(t.rows, id)| == |t.rows| - 1
    ensures FindById(RemoveRows(t.rows, id), id).None?
    ensures forall k :: k != id ==> FindById(RemoveRows(t.rows, id), k) == FindById(t.rows, k)
  {
    RemovedRows(t.rows, id);
    RemovedSorted(t.rows, id);
    RemovedDistinctEmails(t.rows, id);
    RemovedOne(t.rows, id);
    FindInRemoved(t.rows, id, id);
    forall k | k != id ensures FindById(RemoveRows(t.rows, id), k) == FindById(t.rows, k) {
      FindInRemoved(t.rows, id, k);
    }
  }

  // ---- The rows as the API writes them ----

  /** A row as JSON, with the column names of the API's `User` object. */
  function UserJson(u: User): Json
  {
    JObj(map["id" := JNum(u.id),
             "email" := JStr(u.email),
             "name" := JStr(u.name),
             "password" := JStr(u.password),
             "role" := JStr(RoleName(u.role)),
             "email_verified" := if u.profile.emailVerified.Some? then JBool(u.profile.emailVerified.value) else JNull,
             "phone" := Nullable(u.profile.phone),
             "city" := Nullable(u.profile.city),
             "avatar" := Nullable(u.profile.avatar)])
  }

  /** `const { password: _p, ...rest } = user`: every column but the password. */
  function WithoutPassword(u: User): (j: Json)
    ensures j.JObj? && "password" !in j.fields
    ensures j.fields.Keys == UserJson(u).fields.Keys - {"password"}
    ensures forall k :: k in j.fields ==> j.fields[k] == UserJson(u).fields[k]
  {
    JObj(Omit(UserJson(u).fields, "password"))
  }

  // ---- The client ----

  /** `prisma.user`: the table, and whether the database can be reached. */
  class UserTable {
    var table: Table
    var outage: Option<string>

    ghost predicate Valid()
      reads this
    {
      TableInvariant(table)
    }

    constructor ()
      ensures Valid() && table == EmptyTable && outage == None
    {
      table := EmptyTable;
      outage := None;
    }

    /** `create({ data })`. */
    method Create(data: NewUser) returns (r: Result<User, DbError>)
      requires Valid()
      modifies this
      ensures Valid() && outage == old(outage)
      ensures old(outage).Some? ==> r == Failure(Unreachable(old(outage).value)) && table == old(table)
      ensures old(outage).None? && FindByEmail(old(table).rows, data.email).Some? ==>
                r == Failure(UniqueViolation("email")) && table == old(table)
      ensures old(outage).None? && FindByEmail(old(table).rows, data.email).None? ==>
                r == Success(NewRow(old(table).nextId, data)) && table == Insert(old(table), data)
    {
      if outage.Some? {
        return Failure(Unreachable(outage.value));
      }
      if FindByEmail(table.rows, data.email).Some? {
        return Failure(UniqueViolation("email"));
      }
      InsertSpec(table, data);
      r := Success(NewRow(table.nextId, data));
      table := Insert(table, data);
    }

    /** `findUnique({ where: { id } })`. */
    method FindUnique(id: int) returns (r: Result<Option<User>, DbError>)
      ensures outage.Some? ==> r == Failure(Unreachable(outage.value))
      ensures outage.None? ==> r == Success(FindById(table.rows, id))
    {
      if outage.Some? {
        return Failure(Unreachable(outage.value));
      }
      r := Success(FindById(table.rows, id));
    }

    /** `findUnique({ where: { email } })`. */
    method FindUniqueByEmail(email: string) returns (r: Result<Option<User>, DbError>)
      ensures outage.Some? ==> r == Failure(Unreachable(outage.value))
      ensures outage.None? ==> r == Success(FindByEmail(table.rows, email))
    {
      if outage.Some? {
        return Failure(Unreachable(outage.value));
      }
      r := Success(FindByEmail(table.rows, email));
    }

    /** `findMany()`: every row, in table order. */
    method FindMany() returns (r: Result<seq<User>, DbError>)
      ensures outage.Some? ==> r == Failure(Unreachable(outage.value))
      ensures outage.None? ==> r == Success(table.rows)
    {
      if outage.Some? {
        return Failure(Unreachable(outage.value));
      }
      r := Success(table.rows);
    }

    /** `update({ where: { id }, data })`: fails with P2025 when no row has the id. */
    method Update(id: int, changes: UserChanges) returns (r: Result<User, DbError>)
      requires Valid()
      modifies this
      ensures Valid() && outage == old(outage)
      ensures old(outage).Some? ==> r == Failure(Unreachable(old(outage).value)) && table == old(table)
      ensures old(outage).None? && FindById(old(table).rows, id).None? ==>
                r == Failure(RecordNotFound) && table == old(table)
      ensures old(outage).None? && FindById(old(table).rows, id).Some? ==>
                && r == Success(Apply(FindById(old(table).rows, id).value, changes))
                && table == Table(UpdateRows(old(table).rows, id, changes), old(table).nextId)
    {
      if outage.Some? {
        return Failure(Unreachable(outage.value));
      }
      var found := FindById(table.rows, id);
      if found.None? {
        return Failure(RecordNotFound);
      }
      UpdateSpec(table, id, changes);
      r := Success(Apply(found.value, changes));
      table := Table(UpdateRows(table.rows, id, changes), table.nextId);
    }

    /** `delete({ where: { id } })`: fails with P2025 when no row has the id. */
    method Delete(id: int) returns (r: Result<User, DbError>)
      requires Valid()
      modifies this
      ensures Valid() && outage == old(outage)
      ensures old(outage).Some? ==> r == Failure(Unreachable(old(outage).value)) && table == old(table)
      ensures old(outage).None? && FindById(old(table).rows, id).None? ==>
                r == Failure(RecordNotFound) && table == old(table)
      ensures old(outage).None? && FindById(old(table).rows, id).Some? ==>
                && r == Success(FindById(old(table).rows, id).value)
                && table == Table(RemoveRows(old(table).rows, id), old(table).nextId)
    {
      if outage.Some? {
        return Failure(Unreachable(outage.value));
      }
      var found := FindById(table.rows, id);
      if found.None? {
        return Failure(RecordNotFound);
      }
      RemoveSpec(table, id);
      r := Success(found.value);
      table := Table(RemoveRows(table.rows, id), table.nextId);
    }
  }
}
