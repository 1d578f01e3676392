/**
 * The `users` table, the trigger that writes `outbox_events`, and the repository that
 * runs the service's statements against them.
 */
module UserTable {
  import opened Wrappers
  import opened Domain

  datatype Row = Row(
    id: string, username: string, firstName: string, lastName: string,
    avatarId: string, about: string, isActive: bool, status: Status,
    createdAt: int, updatedAt: int)

  datatype Op = Created | Updated | Deactivated

  datatype Event = Event(aggregateId: string, op: Op, payload: Row)

  datatype Db = Db(rows: map<string, Row>, outbox: seq<Event>)

  const EMPTY_DB := Db(map[], [])

  function RowToUser(row: Row): User {
    User(row.id, row.username, "", row.firstName, row.lastName, row.avatarId, "", row.about,
         row.isActive, Some(row.status))
  }

  // ------------------------------------------------------------- statements

  predicate UsernameTaken(rows: map<string, Row>, username: string) {
    exists id :: id in rows && rows[id].username == username
  }

  /** A row change together with the event its trigger appends. */
  function Write(db: Db, op: Op, row: Row): Db {
    Db(if op.Deactivated? then db.rows - {row.id} else db.rows[row.id := row],
       db.outbox + [Event(row.id, op, row)])
  }

  function NewRow(p: CreateUserParams, now: int): Row {
    Row(p.id, p.username, p.firstName, p.lastName, p.avatarId, "", false, PendingRegistration, now, now)
  }

  /** The table takes the row. */
  predicate Insertable(db: Db, p: CreateUserParams) {
    IsUuid(p.id) && p.id !in db.rows && !UsernameTaken(db.rows, p.username)
  }

  function Insert(db: Db, p: CreateUserParams, now: int): (Db, Result<Row, Error>) {
    if !IsUuid(p.id) then (db, Failure(InvalidUserID))
    else if p.id in db.rows then (db, Failure(UserIDAlreadyTaken))
    else if UsernameTaken(db.rows, p.username) then (db, Failure(UsernameAlreadyTaken))
    else (Write(db, Created, NewRow(p, now)), Success(NewRow(p, now)))
  }

  function SetStatus(db: Db, id: string, status: Status, now: int, broken: Error): (Db, Result<Row, Error>) {
    if !IsUuid(id) then (db, Failure(broken))
    else if id !in db.rows then (db, Failure(UserNotFound))
    else
      var row := db.rows[id].(isActive := status.Active?, status := status, updatedAt := now);
      (Write(db, Updated, row), Success(row))
  }

  function Remove(db: Db, id: string): (Db, Result<Row, Error>) {
    if !IsUuid(id) then (db, Failure(FailedToDeleteUser))
    else if id !in db.rows then (db, Failure(UserNotFound))
    else (Write(db, Deactivated, db.rows[id]), Success(db.rows[id]))
  }

  /** What the caller of a statement gets when the connection may fail. */
  function Observe<T>(f: Fault, db: Db, done: (Db, Result<T, Error>), broken: Error): (Db, Result<T, Error>) {
    match f
    case NoFault => done
    case Lost => (db, Failure(broken))
    case ReplyLost => (done.0, Failure(broken))
  }

  function CreateRow(db: Db, p: CreateUserParams, now: int, f: Fault): (Db, Result<Row, Error>) {
    Observe(f, db, Insert(db, p, now), FailedToCreateUser)
  }

  function ActivateRow(db: Db, id: string, now: int, f: Fault): (Db, Result<Row, Error>) {
    Observe(f, db, SetStatus(db, id, Active, now, FailedToFindUser), FailedToFindUser)
  }

  function DeactivateRow(db: Db, id: string, now: int, f: Fault): (Db, Result<Row, Error>) {
    Observe(f, db, SetStatus(db, id, RegistrationFailed, now, FailedToDeleteUser), FailedToDeleteUser)
  }

  function DeleteRow(db: Db, id: string, f: Fault): (Db, Result<Row, Error>) {
    Observe(f, db, Remove(db, id), FailedToDeleteUser)
  }

  function FindById(db: Db, id: string, f: Fault): Result<Row, Error> {
    if !f.NoFault? || !IsUuid(id) then Failure(FailedToFindUser)
    else if id in db.rows then Success(db.rows[id])
    else Failure(UserNotFound)
  }

  ghost function FindByUsername(db: Db, username: string, f: Fault): Result<Row, Error> {
    if !f.NoFault? then Failure(FailedToFindUser)
    else if UsernameTaken(db.rows, username) then
      var id :| id in db.rows && db.rows[id].username == username;
      Success(db.rows[id])
    else Failure(UserNotFound)
  }

  // ------------------------------------------------------------- constraints

  /** Every row is stored under its own id, which is a UUID. */
  ghost predicate Keyed(rows: map<string, Row>) {
    forall id :: id in rows ==> rows[id].id == id && IsUuid(id)
  }

  ghost predicate UniqueUsernames(rows: map<string, Row>) {
    forall a, b :: a in rows && b in rows && rows[a].username == rows[b].username ==> a == b
  }

  lemma FindByUsernameIsFind(db: Db, username: string, id: string)
    requires UniqueUsernames(db.rows) && id in db.rows && db.rows[id].username == username
    ensures FindByUsername(db, username, NoFault) == Success(db.rows[id])
  {
  }

  // ------------------------------------------------------------- repository

  class PostgresRepository {
    var rows: map<string, Row>
    var outbox: seq<Event>

    ghost function State(): Db
      reads this
    {
      Db(rows, outbox)
    }

    ghost predicate Valid()
      reads this
    {
      Keyed(rows) && UniqueUsernames(rows)
    }

    constructor ()
      ensures Valid() && State() == EMPTY_DB
    {
      rows, outbox := map[], [];
    }

    /** The AFTER trigger: one event per changed row, with the new row or else the deleted one. */
    method CaptureOutboxEvent(op: Op, oldRow: Option<Row>, newRow: Option<Row>)
      requires if op.Deactivated? then oldRow.Some? else newRow.Some?
      modifies this`outbox
      ensures op.Deactivated? ==> outbox == old(outbox) + [Event(oldRow.value.id, op, oldRow.value)]
      ensures !op.Deactivated? ==> outbox == old(outbox) + [Event(newRow.value.id, op, newRow.value)]
    {
      var rowData := if op.Deactivated? then oldRow.value else newRow.value;
      outbox := outbox + [Event(rowData.id, op, rowData)];
    }

    method Create(p: CreateUserParams, now: int, f: Fault) returns (r: Result<Row, Error>)
      requires Valid()
      modifies this
      ensures Valid() && (State(), r) == CreateRow(old(State()), p, now, f)
    {
      if f.Lost? {
        return Failure(FailedToCreateUser);
      }
      if !IsUuid(p.id) {
        r := Failure(InvalidUserID);
      } else if p.id in rows {
        r := Failure(UserIDAlreadyTaken);
      } else if UsernameTaken(rows, p.username) {
        r := Failure(UsernameAlreadyTaken);
      } else {
        var row := NewRow(p, now);
        rows := rows[row.id := row];
        CaptureOutboxEvent(Created, None, Some(row));
        r := Success(row);
      }
      if f.ReplyLost? {
        r := Failure(FailedToCreateUser);
      }
    }

    /** The UPDATE shared by activation and deactivation; `broken` is how a refused id is reported. */
    method UpdateStatus(id: string, status: Status, now: int, broken: Error) returns (r: Result<Row, Error>)
      requires Valid()
      modifies this
      ensures Valid() && (State(), r) == SetStatus(old(State()), id, status, now, broken)
    {
      if !IsUuid(id) {
        return Failure(broken);
      }
      if id !in rows {
        return Failure(UserNotFound);
      }
      var row := rows[id];
      var updated := row.(isActive := status.Active?, status := status, updatedAt := now);
      rows := rows[id := updated];
      CaptureOutboxEvent(Updated, Some(row), Some(updated));
      r := Success(updated);
    }

    method ActivateByID(id: string, now: int, f: Fault) returns (r: Result<Row, Error>)
      requires Valid()
      modifies this
      ensures Valid() && (State(), r) == ActivateRow(old(State()), id, now, f)
    {
      if f.Lost? {
        return Failure(FailedToFindUser);
      }
      r := UpdateStatus(id, Active, now, FailedToFindUser);
      if f.ReplyLost? {
        r := Failure(FailedToFindUser);
      }
    }

    method DeactivateByID(id: string, now: int, f: Fault) returns (r: Result<Row, Error>)
      requires Valid()
      modifies this
      ensures Valid() && (State(), r) == DeactivateRow(old(State()), id, now, f)
    {
      if f.Lost? {
        return Failure(FailedToDeleteUser);
      }
      r := UpdateStatus(id, RegistrationFailed, now, FailedToDeleteUser);
      if f.ReplyLost? {
        r := Failure(FailedToDeleteUser);
      }
    }

    method DeleteByID(id: string, f: Fault) returns (r: Result<Row, Error>)
      requires Valid()
      modifies this
      ensures Valid() && (State(), r) == DeleteRow(old(State()), id, f)
    {
      if f.Lost? {
        return Failure(FailedToDeleteUser);
      }
      if !IsUuid(id) {
        r := Failure(FailedToDeleteUser);
      } else if id !in rows {
        r := Failure(UserNotFound);
      } else {
        var row := rows[id];
        rows := rows - {id};
        CaptureOutboxEvent(Deactivated, Some(row), None);
        r := Success(row);
      }
      if f.ReplyLost? {
        r := Failure(FailedToDeleteUser);
      }
    }

    method GetByID(id: string, f: Fault) returns (r: Result<Row, Error>)
      ensures r == FindById(State(), id, f)
    {
      if !f.NoFault? || !IsUuid(id) {
        return Failure(FailedToFindUser);
      }
      if id !in rows {
        return Failure(UserNotFound);
      }
      return Success(rows[id]);
    }

    method GetByUsername(username: string, f: Fault) returns (r: Result<Row, Error>)
      requires Valid()
      ensures r == FindByUsername(State(), username, f)
    {
      if !f.NoFault? {
        return Failure(FailedToFindUser);
      }
      if id :| id in rows && rows[id].username == username {
        FindByUsernameIsFind(State(), username, id);
        return Success(rows[id]);
      }
      return Failure(UserNotFound);
    }

    method ExistsByUsername(username: string, f: Fault) returns (r: Result<bool, Error>)
      ensures r == if f.NoFault? then Success(UsernameTaken(rows, username)) else Failure(FailedToFindUser)
    {
      if !f.NoFault? {
        return Failure(FailedToFindUser);
      }
      return Success(UsernameTaken(rows, username));
    }
  }
}
