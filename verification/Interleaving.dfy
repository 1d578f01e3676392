/**
 * Requests that overlap. Every call to the table, the cache, the file service or a
 * topic is a step of its own; between two steps of one request any others may run,
 * a call may fail in any way, and a request may die.
 */
module Interleaving {
  import opened Wrappers
  import opened Text
  import opened Domain
  import opened UserTable
  import opened ReadModel
  import opened DetailedUser
  import opened UserService
  import Outbox

  /** Who made a service call: a client of the API, the registration saga, or a recovery command. */
  datatype Origin = Api | Saga | Recovery

  datatype Kind = Create | Delete | Activate | Deactivate | Read

  datatype Call = Call(origin: Origin, kind: Kind, id: string)

  /** A saga result tells success and failure; a recovery command is only ever reported completed. */
  datatype Published = SagaResult(kind: Kind, id: string, success: bool) | RecoveryCompleted(kind: Kind, id: string)

  /** What a request in progress does next. */
  datatype Proc =
    | StorePreviewNext(u: User, call: Call)
    | DropPreviewNext(id: string, call: Call)
    | RefreshPreviewNext(u: User)
    | LoadPreviewNext(id: string)
    | LoadDetailedNext(username: string)
    | StoreDetailedNext(u: User)
    | PublishDetailedNext(u: User)
    | ForwardNext(event: DetailedEvent)
    | ProjectNext(event: DetailedEvent)
    | RespondNext(call: Call, ok: bool)

  datatype Sys = Sys(store: Store, procs: map<nat, Proc>, results: seq<Published>)

  datatype Action =
    | BeginCall(pid: nat, origin: Origin, kind: Kind, p: CreateUserParams, now: int, f: Fault)
    | BeginPreview(pid: nat, userId: string, cacheUp: bool, filesUp: bool)
    | BeginDetailed(pid: nat, name: string, cacheUp: bool)
    | BeginForward(pid: nat, index: nat)
    | BeginProject(pid: nat, index: nat)
    | Advance(pid: nat, f: Fault, filesUp: bool)
    | Crash(pid: nat)

  predicate Enabled(sys: Sys, a: Action) {
    match a
    case Advance(pid, _, _) => pid in sys.procs
    case Crash(pid) => pid in sys.procs
    case BeginCall(pid, _, kind, _, _, _) => pid !in sys.procs && !kind.Read?
    case BeginForward(pid, i) => pid !in sys.procs && i < |sys.store.requested|
    case BeginProject(pid, i) => pid !in sys.procs && i < |sys.store.projection|
    case _ => a.pid !in sys.procs
  }

  function WithDb(sys: Sys, db: Db): Sys {
    sys.(store := sys.store.(db := db))
  }

  function WithCache(sys: Sys, c: Cache): Sys {
    sys.(store := sys.store.(cache := c))
  }

  function Goto(sys: Sys, pid: nat, p: Proc): Sys {
    sys.(procs := sys.procs[pid := p])
  }

  function End(sys: Sys, pid: nat): Sys {
    sys.(procs := sys.procs - {pid})
  }

  /** The statement of a call; all but a creation only use the id. */
  function ChangeRow(db: Db, kind: Kind, p: CreateUserParams, now: int, f: Fault): (Db, Result<Row, Error>)
    requires !kind.Read?
  {
    match kind
    case Create => CreateRow(db, p, now, f)
    case Delete => DeleteRow(db, p.id, f)
    case Activate => ActivateRow(db, p.id, now, f)
    case Deactivate => DeactivateRow(db, p.id, now, f)
  }

  /** After a row operation of a call: go on to the cache, or answer with the failure. */
  function AfterRow(sys: Sys, pid: nat, done: (Db, Result<Row, Error>), call: Call): Sys {
    match done.1
    case Failure(_) => Goto(WithDb(sys, done.0), pid, RespondNext(call, false))
    case Success(row) =>
      Goto(WithDb(sys, done.0), pid,
           if call.kind.Create? || call.kind.Activate? then StorePreviewNext(RowToUser(row), call)
           else DropPreviewNext(row.id, call))
  }

  function Reports(call: Call, ok: bool): seq<Published> {
    match call.origin
    case Api => []
    case Saga => [SagaResult(call.kind, call.id, ok)]
    case Recovery => if ok then [RecoveryCompleted(call.kind, call.id)] else []
  }

  ghost function AdvanceProc(sys: Sys, files: Files, pid: nat, f: Fault, filesUp: bool): Sys
    requires pid in sys.procs
  {
    var s := sys.store;
    match sys.procs[pid]
    case StorePreviewNext(u, call) =>
      Goto(WithCache(sys, Upsert(s.cache, u, f)), pid, RespondNext(call, f.NoFault?))
    case DropPreviewNext(id, call) =>
      Goto(WithCache(sys, DeleteByID(s.cache, id, f)), pid, RespondNext(call, f.NoFault?))
    case RefreshPreviewNext(u) => End(WithCache(sys, Upsert(s.cache, u, f)), pid)
    case LoadPreviewNext(id) =>
      (match FindById(s.db, id, f)
       case Failure(_) => End(sys, pid)
       case Success(row) =>
         Goto(sys, pid, StorePreviewNext(WithFileURL(files, filesUp, RowToUser(row)), Call(Api, Read, id))))
    case LoadDetailedNext(username) =>
      (match FindByUsername(s.db, username, f)
       case Failure(_) => End(sys, pid)
       case Success(row) => Goto(sys, pid, StoreDetailedNext(DetailedFromRow(files, filesUp, row))))
    case StoreDetailedNext(u) =>
      var stored := WithCache(sys, UpsertByUsername(s.cache, u, f));
      if f.NoFault? then Goto(stored, pid, PublishDetailedNext(u)) else End(stored, pid)
    case PublishDetailedNext(u) =>
      End(sys.(store := s.(requested := Publish(s.requested, ToEvent(u), f))), pid)
    case ForwardNext(e) => End(sys.(store := s.(projection := Publish(s.projection, e, f))), pid)
    case ProjectNext(e) => End(WithCache(sys, Project(s.cache, e, f).0), pid)
    case RespondNext(call, ok) =>
      End(sys.(results := if f.Applies() then sys.results + Reports(call, ok) else sys.results), pid)
  }

  ghost function Step(sys: Sys, files: Files, a: Action): Sys
    requires Enabled(sys, a)
  {
    var s := sys.store;
    match a
    case BeginCall(pid, origin, kind, p, now, f) =>
      var call := Call(origin, kind, p.id);
      if p.id == "" then Goto(sys, pid, RespondNext(call, false))
      else AfterRow(sys, pid, ChangeRow(s.db, kind, p, now, f), call)
    case BeginPreview(pid, userId, cacheUp, filesUp) =>
      if Blank(userId) then sys
      else
        (match GetByID(s.cache, TrimSpace(userId), cacheUp)
         case Failure(_) => Goto(sys, pid, LoadPreviewNext(TrimSpace(userId)))
         case Success(u) =>
           match CachedWithFileURL(files, filesUp, u)
           case Some(filled) => Goto(sys, pid, RefreshPreviewNext(filled))
           case None => sys)
    case BeginDetailed(pid, name, cacheUp) =>
      if Blank(name) || GetByUsername(s.cache, TrimSpace(name), cacheUp).Success? then sys
      else Goto(sys, pid, LoadDetailedNext(TrimSpace(name)))
    case BeginForward(pid, i) => Goto(sys, pid, ForwardNext(s.requested[i]))
    case BeginProject(pid, i) => Goto(sys, pid, ProjectNext(s.projection[i]))
    case Advance(pid, f, filesUp) => AdvanceProc(sys, files, pid, f, filesUp)
    case Crash(pid) => End(sys, pid)
  }

  /** `trace` leads from `from` to `to`. */
  ghost predicate Leads(from: Sys, files: Files, trace: seq<Action>, to: Sys)
    decreases |trace|
  {
    if trace == [] then from == to
    else Enabled(from, trace[0]) && Leads(Step(from, files, trace[0]), files, trace[1..], to)
  }

  lemma {:induction false} LeadsOneMore(from: Sys, files: Files, trace: seq<Action>, to: Sys, a: Action)
    requires Leads(from, files, trace, to) && Enabled(to, a)
    ensures Leads(from, files, trace + [a], Step(to, files, a))
    decreases |trace|
  {
    var more := trace + [a];
    if trace == [] {
      assert more[1..] == [];
    } else {
      assert more[1..] == trace[1..] + [a];
      LeadsOneMore(Step(from, files, trace[0]), files, trace[1..], to, a);
    }
  }

  lemma Extend(from: Sys, files: Files, trace: seq<Action>, to: Sys, a: Action) returns (more: seq<Action>, next: Sys)
    requires Leads(from, files, trace, to) && Enabled(to, a)
    ensures more == trace + [a] && next == Step(to, files, a) && Leads(from, files, more, next)
  {
    more, next := trace + [a], Step(to, files, a);
    LeadsOneMore(from, files, trace, to, a);
  }

  lemma CallChangesTable(db: Db, kind: Kind, p: CreateUserParams, now: int, f: Fault)
    requires Keyed(db.rows) && !kind.Read?
    ensures Outbox.Changes(db, ChangeRow(db, kind, p, now, f).0)
  {
    match kind
    case Create => Outbox.ExecChanges(db, Outbox.Create(p, now, f));
    case Delete => Outbox.ExecChanges(db, Outbox.Delete(p.id, f));
    case Activate => Outbox.ExecChanges(db, Outbox.Activate(p.id, now, f));
    case Deactivate => Outbox.ExecChanges(db, Outbox.Deactivate(p.id, now, f));
  }

  /** The row changes of a step are those of one statement, or none. */
  lemma StepChangesTable(sys: Sys, files: Files, a: Action)
    requires Keyed(sys.store.db.rows) && Enabled(sys, a)
    ensures Outbox.Changes(sys.store.db, Step(sys, files, a).store.db)
  {
    if a.BeginCall? { CallChangesTable(sys.store.db, a.kind, a.p, a.now, a.f); }
  }
}
