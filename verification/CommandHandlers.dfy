/**
 * The Kafka handlers that turn commands into service calls and service calls into
 * published results: the registration saga and the user recovery subscriber.
 */
module CommandHandlers {
  import opened Wrappers
  import opened Text
  import opened Domain
  import opened UserService
  import opened Interleaving
  import UserTable
  import ReadModel

  /** How a handler leaves its message: done, or failed in a way that may or may not be retried. */
  datatype Outcome = Handled | Failed(permanent: bool)

  datatype World = World(store: Store, results: seq<Published>)

  // ------------------------------------------------------------ service calls

  function Discard<T>(done: (Store, Result<T, Error>)): (Store, bool) {
    (done.0, done.1.Success?)
  }

  /** One service call, as a handler sees it; the recovery and saga adapters know no other kinds. */
  function Perform(s: Store, kind: Kind, p: CreateUserParams, env: Env): (Store, bool) {
    match kind
    case Create => Discard(CreateUser(s, p, env))
    case Delete => Discard(DeleteUser(s, p.id, env))
    case Activate => Discard(ActivateUser(s, p.id, env))
    case Deactivate => Discard(DeactivateUser(s, p.id, env))
    case Read => (s, false)
  }

  /** A service call by `origin`, and the publication of its result. */
  function PerformAndReport(w: World, origin: Origin, kind: Kind, p: CreateUserParams, env: Env): (World, Outcome) {
    var (s, ok) := Perform(w.store, kind, p, env);
    var reports := Reports(Call(origin, kind, p.id), ok);
    if reports == [] then (World(s, w.results), Failed(false))
    else (World(s, if env.publish.Applies() then w.results + reports else w.results),
          if env.publish.NoFault? then Handled else Failed(false))
  }

  // --------------------------------------------------------------------- saga

  /** A saga command is its decoded parameters, or None for a payload that does not decode. */
  function HandleCreate(w: World, command: Option<CreateUserParams>, env: Env): (World, Outcome) {
    match command
    case None => (w, Failed(false))
    case Some(p) => PerformAndReport(w, Saga, Create, p.(avatarId := ""), env)
  }

  function HandleDelete(w: World, command: Option<string>, env: Env): (World, Outcome) {
    match command
    case None => (w, Failed(false))
    case Some(id) => PerformAndReport(w, Saga, Delete, CreateUserParams(id, "", "", "", ""), env)
  }

  // ----------------------------------------------------------------- recovery

  datatype Envelope = Envelope(
    aggregateType: string, operation: string, aggregateId: string, recoveryPrincipalId: string,
    payload: Option<CreateUserParams>)

  /**
   * `strings.ToLower`, as far as a comparison with ASCII words can see it: besides the
   * ASCII capitals, the dotted capital I and the Kelvin sign have ASCII lower cases.
   */
  function ToLower(s: string): string {
    seq(|s|, i requires 0 <= i < |s| =>
      if 'A' <= s[i] <= 'Z' then s[i] - 'A' + 'a'
      else if s[i] == '\U{0130}' then 'i'
      else if s[i] == '\U{212A}' then 'k'
      else s[i])
  }

  datatype Resolved = Refused(permanent: bool) | Accepted(kind: Kind, p: CreateUserParams)

  function FirstNonEmpty(a: string, b: string, c: string): string {
    if a != "" then a else if b != "" then b else c
  }

  function Resolve(e: Envelope): Resolved {
    var op := ToLower(e.operation);
    var target := CreateUserParams(e.aggregateId, "", "", "", "");
    if e.aggregateType != "user" && e.aggregateType != "users" then Refused(false)
    else if op == "post" || op == "create" then
      if e.payload.None? then Refused(false)
      else
        var p := e.payload.value;
        var id := FirstNonEmpty(p.id, e.aggregateId, e.recoveryPrincipalId);
        if Blank(id) then Refused(true) else Accepted(Create, p.(id := id, avatarId := ""))
    else if op == "delete" then Accepted(Delete, target)
    else if op == "activate" then Accepted(Activate, target)
    else if op == "deactivate" then Accepted(Deactivate, target)
    else Refused(false)
  }

  function HandleRecovery(w: World, command: Option<Envelope>, env: Env): (World, Outcome) {
    match command
    case None => (w, Failed(false))
    case Some(e) =>
      match Resolve(e)
      case Refused(permanent) => (w, Failed(permanent))
      case Accepted(kind, p) => PerformAndReport(w, Recovery, kind, p, env)
  }

  /**
   * A recovery command fails for good only when it is a creation that names no user
   * anywhere, and a completion is only published for an operation that succeeded.
   */
  lemma RecoveryOutcome(w: World, e: Envelope, env: Env)
    ensures var (after, outcome) := HandleRecovery(w, Some(e), env);
            && (outcome == Failed(true) <==>
                  && e.aggregateType in {"user", "users"} && ToLower(e.operation) in {"post", "create"}
                  && e.payload.Some?
                  && Blank(FirstNonEmpty(e.payload.value.id, e.aggregateId, e.recoveryPrincipalId)))
            && (outcome == Handled ==>
                  && Resolve(e).Accepted? && Perform(w.store, Resolve(e).kind, Resolve(e).p, env).1
                  && after.results == w.results + [RecoveryCompleted(Resolve(e).kind, Resolve(e).p.id)])
            && (after.results != w.results ==>
                  Resolve(e).Accepted? && Perform(w.store, Resolve(e).kind, Resolve(e).p, env).1)
  {
  }

  /** A completed recovery command has had the effect that its operation names. */
  lemma CompletedRecoveryTookEffect(w: World, e: Envelope, env: Env)
    requires UserTable.Keyed(w.store.db.rows) && HandleRecovery(w, Some(e), env).1 == Handled
    ensures var rows, op := HandleRecovery(w, Some(e), env).0.store.db.rows, ToLower(e.operation);
            var id := Resolve(e).p.id;
            && (op == "delete" ==> id !in rows && id in w.store.db.rows)
            && (op == "activate" ==> id in rows && rows[id].isActive && rows[id].status == Active)
            && (op == "deactivate" ==> id in rows && !rows[id].isActive && rows[id].status == RegistrationFailed)
            && (op in {"post", "create"} ==>
                  id !in w.store.db.rows && id in rows && rows[id].status == PendingRegistration
                  && rows[id].username == e.payload.value.username)
  {
  }

  /** The rows are the same but for the time of their last change. */
  ghost predicate SameButTime(before: map<string, UserTable.Row>, after: map<string, UserTable.Row>) {
    && before.Keys == after.Keys
    && forall id :: id in before ==> before[id] == after[id].(updatedAt := before[id].updatedAt)
  }

  /** Setting the status that a row has already changes its time at most. */
  lemma RepeatedStatusKeepsRows(db: UserTable.Db, id: string, status: Status, now: int, broken: Error)
    requires UserTable.Keyed(db.rows)
    requires id in db.rows && db.rows[id].status == status && db.rows[id].isActive == status.Active?
    ensures SameButTime(db.rows, UserTable.SetStatus(db, id, status, now, broken).0.rows)
  {
  }

  /** The table shows that the operation was done: there is nothing to create or delete, or the status is set. */
  predicate Done(db: UserTable.Db, kind: Kind, id: string) {
    match kind
    case Create => id in db.rows
    case Delete => id !in db.rows
    case Activate => id in db.rows && db.rows[id].status == Active && db.rows[id].isActive
    case Deactivate => id in db.rows && db.rows[id].status == RegistrationFailed && !db.rows[id].isActive
    case Read => false
  }

  lemma RepeatedCallAddsNothing(s: Store, kind: Kind, p: CreateUserParams, env: Env)
    requires UserTable.Keyed(s.db.rows) && Done(s.db, kind, p.id)
    ensures var (after, ok) := Perform(s, kind, p, env);
            && SameButTime(s.db.rows, after.db.rows)
            && (kind.Create? || kind.Delete? ==> !ok && after.db == s.db)
  {
    match kind
    case Activate => RepeatedStatusKeepsRows(s.db, p.id, Active, env.now, FailedToFindUser);
    case Deactivate => RepeatedStatusKeepsRows(s.db, p.id, RegistrationFailed, env.now, FailedToDeleteUser);
    case _ =>
  }

  /** A recovery command that completed has its operation done. */
  lemma CompletedCommandIsDone(w: World, e: Envelope, env: Env)
    requires UserTable.Keyed(w.store.db.rows) && HandleRecovery(w, Some(e), env).1 == Handled
    ensures var after := HandleRecovery(w, Some(e), env).0;
            && Resolve(e).Accepted? && UserTable.Keyed(after.store.db.rows)
            && Done(after.store.db, Resolve(e).kind, Resolve(e).p.id)
            && (ToLower(e.operation) in {"post", "create", "delete"} <==>
                  Resolve(e).kind.Create? || Resolve(e).kind.Delete?)
  {
    RecoveryOutcome(w, e, env);
    CompletedRecoveryTookEffect(w, e, env);
  }

  /**
   * A completed recovery command that is delivered again, with whatever faults: a creation
   * or deletion fails, is left for a retry, publishes nothing and changes no row; an
   * activation or deactivation changes no more than the time of the row.
   */
  lemma RedeliveredRecoveryAddsNothing(w: World, e: Envelope, first: Env, second: Env)
    requires UserTable.Keyed(w.store.db.rows) && HandleRecovery(w, Some(e), first).1 == Handled
    ensures var op, after := ToLower(e.operation), HandleRecovery(w, Some(e), first).0;
            var (again, outcome) := HandleRecovery(after, Some(e), second);
            && SameButTime(after.store.db.rows, again.store.db.rows)
            && (op in {"post", "create", "delete"} ==>
                  outcome == Failed(false) && again.results == after.results && again.store.db == after.store.db)
  {
    CompletedCommandIsDone(w, e, first);
    var after := HandleRecovery(w, Some(e), first).0;
    RepeatedCallAddsNothing(after.store, Resolve(e).kind, Resolve(e).p, second);
    assert HandleRecovery(after, Some(e), second)
           == PerformAndReport(after, Recovery, Resolve(e).kind, Resolve(e).p, second);
  }

  /** When the saga reports a created user, the row and its preview are there and show what was asked for. */
  lemma ReportedCreationIsStored(w: World, p: CreateUserParams, env: Env)
    requires HandleCreate(w, Some(p), env).0.results == w.results + [SagaResult(Create, p.id, true)]
    ensures var s := HandleCreate(w, Some(p), env).0.store;
            var key := ReadModel.UserPreviewCacheKey(p.id);
            && p.id !in w.store.db.rows && p.id in s.db.rows
            && s.db.rows == w.store.db.rows[p.id := UserTable.NewRow(p.(avatarId := ""), env.now)]
            && key in s.cache && s.cache[key].Preview?
            && s.cache[key].preview
               == ReadModel.UserCache(p.id, p.username, p.firstName, p.lastName, "", "", false)
  {
    var (_, ok) := Perform(w.store, Create, p.(avatarId := ""), env);
    SameLast(w.results, Reports(Call(Saga, Create, p.id), ok), SagaResult(Create, p.id, true));
  }

  /**
   * After a creation that fails the user is present exactly if it was before, or the row
   * was inserted and either the answer of the database or the write of the preview failed.
   */
  lemma FailedCreationLeavesUser(s: Store, p: CreateUserParams, env: Env)
    requires !Perform(s, Create, p, env).1
    ensures p.id in Perform(s, Create, p, env).0.db.rows
            <==> || p.id in s.db.rows
                 || (UserTable.Insertable(s.db, p)
                     && (env.db.ReplyLost? || (env.db.NoFault? && !env.write.NoFault?)))
  {
  }

  /** So it is for a failure that the saga reports, whether or not the report itself is acknowledged. */
  lemma ReportedFailureLeavesUser(w: World, p: CreateUserParams, env: Env)
    requires HandleCreate(w, Some(p), env).0.results == w.results + [SagaResult(Create, p.id, false)]
    ensures p.id in HandleCreate(w, Some(p), env).0.store.db.rows
            <==> || p.id in w.store.db.rows
                 || (UserTable.Insertable(w.store.db, p)
                     && (env.db.ReplyLost? || (env.db.NoFault? && !env.write.NoFault?)))
  {
    var stored := p.(avatarId := "");
    var (_, ok) := Perform(w.store, Create, stored, env);
    SameLast(w.results, Reports(Call(Saga, Create, p.id), ok), SagaResult(Create, p.id, false));
    FailedCreationLeavesUser(w.store, stored, env);
  }

  lemma SameLast(rs: seq<Published>, more: seq<Published>, last: Published)
    requires |more| == 1 && (rs + more == rs + [last] || rs == rs + [last])
    ensures more == [last]
  {
    assert |rs + [last]| == |rs| + 1;
    assert (rs + more)[|rs|] == more[0] && (rs + [last])[|rs|] == last;
  }

  // ----------------------------------------------------------------- adapters

  class Handlers {
    const service: Service
    var results: seq<Published>

    ghost function State(): World
      reads this, service, service.repo, service.readRepo
    {
      World(service.State(), results)
    }

    constructor (service: Service)
      ensures this.service == service && results == []
    {
      this.service := service;
      results := [];
    }

    method Publish(r: Published, f: Fault) returns (outcome: Outcome)
      modifies this`results
      ensures results == if f.Applies() then old(results) + [r] else old(results)
      ensures outcome == if f.NoFault? then Handled else Failed(false)
    {
      if f.Applies() {
        results := results + [r];
      }
      outcome := if f.NoFault? then Handled else Failed(false);
    }

    method OnCreate(command: Option<CreateUserParams>, env: Env) returns (outcome: Outcome)
      requires service.Valid()
      modifies this`results, service.repo, service.readRepo
      ensures service.Valid() && (State(), outcome) == HandleCreate(old(State()), command, env)
    {
      if command.None? {
        return Failed(false);
      }
      var p := command.value.(avatarId := "");
      var user := service.Create(p, env);
      if user.Failure? {
        outcome := Publish(SagaResult(Create, p.id, false), env.publish);
        return;
      }
      outcome := Publish(SagaResult(Create, p.id, true), env.publish);
    }

    method OnDelete(command: Option<string>, env: Env) returns (outcome: Outcome)
      requires service.Valid()
      modifies this`results, service.repo, service.readRepo
      ensures service.Valid() && (State(), outcome) == HandleDelete(old(State()), command, env)
    {
      if command.None? {
        return Failed(false);
      }
      var done := service.Delete(command.value, env);
      if done.Failure? {
        outcome := Publish(SagaResult(Delete, command.value, false), env.publish);
        return;
      }
      outcome := Publish(SagaResult(Delete, command.value, true), env.publish);
    }

    /** The service call of a recovery command; `ok` is false when the service refused or failed. */
    method Call(kind: Kind, p: CreateUserParams, env: Env) returns (ok: bool)
      requires service.Valid() && !kind.Read?
      modifies service.repo, service.readRepo
      ensures service.Valid() && (service.State(), ok) == Perform(old(service.State()), kind, p, env)
    {
      match kind {
        case Create =>
          var user := service.Create(p, env);
          ok := user.Success?;
        case Delete =>
          var done := service.Delete(p.id, env);
          ok := done.Success?;
        case Activate =>
          var user := service.Activate(p.id, env);
          ok := user.Success?;
        case Deactivate =>
          var done := service.Deactivate(p.id, env);
          ok := done.Success?;
      }
    }

    method OnRecovery(command: Option<Envelope>, env: Env) returns (outcome: Outcome)
      requires service.Valid()
      modifies this`results, service.repo, service.readRepo
      ensures service.Valid() && (State(), outcome) == HandleRecovery(old(State()), command, env)
    {
      if command.None? {
        return Failed(false);
      }
      var resolved := ResolveCommand(command.value);
      if resolved.Refused? {
        return Failed(resolved.permanent);
      }
      var ok := Call(resolved.kind, resolved.p, env);
      if !ok {
        return Failed(false);
      }
      outcome := Publish(RecoveryCompleted(resolved.kind, resolved.p.id), env.publish);
    }

    /** The operation and the user that a command means, as far as it can be accepted. */
    method ResolveCommand(e: Envelope) returns (r: Resolved)
      ensures r == Resolve(e)
    {
      if e.aggregateType != "user" && e.aggregateType != "users" {
        return Refused(false);
      }
      var operation := ToLower(e.operation);
      var kind: Kind;
      var p := CreateUserParams(e.aggregateId, "", "", "", "");
      if operation == "post" || operation == "create" {
        if e.payload.None? {
          return Refused(false);
        }
        kind, p := Create, e.payload.value.(avatarId := "");
        if p.id == "" {
          p := p.(id := e.aggregateId);
        }
        if p.id == "" {
          p := p.(id := e.recoveryPrincipalId);
        }
        if TrimSpace(p.id) == "" {
          return Refused(true);
        }
      } else if operation == "delete" {
        kind := Delete;
      } else if operation == "activate" {
        kind := Activate;
      } else if operation == "deactivate" {
        kind := Deactivate;
      } else {
        return Refused(false);
      }
      return Accepted(kind, p);
    }
  }
}
