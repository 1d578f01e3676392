/**
 * The two views of a request agree: a whole request, as the service and the handlers
 * run it, is one particular interleaving, the one in which nothing else runs between
 * its steps. What holds of all interleavings therefore holds of whole requests.
 */
module AtomicRequests {
  import opened Wrappers
  import opened Text
  import opened Domain
  import opened UserTable
  import opened ReadModel
  import opened DetailedUser
  import opened UserService
  import opened Interleaving
  import CommandHandlers
  import CacheRefinement

  /** After its first step a call either has failed or has only its cache write left to do. */
  ghost predicate Continues(next: Sys, pid: nat, call: Call, env: Env, s: Store, ok: bool)
    requires pid in next.procs
  {
    match next.procs[pid]
    case RespondNext(c, good) => c == call && good == ok && next.store == s
    case StorePreviewNext(u, c) =>
      && c == call && ok == env.write.NoFault?
      && s == next.store.(cache := Upsert(next.store.cache, u, env.write))
    case DropPreviewNext(id, c) =>
      && c == call && ok == env.write.NoFault?
      && s == next.store.(cache := DeleteByID(next.store.cache, id, env.write))
    case _ => false
  }

  lemma RowIsDone(sys: Sys, pid: nat, done: (Db, Result<Row, Error>), call: Call, env: Env)
    requires pid !in sys.procs
    ensures var next, s := AfterRow(sys, pid, done, call), sys.store.(db := done.0);
            && pid in next.procs && next.procs - {pid} == sys.procs && next.results == sys.results
            && match done.1
               case Failure(_) => Continues(next, pid, call, env, s, false)
               case Success(row) =>
                 if call.kind.Create? || call.kind.Activate? then
                   Continues(next, pid, call, env, StorePreview(s, RowToUser(row), env).0, env.write.NoFault?)
                 else
                   Continues(next, pid, call, env, DropPreview(s, row.id, env).0, env.write.NoFault?)
  {
  }

  lemma CallBegins(sys: Sys, files: Files, pid: nat, origin: Origin, kind: Kind, p: CreateUserParams, env: Env)
    requires Keyed(sys.store.db.rows) && pid !in sys.procs && !kind.Read?
    ensures var next := Step(sys, files, BeginCall(pid, origin, kind, p, env.now, env.db));
            var (s, ok) := CommandHandlers.Perform(sys.store, kind, p, env);
            && pid in next.procs && next.procs - {pid} == sys.procs && next.results == sys.results
            && Continues(next, pid, Call(origin, kind, p.id), env, s, ok)
  {
    var call := Call(origin, kind, p.id);
    if p.id == "" {
      var begin := BeginCall(pid, origin, kind, p, env.now, env.db);
      assert Step(sys, files, begin) == Goto(sys, pid, RespondNext(call, false));
    } else {
      RowIsDone(sys, pid, ChangeRow(sys.store.db, kind, p, env.now, env.db), call, env);
    }
  }

  lemma CallEnds(next: Sys, files: Files, pid: nat, call: Call, env: Env, s: Store, ok: bool)
    returns (rest: seq<Action>)
    requires pid in next.procs && Continues(next, pid, call, env, s, ok)
    ensures Leads(next, files, rest,
                  Sys(s, next.procs - {pid},
                      if env.publish.Applies() then next.results + Reports(call, ok) else next.results))
  {
    var end := next;
    rest := [];
    if !next.procs[pid].RespondNext? {
      rest, end := Extend(next, files, rest, end, Advance(pid, env.write, false));
    }
    assert end.store == s && end.procs[pid] == RespondNext(call, ok) && end.procs - {pid} == next.procs - {pid};
    rest, end := Extend(next, files, rest, end, Advance(pid, env.publish, false));
  }

  /** A handler's call, from its first statement to the publication of its result. */
  lemma CommandIsRun(sys: Sys, files: Files, pid: nat, origin: Origin, kind: Kind, p: CreateUserParams, env: Env)
    returns (trace: seq<Action>)
    requires Keyed(sys.store.db.rows) && pid !in sys.procs && !kind.Read?
    ensures var (w, _) := CommandHandlers.PerformAndReport(
              CommandHandlers.World(sys.store, sys.results), origin, kind, p, env);
            Leads(sys, files, trace, Sys(w.store, sys.procs, w.results))
  {
    var begin := BeginCall(pid, origin, kind, p, env.now, env.db);
    var next := Step(sys, files, begin);
    var (s, ok) := CommandHandlers.Perform(sys.store, kind, p, env);
    var call := Call(origin, kind, p.id);
    CallBegins(sys, files, pid, origin, kind, p, env);
    var rest := CallEnds(next, files, pid, call, env, s, ok);
    trace := [begin] + rest;
    assert trace[1..] == rest;
    assert Reports(call, ok) == [] ==> sys.results + Reports(call, ok) == sys.results;
  }

  lemma Prepend(sys: Sys, files: Files, a: Action, rest: seq<Action>, end: Sys) returns (trace: seq<Action>)
    requires Enabled(sys, a) && Leads(Step(sys, files, a), files, rest, end)
    ensures Leads(sys, files, trace, end)
  {
    trace := [a] + rest;
    assert trace[1..] == rest;
  }

  lemma Single(sys: Sys, files: Files, a: Action) returns (trace: seq<Action>)
    requires Enabled(sys, a)
    ensures Leads(sys, files, trace, Step(sys, files, a))
  {
    trace := [a];
  }

  lemma LoadIsRun(sys: Sys, files: Files, pid: nat, id: string, env: Env) returns (trace: seq<Action>)
    requires pid in sys.procs && sys.procs[pid] == LoadPreviewNext(id)
    ensures var s := match LoadUserPreview(sys.store.db, files, id, env)
                     case Failure(_) => sys.store
                     case Success(u) => StorePreview(sys.store, u, env).0;
            Leads(sys, files, trace, Sys(s, sys.procs - {pid}, sys.results))
  {
    var load := Advance(pid, env.db, env.filesUp);
    var loaded := Step(sys, files, load);
    match LoadUserPreview(sys.store.db, files, id, env)
    case Failure(_) =>
      trace := Single(sys, files, load);
    case Success(u) =>
      assert loaded == Goto(sys, pid, StorePreviewNext(u, Call(Api, Read, id)));
      var rest := CallEnds(loaded, files, pid, Call(Api, Read, id), env.(publish := NoFault),
                           StorePreview(sys.store, u, env).0, env.write.NoFault?);
      assert loaded.procs - {pid} == sys.procs - {pid} && sys.results + [] == sys.results;
      trace := Prepend(sys, files, load, rest, Sys(StorePreview(sys.store, u, env).0, sys.procs - {pid}, sys.results));
  }

  lemma PreviewIsRun(sys: Sys, files: Files, pid: nat, userId: string, env: Env) returns (trace: seq<Action>)
    requires pid !in sys.procs
    ensures Leads(sys, files, trace, sys.(store := GetUserPreviewByID(sys.store, files, userId, env).0))
  {
    var begin := BeginPreview(pid, userId, env.cacheUp, env.filesUp);
    var next := Step(sys, files, begin);
    if next == sys {
      trace := Single(sys, files, begin);
    } else {
      assert next.procs - {pid} == sys.procs;
      var rest: seq<Action>;
      var end := sys.(store := GetUserPreviewByID(sys.store, files, userId, env).0);
      if next.procs[pid].RefreshPreviewNext? {
        rest := Single(next, files, Advance(pid, env.write, false));
      } else {
        rest := LoadIsRun(next, files, pid, TrimSpace(userId), env);
      }
      trace := Prepend(sys, files, begin, rest, end);
    }
  }

  lemma StoreDetailedIsRun(sys: Sys, files: Files, pid: nat, u: User, env: Env) returns (trace: seq<Action>)
    requires pid in sys.procs && sys.procs[pid] == StoreDetailedNext(u)
    ensures var stored := sys.store.(cache := UpsertByUsername(sys.store.cache, u, env.write));
            var s := if env.write.NoFault?
                     then stored.(requested := Publish(sys.store.requested, ToEvent(u), env.publish)) else stored;
            Leads(sys, files, trace, Sys(s, sys.procs - {pid}, sys.results))
  {
    var write := Advance(pid, env.write, false);
    var stored := Step(sys, files, write);
    if env.write.NoFault? {
      assert stored.procs[pid] == PublishDetailedNext(u) && stored.procs - {pid} == sys.procs - {pid};
      var publish := Advance(pid, env.publish, false);
      var rest := Single(stored, files, publish);
      trace := Prepend(sys, files, write, rest, Step(stored, files, publish));
    } else {
      trace := Single(sys, files, write);
    }
  }

  lemma DetailedIsRun(sys: Sys, files: Files, pid: nat, name: string, env: Env) returns (trace: seq<Action>)
    requires pid !in sys.procs
    ensures Leads(sys, files, trace, sys.(store := GetDetailedUserByUsername(sys.store, files, name, env).0))
  {
    var begin := BeginDetailed(pid, name, env.cacheUp);
    var next := Step(sys, files, begin);
    if next == sys {
      trace := Single(sys, files, begin);
    } else {
      assert next.procs[pid] == LoadDetailedNext(TrimSpace(name)) && next.procs - {pid} == sys.procs;
      var load := Advance(pid, env.db, env.filesUp);
      var loaded := Step(next, files, load);
      var rest: seq<Action>;
      match FindByUsername(sys.store.db, TrimSpace(name), env.db) {
        case Failure(_) =>
          rest := Single(next, files, load);
        case Success(row) =>
          var u := DetailedFromRow(files, env.filesUp, row);
          assert loaded.procs - {pid} == sys.procs;
          rest := StoreDetailedIsRun(loaded, files, pid, u, env);
          var end := sys.(store := GetDetailedUserByUsername(sys.store, files, name, env).0);
          rest := Prepend(next, files, load, rest, end);
      }
      var end := sys.(store := GetDetailedUserByUsername(sys.store, files, name, env).0);
      trace := Prepend(sys, files, begin, rest, end);
    }
  }

  function Target(id: string): CreateUserParams {
    CreateUserParams(id, "", "", "", "")
  }

  /** Every request of the atomic model is an interleaving that starts and ends with the same requests open. */
  lemma RequestIsRun(sys: Sys, files: Files, pid: nat, r: CacheRefinement.Request, env: Env)
    returns (trace: seq<Action>)
    requires Keyed(sys.store.db.rows) && pid !in sys.procs
    requires r.Relay? ==> r.event in sys.store.requested
    requires r.Projection? ==> r.event in sys.store.projection
    ensures Leads(sys, files, trace, sys.(store := CacheRefinement.Serve(sys.store, files, r, env)))
  {
    match r
    case Create(p) => trace := CommandIsRun(sys, files, pid, Api, Create, p, env);
    case Delete(id) => trace := CommandIsRun(sys, files, pid, Api, Delete, Target(id), env);
    case Activate(id) => trace := CommandIsRun(sys, files, pid, Api, Activate, Target(id), env);
    case Deactivate(id) => trace := CommandIsRun(sys, files, pid, Api, Deactivate, Target(id), env);
    case Preview(id) => trace := PreviewIsRun(sys, files, pid, id, env);
    case Detailed(name) => trace := DetailedIsRun(sys, files, pid, name, env);
    case Relay(e) => trace := RelayIsRun(sys, files, pid, e, env);
    case Projection(e) => trace := ProjectionIsRun(sys, files, pid, e, env);
  }

  lemma RelayIsRun(sys: Sys, files: Files, pid: nat, e: DetailedEvent, env: Env) returns (trace: seq<Action>)
    requires pid !in sys.procs && e in sys.store.requested
    ensures Leads(sys, files, trace,
                  sys.(store := sys.store.(projection := Publish(sys.store.projection, e, env.publish))))
  {
    var i :| 0 <= i < |sys.store.requested| && sys.store.requested[i] == e;
    var end := sys;
    trace := [];
    trace, end := Extend(sys, files, trace, end, BeginForward(pid, i));
    trace, end := Extend(sys, files, trace, end, Advance(pid, env.publish, false));
    assert end.procs == sys.procs;
  }

  lemma ProjectionIsRun(sys: Sys, files: Files, pid: nat, e: DetailedEvent, env: Env) returns (trace: seq<Action>)
    requires pid !in sys.procs && e in sys.store.projection
    ensures Leads(sys, files, trace, sys.(store := sys.store.(cache := Project(sys.store.cache, e, env.write).0)))
  {
    var i :| 0 <= i < |sys.store.projection| && sys.store.projection[i] == e;
    var end := sys;
    trace := [];
    trace, end := Extend(sys, files, trace, end, BeginProject(pid, i));
    trace, end := Extend(sys, files, trace, end, Advance(pid, env.write, false));
    assert end.procs == sys.procs;
  }
}
