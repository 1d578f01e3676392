/**
 * Success reports are never more than the facts. However often commands are
 * redelivered, retried, overlapped or cut short, a user's reported creations are
 * covered by `created` events and the reported deletions by `deactivated` events.
 */
module ResultAccounting {
  import opened Wrappers
  import opened Domain
  import opened UserTable
  import opened UserService
  import opened Interleaving
  import Outbox

  predicate ReportsSuccess(r: Published, kind: Kind, id: string) {
    r.kind == kind && r.id == id && (r.RecoveryCompleted? || r.success)
  }

  /** How many published results say that `kind` succeeded for `id`. */
  function Successes(rs: seq<Published>, kind: Kind, id: string): nat {
    if rs == [] then 0
    else Successes(rs[..|rs| - 1], kind, id) + if ReportsSuccess(rs[|rs| - 1], kind, id) then 1 else 0
  }

  /** The request has changed its row and may still report it. */
  predicate MayReport(p: Proc, kind: Kind, id: string) {
    match p
    case StorePreviewNext(_, call) => call.kind == kind && call.id == id
    case DropPreviewNext(_, call) => call.kind == kind && call.id == id
    case RespondNext(call, ok) => ok && call.kind == kind && call.id == id
    case _ => false
  }

  ghost function Reporters(procs: map<nat, Proc>, kind: Kind, id: string): set<nat> {
    set pid | pid in procs && MayReport(procs[pid], kind, id)
  }

  /** `op` is the event that a successful operation of this kind leaves. */
  predicate Leaves(kind: Kind, op: Op) {
    (kind.Create? && op.Created?) || (kind.Delete? && op.Deactivated?)
  }

  /** Reports made and still to come are covered by events of the outbox. */
  ghost predicate Covered(sys: Sys, kind: Kind, op: Op, id: string) {
    Successes(sys.results, kind, id) + |Reporters(sys.procs, kind, id)|
    <= Outbox.CountOp(sys.store.db.outbox, id, op)
  }

  // --------------------------------------------------------------- bookkeeping

  /** 1 if the request can still report, and 0 otherwise. */
  function Weight(procs: map<nat, Proc>, pid: nat, kind: Kind, id: string): nat {
    if pid in procs && MayReport(procs[pid], kind, id) then 1 else 0
  }

  lemma CountWithout(pids: set<nat>, pid: nat)
    ensures |pids| == |pids - {pid}| + if pid in pids then 1 else 0
  {
    if pid in pids { assert pids == (pids - {pid}) + {pid}; } else { assert pids == pids - {pid}; }
  }

  lemma OthersKeepReporting(procs: map<nat, Proc>, pid: nat, p: Proc, kind: Kind, id: string)
    ensures Reporters(procs[pid := p], kind, id) - {pid} == Reporters(procs, kind, id) - {pid}
  {
  }

  lemma ReportersAfterGoto(procs: map<nat, Proc>, pid: nat, p: Proc, kind: Kind, id: string)
    ensures |Reporters(procs[pid := p], kind, id)|
            == |Reporters(procs, kind, id)| - Weight(procs, pid, kind, id)
               + if MayReport(p, kind, id) then 1 else 0
  {
    var before, after := Reporters(procs, kind, id), Reporters(procs[pid := p], kind, id);
    OthersKeepReporting(procs, pid, p, kind, id);
    CountWithout(before, pid);
    CountWithout(after, pid);
    assert pid in before <==> pid in procs && MayReport(procs[pid], kind, id);
    assert pid in after <==> MayReport(p, kind, id);
  }

  lemma ReportersAfterEnd(procs: map<nat, Proc>, pid: nat, kind: Kind, id: string)
    requires pid in procs
    ensures |Reporters(procs - {pid}, kind, id)|
            == |Reporters(procs, kind, id)| - if MayReport(procs[pid], kind, id) then 1 else 0
  {
    assert Reporters(procs - {pid}, kind, id) == Reporters(procs, kind, id) - {pid};
  }

  lemma SuccessesAfterPublish(rs: seq<Published>, call: Call, ok: bool, kind: Kind, id: string)
    ensures Successes(rs + Reports(call, ok), kind, id)
            <= Successes(rs, kind, id) + if ok && call.kind == kind && call.id == id then 1 else 0
  {
    var more := Reports(call, ok);
    if more != [] {
      assert (rs + more)[..|rs|] == rs;
    } else {
      assert rs + more == rs;
    }
  }

  // --------------------------------------------------------------------- steps

  /** The events of an operation after at most one write. */
  lemma CountAfterChange(before: Db, after: Db, op: Op, id: string)
    requires before == after || exists any, row :: after == Write(before, any, row)
    ensures Outbox.CountOp(before.outbox, id, op) <= Outbox.CountOp(after.outbox, id, op)
    ensures (exists row: Row :: row.id == id && after == Write(before, op, row)) ==>
              Outbox.CountOp(after.outbox, id, op) == Outbox.CountOp(before.outbox, id, op) + 1
  {
    if row: Row :| row.id == id && after == Write(before, op, row) {
      Outbox.EventIsCounted(before.outbox, Event(row.id, op, row), id);
    } else if after != before {
      var any, row :| after == Write(before, any, row);
      Outbox.EventIsCounted(before.outbox, Event(row.id, any, row), id);
    }
  }

  /** A call begins: it reports only if its own statement left its own event. */
  lemma CallIsCovered(sys: Sys, pid: nat, done: (Db, Result<Row, Error>), call: Call, kind: Kind, op: Op, id: string)
    requires pid !in sys.procs && Leaves(kind, op) && Covered(sys, kind, op, id)
    requires done.1.Success? && call.kind == kind ==>
               exists row: Row :: row.id == call.id && done.0 == Write(sys.store.db, op, row)
    requires done.0 == sys.store.db || exists any, row :: done.0 == Write(sys.store.db, any, row)
    ensures Covered(AfterRow(sys, pid, done, call), kind, op, id)
  {
    var after := AfterRow(sys, pid, done, call);
    ReportersAfterGoto(sys.procs, pid, after.procs[pid], kind, id);
    CountAfterChange(sys.store.db, done.0, op, id);
  }

  /** A creation or deletion that succeeds has left its own event. */
  lemma ReportedRowIsWritten(db: Db, kind: Kind, op: Op, p: CreateUserParams, now: int, f: Fault)
    requires Keyed(db.rows) && Leaves(kind, op)
    ensures var done := ChangeRow(db, kind, p, now, f);
            done.1.Success? ==> exists row: Row :: row.id == p.id && done.0 == Write(db, op, row)
  {
    if ChangeRow(db, kind, p, now, f).1.Success? {
      var row := if kind.Create? then NewRow(p, now) else db.rows[p.id];
      assert row.id == p.id && ChangeRow(db, kind, p, now, f).0 == Write(db, op, row);
    }
  }

  lemma BeginIsCovered(sys: Sys, files: Files, a: Action, kind: Kind, op: Op, id: string)
    requires Keyed(sys.store.db.rows) && Leaves(kind, op) && Covered(sys, kind, op, id)
    requires Enabled(sys, a) && a.BeginCall?
    ensures Covered(Step(sys, files, a), kind, op, id)
  {
    var db, call := sys.store.db, Call(a.origin, a.kind, a.p.id);
    if a.p.id == "" {
      ReportersAfterGoto(sys.procs, a.pid, RespondNext(call, false), kind, id);
    } else {
      CallChangesTable(db, a.kind, a.p, a.now, a.f);
      if a.kind == kind { ReportedRowIsWritten(db, kind, op, a.p, a.now, a.f); }
      CallIsCovered(sys, a.pid, ChangeRow(db, a.kind, a.p, a.now, a.f), call, kind, op, id);
    }
  }

  /** A step that neither writes a row nor publishes, of a request that gains no right to report. */
  lemma QuietStepIsCovered(sys: Sys, after: Sys, pid: nat, kind: Kind, op: Op, id: string)
    requires pid in sys.procs && Covered(sys, kind, op, id)
    requires after.results == sys.results && after.store.db == sys.store.db
    requires if pid in after.procs then
               && after.procs == sys.procs[pid := after.procs[pid]]
               && (MayReport(after.procs[pid], kind, id) ==> MayReport(sys.procs[pid], kind, id))
             else after.procs == sys.procs - {pid}
    ensures Covered(after, kind, op, id)
  {
    if pid in after.procs {
      ReportersAfterGoto(sys.procs, pid, after.procs[pid], kind, id);
    } else {
      ReportersAfterEnd(sys.procs, pid, kind, id);
    }
  }

  lemma AdvanceIsCovered(sys: Sys, files: Files, pid: nat, f: Fault, filesUp: bool, kind: Kind, op: Op, id: string)
    requires pid in sys.procs && Leaves(kind, op) && Covered(sys, kind, op, id)
    ensures Covered(AdvanceProc(sys, files, pid, f, filesUp), kind, op, id)
  {
    var after := AdvanceProc(sys, files, pid, f, filesUp);
    match sys.procs[pid]
    case RespondNext(call, ok) =>
      ReportersAfterEnd(sys.procs, pid, kind, id);
      SuccessesAfterPublish(sys.results, call, ok, kind, id);
    case _ => QuietStepIsCovered(sys, after, pid, kind, op, id);
  }

  lemma StepIsCovered(sys: Sys, files: Files, a: Action, kind: Kind, op: Op, id: string)
    requires Keyed(sys.store.db.rows) && Enabled(sys, a) && Leaves(kind, op) && Covered(sys, kind, op, id)
    ensures Covered(Step(sys, files, a), kind, op, id)
  {
    var after := Step(sys, files, a);
    match a
    case Advance(pid, f, filesUp) => AdvanceIsCovered(sys, files, pid, f, filesUp, kind, op, id);
    case Crash(pid) => ReportersAfterEnd(sys.procs, pid, kind, id);
    case BeginPreview(pid, _, _, _) =>
      if after != sys { ReportersAfterGoto(sys.procs, pid, after.procs[pid], kind, id); }
    case BeginDetailed(pid, _, _) =>
      if after != sys { ReportersAfterGoto(sys.procs, pid, after.procs[pid], kind, id); }
    case BeginForward(pid, i) => ReportersAfterGoto(sys.procs, pid, after.procs[pid], kind, id);
    case BeginProject(pid, i) => ReportersAfterGoto(sys.procs, pid, after.procs[pid], kind, id);
    case _ => BeginIsCovered(sys, files, a, kind, op, id);
  }

  lemma {:induction false} RunIsCovered(
    sys: Sys, files: Files, trace: seq<Action>, end: Sys, kind: Kind, op: Op, id: string)
    requires Outbox.Lawful(sys.store.db) && Leaves(kind, op) && Covered(sys, kind, op, id)
    requires Leads(sys, files, trace, end)
    ensures Covered(end, kind, op, id) && Outbox.Lawful(end.store.db)
    decreases |trace|
  {
    if trace != [] {
      var next := Step(sys, files, trace[0]);
      StepIsCovered(sys, files, trace[0], kind, op, id);
      StepChangesTable(sys, files, trace[0]);
      Outbox.ChangeIsLawful(sys.store.db, next.store.db);
      RunIsCovered(next, files, trace[1..], end, kind, op, id);
    }
  }

  /**
   * Over every run from an empty system: reported creations of a user are at most its
   * `created` events, reported deletions at most its `deactivated` events, and the
   * two event counts differ by one exactly while the row exists.
   */
  lemma ReportsAreCovered(start: Sys, files: Files, trace: seq<Action>, end: Sys, id: string)
    requires start.store.db == EMPTY_DB && start.procs == map[] && start.results == []
    requires Leads(start, files, trace, end)
    ensures var es := end.store.db.outbox;
            && Successes(end.results, Create, id) <= Outbox.CountOp(es, id, Created)
            && Successes(end.results, Delete, id) <= Outbox.CountOp(es, id, Deactivated)
            && Outbox.CountOp(es, id, Created) - Outbox.CountOp(es, id, Deactivated)
               == if id in end.store.db.rows then 1 else 0
  {
    RunIsCovered(start, files, trace, end, Create, Created, id);
    RunIsCovered(start, files, trace, end, Delete, Deactivated, id);
    assert Outbox.LivesOf(end.store.db, id);
  }

  /**
   * The converse fails: a creation whose report is published but not acknowledged is
   * retried, and the retry reports a failure for a user who exists.
   */
  lemma FailedReportForPresentUser(start: Sys, files: Files, p: CreateUserParams) returns (trace: seq<Action>, end: Sys)
    requires start.store.db == EMPTY_DB && start.procs == map[] && start.results == [] && IsUuid(p.id)
    ensures Leads(start, files, trace, end)
    ensures p.id in end.store.db.rows
    ensures end.results == [SagaResult(Create, p.id, true), SagaResult(Create, p.id, false)]
  {
    UuidIsTrimmed(p.id);
    trace, end := [], start;
    trace, end := Extend(start, files, trace, end, BeginCall(0, Saga, Create, p, 0, NoFault));
    trace, end := Extend(start, files, trace, end, Advance(0, NoFault, true));
    trace, end := Extend(start, files, trace, end, Advance(0, ReplyLost, true));
    trace, end := Extend(start, files, trace, end, BeginCall(0, Saga, Create, p, 0, NoFault));
    trace, end := Extend(start, files, trace, end, Advance(0, NoFault, true));
  }

  // -------------------------------------------------- what a failed report means

  /** No call of the trace is about this user. */
  ghost predicate LeavesAlone(trace: seq<Action>, id: string) {
    forall i :: 0 <= i < |trace| && trace[i].BeginCall? ==> trace[i].p.id != id
  }

  /** A write or publication of this request fails, or its reply does. */
  ghost predicate WriteFails(trace: seq<Action>, pid: nat) {
    exists i :: 0 <= i < |trace| && trace[i].Advance? && trace[i].pid == pid && !trace[i].f.NoFault?
  }

  /** The request may yet report that this call failed. */
  predicate CanFail(procs: map<nat, Proc>, pid: nat, call: Call) {
    && pid in procs
    && match procs[pid]
       case StorePreviewNext(_, c) => c == call
       case DropPreviewNext(_, c) => c == call
       case RespondNext(c, ok) => c == call && !ok
       case _ => false
  }

  lemma StepLeavesRowAlone(sys: Sys, files: Files, a: Action, id: string)
    requires Keyed(sys.store.db.rows) && Enabled(sys, a) && (a.BeginCall? ==> a.p.id != id)
    ensures id in Step(sys, files, a).store.db.rows <==> id in sys.store.db.rows
  {
  }

  lemma {:induction false} RowIsLeftAlone(from: Sys, files: Files, trace: seq<Action>, to: Sys, id: string)
    requires Keyed(from.store.db.rows) && Leads(from, files, trace, to) && LeavesAlone(trace, id)
    ensures id in to.store.db.rows <==> id in from.store.db.rows
    decreases |trace|
  {
    if trace != [] {
      StepChangesTable(from, files, trace[0]);
      StepLeavesRowAlone(from, files, trace[0], id);
      RowIsLeftAlone(Step(from, files, trace[0]), files, trace[1..], to, id);
    }
  }

  /** What the step of a request makes of its chance to report the failure of a call. */
  lemma ChanceToFail(sys: Sys, files: Files, a: Action, pid: nat, call: Call)
    requires Enabled(sys, a) && !call.kind.Read? && (a.BeginCall? ==> a.p.id != call.id)
    ensures var next := Step(sys, files, a);
            && (CanFail(next.procs, pid, call) ==> CanFail(sys.procs, pid, call))
            && (CanFail(next.procs, pid, call) && sys.procs[pid].StorePreviewNext? ==>
                  next.procs[pid].StorePreviewNext? || (a.Advance? && a.pid == pid && !a.f.NoFault?))
  {
  }

  lemma {:induction false} SettledCallStaysSettled(
    from: Sys, files: Files, trace: seq<Action>, to: Sys, pid: nat, call: Call)
    requires Leads(from, files, trace, to) && LeavesAlone(trace, call.id) && !call.kind.Read?
    requires !CanFail(from.procs, pid, call)
    ensures !CanFail(to.procs, pid, call)
    decreases |trace|
  {
    if trace != [] {
      ChanceToFail(from, files, trace[0], pid, call);
      SettledCallStaysSettled(Step(from, files, trace[0]), files, trace[1..], to, pid, call);
    }
  }

  lemma {:induction false} FailureNeedsLostWrite(
    from: Sys, files: Files, trace: seq<Action>, to: Sys, pid: nat, call: Call)
    requires Leads(from, files, trace, to) && LeavesAlone(trace, call.id) && !call.kind.Read?
    requires CanFail(from.procs, pid, call) && from.procs[pid].StorePreviewNext?
    requires pid in to.procs && to.procs[pid] == RespondNext(call, false)
    ensures WriteFails(trace, pid)
    decreases |trace|
  {
    var next := Step(from, files, trace[0]);
    ChanceToFail(from, files, trace[0], pid, call);
    if !CanFail(next.procs, pid, call) {
      SettledCallStaysSettled(next, files, trace[1..], to, pid, call);
    } else if next.procs[pid].StorePreviewNext? {
      FailureNeedsLostWrite(next, files, trace[1..], to, pid, call);
      var i :| 0 <= i < |trace[1..]| && trace[1..][i].Advance? && trace[1..][i].pid == pid && !trace[1..][i].f.NoFault?;
      assert trace[i + 1] == trace[1..][i];
    }
  }

  /**
   * A creation that is about to be reported as failed, however long after its first
   * statement and whatever else ran meanwhile that was not about the same user: the user
   * is present exactly if it was before the creation, or the row was inserted and either
   * its reply or the write of its preview failed.
   */
  lemma FailedReportIffLeftBehind(
    sys: Sys, files: Files, pid: nat, origin: Origin, p: CreateUserParams, now: int, f: Fault,
    rest: seq<Action>, end: Sys)
    requires Keyed(sys.store.db.rows) && pid !in sys.procs
    requires Leads(Step(sys, files, BeginCall(pid, origin, Create, p, now, f)), files, rest, end)
    requires LeavesAlone(rest, p.id)
    requires pid in end.procs && end.procs[pid] == RespondNext(Call(origin, Create, p.id), false)
    ensures p.id in end.store.db.rows
            <==> || p.id in sys.store.db.rows
                 || (Insertable(sys.store.db, p) && (f.ReplyLost? || (f.NoFault? && WriteFails(rest, pid))))
  {
    var begin := BeginCall(pid, origin, Create, p, now, f);
    var next := Step(sys, files, begin);
    StepChangesTable(sys, files, begin);
    RowIsLeftAlone(next, files, rest, end, p.id);
    if Insertable(sys.store.db, p) {
      UuidIsTrimmed(p.id);
      if f.NoFault? {
        FailureNeedsLostWrite(next, files, rest, end, pid, Call(origin, Create, p.id));
      }
    }
  }
}
