/**
 * Previews and the table when requests overlap. A single step breaks the agreement
 * exactly if it deletes the row of a cached preview or writes a preview that no longer
 * fits its row. The first is put right by the drop that follows, so the question over
 * whole runs is which orders of steps keep every stale preview covered by such a drop.
 */
module OverlapAgreement {
  import opened Wrappers
  import opened Text
  import opened Domain
  import opened UserTable
  import opened ReadModel
  import opened DetailedUser
  import opened UserService
  import opened CacheAgreement
  import opened Interleaving

  /** The user whose preview the request writes next. */
  function Pending(p: Proc): Option<User> {
    match p
    case StorePreviewNext(u, _) => Some(u)
    case RefreshPreviewNext(u) => Some(u)
    case _ => None
  }

  predicate Drops(p: Proc, id: string) {
    p.DropPreviewNext? && p.id == id
  }

  predicate Stale(s: Store, id: string) {
    !Describes(PreviewAt(s.cache, id), RowAt(s.db, id))
  }

  /** The step deletes the row of this id. */
  predicate Removes(sys: Sys, a: Action, id: string) {
    a.BeginCall? && a.kind.Delete? && a.f.Applies() && a.p.id == id && id in sys.store.db.rows
  }

  lemma AgreesIffNotStale(s: Store)
    ensures Agrees(s) <==> forall id :: !Stale(s, id)
  {
    forall id ensures Stale(s, id) <==> !Describes(PreviewAt(s.cache, id), RowAt(s.db, id)) {}
  }

  // ---------------------------------------------------- what one step can change

  lemma RowsAfterCall(db: Db, kind: Kind, p: CreateUserParams, now: int, f: Fault, id: string)
    requires Keyed(db.rows) && !kind.Read?
    ensures var after := ChangeRow(db, kind, p, now, f).0;
            if kind.Delete? && f.Applies() && p.id == id then RowAt(after, id).None?
            else RowAt(db, id).Some? ==>
                   && RowAt(after, id).Some?
                   && forall e: UserCache :: SameProfile(e, db.rows[id]) <==> SameProfile(e, after.rows[id])
  {
  }

  predicate WritesCache(p: Proc) {
    Pending(p).Some? || p.DropPreviewNext? || p.StoreDetailedNext? || p.ProjectNext?
  }

  lemma OtherAdvanceKeepsCache(sys: Sys, files: Files, pid: nat, f: Fault, filesUp: bool)
    requires pid in sys.procs && !WritesCache(sys.procs[pid])
    ensures AdvanceProc(sys, files, pid, f, filesUp).store.cache == sys.store.cache
  {
  }

  lemma DetailedAdvanceKeepsPreviews(sys: Sys, files: Files, pid: nat, f: Fault, filesUp: bool, id: string)
    requires pid in sys.procs && (sys.procs[pid].StoreDetailedNext? || sys.procs[pid].ProjectNext?)
    ensures PreviewAt(AdvanceProc(sys, files, pid, f, filesUp).store.cache, id) == PreviewAt(sys.store.cache, id)
  {
    var p := sys.procs[pid];
    PreviewAfterProfile(sys.store.cache, if p.StoreDetailedNext? then p.u else FromEvent(p.event), f, id);
  }

  /** Every step but a call's first leaves the table alone; the cache changes by one write at most. */
  lemma AdvanceChangesPreview(sys: Sys, files: Files, pid: nat, f: Fault, filesUp: bool, id: string)
    requires pid in sys.procs
    ensures var after, p := AdvanceProc(sys, files, pid, f, filesUp), sys.procs[pid];
            && after.store.db == sys.store.db
            && PreviewAt(after.store.cache, id)
               == (if f.Applies() && Pending(p).Some? && Pending(p).value.id == id
                   then Some(Preview(MapDomainUserToCache(Pending(p).value)))
                   else if f.Applies() && Drops(p, id) then None
                   else PreviewAt(sys.store.cache, id))
  {
    match sys.procs[pid]
    case StorePreviewNext(u, _) => PreviewAfterUpsert(sys.store.cache, u, f, id);
    case RefreshPreviewNext(u) => PreviewAfterUpsert(sys.store.cache, u, f, id);
    case DropPreviewNext(dropped, _) => PreviewAfterDrop(sys.store.cache, dropped, f, id);
    case StoreDetailedNext(_) => DetailedAdvanceKeepsPreviews(sys, files, pid, f, filesUp, id);
    case ProjectNext(_) => DetailedAdvanceKeepsPreviews(sys, files, pid, f, filesUp, id);
    case _ => OtherAdvanceKeepsCache(sys, files, pid, f, filesUp);
  }

  lemma BeginKeepsCache(sys: Sys, files: Files, a: Action)
    requires Enabled(sys, a) && !a.Advance?
    ensures Step(sys, files, a).store.cache == sys.store.cache
    ensures !a.BeginCall? ==> Step(sys, files, a).store.db == sys.store.db
  {
  }

  // -------------------------------------------------- agreement, step by step

  /** A deletion of a row whose preview is cached, or a write of a preview that does not fit its row. */
  predicate BreaksAgreement(sys: Sys, a: Action)
    requires Enabled(sys, a)
  {
    match a
    case BeginCall(_, _, _, p, _, _) => Removes(sys, a, p.id) && PreviewAt(sys.store.cache, p.id).Some?
    case Advance(pid, f, _) =>
      var u := Pending(sys.procs[pid]);
      u.Some? && f.Applies() && !Fits(u.value, RowAt(sys.store.db, u.value.id))
    case _ => false
  }

  lemma CallKeepsAgreement(sys: Sys, files: Files, a: Action)
    requires Keyed(sys.store.db.rows) && Agrees(sys.store) && Enabled(sys, a) && a.BeginCall?
    ensures Agrees(Step(sys, files, a).store) <==> !BreaksAgreement(sys, a)
  {
    var after := Step(sys, files, a).store;
    BeginKeepsCache(sys, files, a);
    forall id ensures Stale(after, id) <==> Removes(sys, a, id) && PreviewAt(sys.store.cache, id).Some? {
      assert Describes(PreviewAt(sys.store.cache, id), RowAt(sys.store.db, id));
      if a.p.id != "" {
        RowsAfterCall(sys.store.db, a.kind, a.p, a.now, a.f, id);
      }
      if Removes(sys, a, id) { UuidIsTrimmed(id); }
    }
    AgreesIffNotStale(after);
    if BreaksAgreement(sys, a) { assert Stale(after, a.p.id); }
  }

  /** Agreement survives a step of overlapping requests exactly unless the step breaks it so. */
  lemma AgreementUnderOverlap(sys: Sys, files: Files, a: Action)
    requires Keyed(sys.store.db.rows) && Agrees(sys.store) && Enabled(sys, a)
    ensures Agrees(Step(sys, files, a).store) <==> !BreaksAgreement(sys, a)
  {
    var after := Step(sys, files, a).store;
    if a.Advance? {
      forall id ensures Stale(after, id) <==> BreaksAgreement(sys, a) && Pending(sys.procs[a.pid]).value.id == id {
        assert Describes(PreviewAt(sys.store.cache, id), RowAt(sys.store.db, id));
        AdvanceChangesPreview(sys, files, a.pid, a.f, a.filesUp, id);
      }
      AgreesIffNotStale(after);
      if BreaksAgreement(sys, a) { assert Stale(after, Pending(sys.procs[a.pid]).value.id); }
    } else if a.BeginCall? {
      CallKeepsAgreement(sys, files, a);
    } else {
      BeginKeepsCache(sys, files, a);
      assert forall id :: Describes(PreviewAt(sys.store.cache, id), RowAt(sys.store.db, id))
                          <==> Describes(PreviewAt(after.cache, id), RowAt(after.db, id));
    }
  }

  // ----------------------------------------------------- agreement, over runs

  ghost predicate DropPending(procs: map<nat, Proc>, id: string) {
    exists pid :: pid in procs && Drops(procs[pid], id)
  }

  predicate IsWriter(procs: map<nat, Proc>, pid: nat) {
    pid in procs && Pending(procs[pid]).Some?
  }

  ghost predicate WriterPending(procs: map<nat, Proc>, id: string) {
    exists pid :: IsWriter(procs, pid) && Pending(procs[pid]).value.id == id
  }

  predicate OwnKey(d: Option<Document>, id: string) {
    d.Some? ==> d.value.Preview? && d.value.preview.id == id
  }

  ghost predicate KeysOwn(c: Cache) {
    forall id :: OwnKey(PreviewAt(c, id), id)
  }

  ghost predicate StaleAreDropped(sys: Sys) {
    forall id :: Stale(sys.store, id) ==> DropPending(sys.procs, id)
  }

  predicate WriterFits(sys: Sys, pid: nat) {
    IsWriter(sys.procs, pid) ==>
      Fits(Pending(sys.procs[pid]).value, RowAt(sys.store.db, Pending(sys.procs[pid]).value.id))
  }

  /** Every stale preview is about to be dropped, and no pending write would store another. */
  ghost predicate Tidy(sys: Sys) {
    KeysOwn(sys.store.cache) && StaleAreDropped(sys) && forall pid :: WriterFits(sys, pid)
  }

  /** No other request is about to drop the preview of this id. */
  ghost predicate OnlyDrop(procs: map<nat, Proc>, pid: nat, id: string)
    requires pid in procs
  {
    Drops(procs[pid], id) && !DropPending(procs - {pid}, id)
  }

  /**
   * The orders of steps that can leave a preview behind its row: a row is deleted while a
   * preview of it is about to be written; or it is deleted with its preview cached and no
   * drop is or gets under way, because the reply is lost; or the last drop of a stale
   * preview fails or dies; or a stale preview is read, and is to be written back with its URL.
   */
  ghost predicate Disorder(sys: Sys, files: Files, a: Action)
    requires Enabled(sys, a)
  {
    var s := sys.store;
    match a
    case BeginCall(_, _, _, p, _, f) =>
      && Removes(sys, a, p.id)
      && (|| WriterPending(sys.procs, p.id)
          || (f.ReplyLost? && PreviewAt(s.cache, p.id).Some? && !DropPending(sys.procs, p.id)))
    case Advance(pid, f, _) =>
      f.Lost? && sys.procs[pid].DropPreviewNext?
      && Stale(s, sys.procs[pid].id) && OnlyDrop(sys.procs, pid, sys.procs[pid].id)
    case Crash(pid) =>
      sys.procs[pid].DropPreviewNext? && Stale(s, sys.procs[pid].id) && OnlyDrop(sys.procs, pid, sys.procs[pid].id)
    case BeginPreview(pid, userId, cacheUp, filesUp) =>
      Refills(s, files, a) && Stale(s, TrimSpace(userId))
    case _ => false
  }

  /** The read finds a preview whose URL is missing and can be had. */
  predicate Refills(s: Store, files: Files, a: Action)
    requires a.BeginPreview?
  {
    && !Blank(a.userId) && GetByID(s.cache, TrimSpace(a.userId), a.cacheUp).Success?
    && CachedWithFileURL(files, a.filesUp, GetByID(s.cache, TrimSpace(a.userId), a.cacheUp).value).Some?
  }

  lemma DropHereOrElsewhere(procs: map<nat, Proc>, pid: nat, id: string)
    ensures DropPending(procs, id) <==> (pid in procs && Drops(procs[pid], id)) || DropPending(procs - {pid}, id)
  {
    var rest := procs - {pid};
    if other :| other in rest && Drops(rest[other], id) { assert Drops(procs[other], id); }
    if other :| other in procs && Drops(procs[other], id) { assert other == pid || Drops(rest[other], id); }
  }

  /** The other requests stay as they are, and the one that advances gets no drop ahead of it. */
  lemma AdvanceProcs(sys: Sys, files: Files, pid: nat, f: Fault, filesUp: bool)
    requires Keyed(sys.store.db.rows) && pid in sys.procs
    ensures var after := AdvanceProc(sys, files, pid, f, filesUp);
            && after.procs - {pid} == sys.procs - {pid}
            && (pid in after.procs ==> !after.procs[pid].DropPreviewNext?)
            && WriterFits(after, pid)
  {
  }

  lemma AdvanceKeepsWriters(sys: Sys, files: Files, pid: nat, f: Fault, filesUp: bool)
    requires Keyed(sys.store.db.rows) && pid in sys.procs && forall other :: WriterFits(sys, other)
    ensures forall other :: WriterFits(AdvanceProc(sys, files, pid, f, filesUp), other)
  {
    var after := AdvanceProc(sys, files, pid, f, filesUp);
    AdvanceProcs(sys, files, pid, f, filesUp);
    AdvanceChangesPreview(sys, files, pid, f, filesUp, "");
    forall other ensures WriterFits(after, other) {
      if other != pid && other in after.procs {
        assert other in sys.procs - {pid} && after.procs[other] == (after.procs - {pid})[other] == sys.procs[other];
        assert WriterFits(sys, other);
      }
    }
  }

  /** Advancing leaves a preview stale exactly if it was and neither a drop nor a write of it took effect. */
  lemma AdvanceStaleness(sys: Sys, files: Files, pid: nat, f: Fault, filesUp: bool, id: string)
    requires pid in sys.procs && WriterFits(sys, pid) && OwnKey(PreviewAt(sys.store.cache, id), id)
    ensures var after, p := AdvanceProc(sys, files, pid, f, filesUp), sys.procs[pid];
            && OwnKey(PreviewAt(after.store.cache, id), id)
            && (Stale(after.store, id) <==>
                  && Stale(sys.store, id)
                  && !(f.Applies() && (Drops(p, id) || (Pending(p).Some? && Pending(p).value.id == id))))
  {
    AdvanceChangesPreview(sys, files, pid, f, filesUp, id);
  }

  lemma AdvanceTidiness(sys: Sys, files: Files, pid: nat, f: Fault, filesUp: bool)
    requires Keyed(sys.store.db.rows) && Tidy(sys) && pid in sys.procs
    ensures Tidy(AdvanceProc(sys, files, pid, f, filesUp)) <==> !Disorder(sys, files, Advance(pid, f, filesUp))
  {
    var after, p := AdvanceProc(sys, files, pid, f, filesUp), sys.procs[pid];
    AdvanceProcs(sys, files, pid, f, filesUp);
    AdvanceKeepsWriters(sys, files, pid, f, filesUp);
    assert WriterFits(sys, pid);
    forall id
      ensures OwnKey(PreviewAt(after.store.cache, id), id)
      ensures Stale(after.store, id) && !DropPending(after.procs, id)
              <==> f.Lost? && Stale(sys.store, id) && OnlyDrop(sys.procs, pid, id)
    {
      assert OwnKey(PreviewAt(sys.store.cache, id), id);
      AdvanceStaleness(sys, files, pid, f, filesUp, id);
      DropHereOrElsewhere(sys.procs, pid, id);
      DropHereOrElsewhere(after.procs, pid, id);
      assert Stale(sys.store, id) ==> DropPending(sys.procs, id);
    }
    if Disorder(sys, files, Advance(pid, f, filesUp)) {
      assert Stale(after.store, p.id) && !DropPending(after.procs, p.id);
    }
  }

  lemma CrashTidiness(sys: Sys, files: Files, pid: nat)
    requires Tidy(sys) && pid in sys.procs
    ensures Tidy(End(sys, pid)) <==> !Disorder(sys, files, Crash(pid))
  {
    var after, p := End(sys, pid), sys.procs[pid];
    forall id ensures DropPending(sys.procs, id) <==> Drops(p, id) || DropPending(after.procs, id) {
      DropHereOrElsewhere(sys.procs, pid, id);
    }
    forall id ensures Stale(after.store, id) <==> Stale(sys.store, id) {}
    forall other ensures WriterFits(after, other) { assert WriterFits(sys, other); }
    if Disorder(sys, files, Crash(pid)) { assert Stale(after.store, p.id); }
  }

  // A call: the table changes, and the call's own drop or write comes under way.

  lemma CallProcs(sys: Sys, files: Files, a: Action)
    requires Keyed(sys.store.db.rows) && Enabled(sys, a) && a.BeginCall?
    ensures var after := Step(sys, files, a);
            && a.pid in after.procs && after.procs - {a.pid} == sys.procs
            && WriterFits(after, a.pid)
            && forall id :: Removes(sys, a, id) ==> (Drops(after.procs[a.pid], id) <==> a.f.NoFault?)
  {
  }

  lemma CallStaleness(sys: Sys, files: Files, a: Action, id: string)
    requires Keyed(sys.store.db.rows) && Enabled(sys, a) && a.BeginCall?
    requires Stale(sys.store, id) || Describes(PreviewAt(sys.store.cache, id), RowAt(sys.store.db, id))
    ensures var after := Step(sys, files, a).store;
            && (Stale(after, id) ==>
                  Stale(sys.store, id) || (Removes(sys, a, id) && PreviewAt(sys.store.cache, id).Some?))
            && (Removes(sys, a, id) && PreviewAt(sys.store.cache, id).Some? ==> Stale(after, id))
  {
    BeginKeepsCache(sys, files, a);
    if a.p.id != "" { RowsAfterCall(sys.store.db, a.kind, a.p, a.now, a.f, id); }
    if Removes(sys, a, id) { UuidIsTrimmed(id); }
  }

  lemma CallWriters(sys: Sys, files: Files, a: Action, pid: nat)
    requires Keyed(sys.store.db.rows) && Enabled(sys, a) && a.BeginCall?
    requires IsWriter(sys.procs, pid) && WriterFits(sys, pid)
    ensures pid != a.pid && IsWriter(Step(sys, files, a).procs, pid)
    ensures WriterFits(Step(sys, files, a), pid) <==> !Removes(sys, a, Pending(sys.procs[pid]).value.id)
  {
    var after, id := Step(sys, files, a), Pending(sys.procs[pid]).value.id;
    CallProcs(sys, files, a);
    assert after.procs[pid] == (after.procs - {a.pid})[pid];
    if a.p.id != "" { RowsAfterCall(sys.store.db, a.kind, a.p, a.now, a.f, id); }
    if Removes(sys, a, id) { UuidIsTrimmed(id); }
  }

  lemma CallTidiness(sys: Sys, files: Files, a: Action)
    requires Keyed(sys.store.db.rows) && Tidy(sys) && Enabled(sys, a) && a.BeginCall?
    ensures Tidy(Step(sys, files, a)) <==> !Disorder(sys, files, a)
  {
    var after := Step(sys, files, a);
    BeginKeepsCache(sys, files, a);
    CallProcs(sys, files, a);
    forall id
      ensures Stale(after.store, id) && !DropPending(after.procs, id)
              <==> && Removes(sys, a, id) && a.f.ReplyLost?
                   && PreviewAt(sys.store.cache, id).Some? && !DropPending(sys.procs, id)
    {
      CallStaleness(sys, files, a, id);
      DropHereOrElsewhere(after.procs, a.pid, id);
      assert Stale(sys.store, id) ==> DropPending(sys.procs, id);
    }
    forall pid
      ensures WriterFits(after, pid)
              <==> !(IsWriter(sys.procs, pid) && Removes(sys, a, Pending(sys.procs[pid]).value.id))
    {
      assert WriterFits(sys, pid);
      if IsWriter(sys.procs, pid) {
        CallWriters(sys, files, a, pid);
      } else if pid != a.pid && pid in after.procs {
        assert after.procs[pid] == (after.procs - {a.pid})[pid];
      }
    }
    if Disorder(sys, files, a) {
      if pid :| IsWriter(sys.procs, pid) && Pending(sys.procs[pid]).value.id == a.p.id {
        assert !WriterFits(after, pid);
      } else {
        assert Stale(after.store, a.p.id) && !DropPending(after.procs, a.p.id);
      }
    }
  }

  lemma PreviewTidiness(sys: Sys, files: Files, a: Action)
    requires Tidy(sys) && Enabled(sys, a) && a.BeginPreview?
    ensures Tidy(Step(sys, files, a)) <==> !Disorder(sys, files, a)
  {
    var after, id := Step(sys, files, a), TrimSpace(a.userId);
    assert OwnKey(PreviewAt(sys.store.cache, id), id);
    QuietBegin(sys, files, a);
    assert WriterFits(after, a.pid) <==> !Disorder(sys, files, a);
  }

  /** A step that only opens a request leaves all others, the table and the cache alone. */
  lemma QuietBegin(sys: Sys, files: Files, a: Action)
    requires Tidy(sys) && Enabled(sys, a) && !a.BeginCall? && !a.Advance? && !a.Crash?
    ensures var after := Step(sys, files, a);
            && KeysOwn(after.store.cache) && StaleAreDropped(after)
            && forall pid :: pid != a.pid ==> WriterFits(after, pid)
  {
    var after := Step(sys, files, a);
    assert after.procs - {a.pid} == sys.procs;
    forall id ensures Stale(after.store, id) ==> DropPending(after.procs, id) {
      assert Stale(sys.store, id) ==> DropPending(sys.procs, id);
      DropHereOrElsewhere(after.procs, a.pid, id);
    }
    forall pid | pid != a.pid ensures WriterFits(after, pid) {
      assert WriterFits(sys, pid);
      if pid in after.procs { assert after.procs[pid] == (after.procs - {a.pid})[pid]; }
    }
  }

  /** Whatever fails, a step keeps a tidy state tidy exactly unless it is out of order. */
  lemma TidinessByStep(sys: Sys, files: Files, a: Action)
    requires Keyed(sys.store.db.rows) && Tidy(sys) && Enabled(sys, a)
    ensures Tidy(Step(sys, files, a)) <==> !Disorder(sys, files, a)
  {
    match a
    case BeginCall(_, _, _, _, _, _) => CallTidiness(sys, files, a);
    case BeginPreview(_, _, _, _) => PreviewTidiness(sys, files, a);
    case Advance(pid, f, filesUp) => AdvanceTidiness(sys, files, pid, f, filesUp);
    case Crash(pid) => CrashTidiness(sys, files, pid);
    case _ =>
      QuietBegin(sys, files, a);
      assert WriterFits(Step(sys, files, a), a.pid);
  }

  ghost predicate Orderly(from: Sys, files: Files, trace: seq<Action>)
    decreases |trace|
  {
    trace != [] ==>
      && Enabled(from, trace[0]) && !Disorder(from, files, trace[0])
      && Orderly(Step(from, files, trace[0]), files, trace[1..])
  }

  ghost predicate TidyThroughout(from: Sys, files: Files, trace: seq<Action>)
    decreases |trace|
  {
    Tidy(from) && (trace != [] ==>
      Enabled(from, trace[0]) && TidyThroughout(Step(from, files, trace[0]), files, trace[1..]))
  }

  lemma {:induction false} TidyIffOrderly(from: Sys, files: Files, trace: seq<Action>, to: Sys)
    requires Keyed(from.store.db.rows) && Tidy(from) && Leads(from, files, trace, to)
    ensures TidyThroughout(from, files, trace) <==> Orderly(from, files, trace)
    ensures Orderly(from, files, trace) ==> Tidy(to)
    decreases |trace|
  {
    if trace != [] {
      var next := Step(from, files, trace[0]);
      TidinessByStep(from, files, trace[0]);
      StepChangesTable(from, files, trace[0]);
      if Tidy(next) { TidyIffOrderly(next, files, trace[1..], to); }
    }
  }

  /**
   * From agreement with no request open: after every run without disorder, however its
   * requests overlap, fail and die, a preview describes its row unless a drop of it is
   * under way. So whenever no request is open, the cache agrees with the table.
   */
  lemma OrderlyRunsAgree(start: Sys, files: Files, trace: seq<Action>, end: Sys)
    requires Keyed(start.store.db.rows) && Agrees(start.store) && start.procs == map[]
    requires Leads(start, files, trace, end) && Orderly(start, files, trace)
    ensures forall id :: Stale(end.store, id) ==> DropPending(end.procs, id)
    ensures end.procs == map[] ==> Agrees(end.store)
  {
    assert Tidy(start) by {
      AgreesIffNotStale(start.store);
      forall id ensures OwnKey(PreviewAt(start.store.cache, id), id) {
        assert Describes(PreviewAt(start.store.cache, id), RowAt(start.store.db, id));
      }
    }
    TidyIffOrderly(start, files, trace, end);
    AgreesIffNotStale(end.store);
  }
}
