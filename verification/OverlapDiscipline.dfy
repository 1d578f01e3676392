/**
 * A discipline for overlapping requests that keeps previews and table in agreement, and
 * two runs without it that do not.
 */
module OverlapDiscipline {
  import opened Text
  import opened Domain
  import opened UserTable
  import opened ReadModel
  import opened UserService
  import opened CacheAgreement
  import opened Interleaving
  import opened OverlapAgreement

  /**
   * A discipline that looks at no document: a row is deleted only when no preview of it
   * is about to be written, and the reply arrives; drops are neither lost nor cut short;
   * and no cached preview is refilled while its drop is under way.
   */
  ghost predicate Careful(sys: Sys, files: Files, a: Action)
    requires Enabled(sys, a)
  {
    match a
    case BeginCall(_, _, _, p, _, f) => Removes(sys, a, p.id) ==> f.NoFault? && !WriterPending(sys.procs, p.id)
    case Advance(pid, f, _) => sys.procs[pid].DropPreviewNext? ==> !f.Lost?
    case Crash(pid) => !sys.procs[pid].DropPreviewNext?
    case BeginPreview(_, userId, _, _) =>
      Refills(sys.store, files, a) ==> !DropPending(sys.procs, TrimSpace(userId))
    case _ => true
  }

  ghost predicate CarefulThroughout(from: Sys, files: Files, trace: seq<Action>)
    decreases |trace|
  {
    trace != [] ==>
      && Enabled(from, trace[0]) && Careful(from, files, trace[0])
      && CarefulThroughout(Step(from, files, trace[0]), files, trace[1..])
  }

  /** The discipline is enough. */
  lemma {:induction false} CarefulRunsAreOrderly(from: Sys, files: Files, trace: seq<Action>, to: Sys)
    requires Keyed(from.store.db.rows) && Tidy(from)
    requires Leads(from, files, trace, to) && CarefulThroughout(from, files, trace)
    ensures Orderly(from, files, trace)
    decreases |trace|
  {
    if trace != [] {
      TidinessByStep(from, files, trace[0]);
      StepChangesTable(from, files, trace[0]);
      CarefulRunsAreOrderly(Step(from, files, trace[0]), files, trace[1..], to);
    }
  }

  // ------------------------------------------------------------- two disorders

  /**
   * Agreement of caches with the table does not survive overlap: a preview loaded
   * before a deletion and stored after it outlives the row.
   */
  lemma OverlapLeavesDeletedUserCached(start: Sys, files: Files, id: string) returns (trace: seq<Action>, end: Sys)
    requires Keyed(start.store.db.rows) && id in start.store.db.rows
    requires start.procs == map[] && start.store.cache == map[]
    ensures Leads(start, files, trace, end)
    ensures id !in end.store.db.rows && UserPreviewCacheKey(id) in end.store.cache
    ensures forall a :: a in trace ==> !a.Crash? && (a.Advance? ==> a.f.NoFault?)
  {
    UuidIsTrimmed(id);
    trace, end := [], start;
    trace, end := Extend(start, files, trace, end, BeginPreview(0, id, true, true));
    trace, end := Extend(start, files, trace, end, Advance(0, NoFault, true));
    var p := CreateUserParams(id, "", "", "", "");
    trace, end := Extend(start, files, trace, end, BeginCall(1, Api, Delete, p, 0, NoFault));
    trace, end := Extend(start, files, trace, end, Advance(1, NoFault, true));
    trace, end := Extend(start, files, trace, end, Advance(0, NoFault, true));
  }

  /**
   * Nor is the deletion's own drop enough when a read comes between the two: the read
   * that refills the URL of the stale preview writes it back after the drop.
   */
  lemma RefillRevivesDeletedUser(start: Sys, files: Files, id: string) returns (trace: seq<Action>, end: Sys)
    requires Keyed(start.store.db.rows) && id in start.store.db.rows && start.procs == map[]
    requires Agrees(start.store) && Refills(start.store, files, BeginPreview(0, id, true, true))
    ensures Leads(start, files, trace, end) && end.procs == map[]
    ensures id !in end.store.db.rows && PreviewAt(end.store.cache, id).Some?
    ensures forall a :: a in trace ==> !a.Crash? && (a.Advance? ==> a.f.NoFault?)
  {
    UuidIsTrimmed(id);
    assert Describes(PreviewAt(start.store.cache, id), RowAt(start.store.db, id));
    var delete := BeginCall(1, Api, Delete, CreateUserParams(id, "", "", "", ""), 0, NoFault);
    trace, end := [], start;
    trace, end := Extend(start, files, trace, end, delete);
    trace, end := Extend(start, files, trace, end, BeginPreview(0, id, true, true));
    trace, end := Extend(start, files, trace, end, Advance(1, NoFault, true));
    trace, end := Extend(start, files, trace, end, Advance(1, NoFault, true));
    trace, end := Extend(start, files, trace, end, Advance(0, NoFault, true));
  }
}
