/**
 * Whatever overlaps and fails, the caches only ever hold what the table once held:
 * every document agrees with a row version that the outbox recorded.
 */
module HistorySoundness {
  import opened Wrappers
  import opened Text
  import opened Domain
  import opened UserTable
  import opened ReadModel
  import opened DetailedUser
  import opened UserService
  import opened CacheAgreement
  import opened Interleaving
  import Outbox

  predicate ShowsRow(u: User, row: Row) {
    && u.id == row.id && u.username == row.username
    && u.firstName == row.firstName && u.lastName == row.lastName
    && u.avatarId == row.avatarId && u.isActive == row.isActive
  }

  ghost predicate WasRow(es: seq<Event>, u: User) {
    exists i :: 0 <= i < |es| && es[i].aggregateId == u.id && ShowsRow(u, es[i].payload)
  }

  ghost predicate WasProfile(es: seq<Event>, d: UserDetailedCache) {
    exists i :: 0 <= i < |es| && es[i].aggregateId == d.id && ShowsProfile(d, es[i].payload)
  }

  function EventProfile(e: DetailedEvent): UserDetailedCache {
    UserDetailedCache(e.userId, e.username, e.displayName, e.avatarId, e.avatarUrl, e.about)
  }

  ghost predicate SoundCache(es: seq<Event>, c: Cache) {
    && (forall id :: UserPreviewCacheKey(id) in c ==>
          var d := c[UserPreviewCacheKey(id)];
          d.Preview? && d.preview.id == id && WasRow(es, MapCacheToDomainUser(d.preview)))
    && (forall name :: UserDetailedCacheKey(name) in c ==>
          var d := c[UserDetailedCacheKey(name)];
          d.Detailed? && d.detailed.username == name && WasProfile(es, d.detailed))
  }

  ghost predicate SoundTopic(es: seq<Event>, topic: seq<DetailedEvent>) {
    forall i :: 0 <= i < |topic| ==> WasProfile(es, EventProfile(topic[i]))
  }

  ghost predicate SoundProc(es: seq<Event>, p: Proc) {
    match p
    case StorePreviewNext(u, _) => WasRow(es, u)
    case RefreshPreviewNext(u) => WasRow(es, u)
    case LoadDetailedNext(username) => Trimmed(username)
    case StoreDetailedNext(u) =>
      WasProfile(es, MapDomainUserToDetailedCache(u)) && u.displayName == DisplayName(u.firstName, u.lastName)
    case PublishDetailedNext(u) => WasProfile(es, EventProfile(ToEvent(u)))
    case ForwardNext(e) => WasProfile(es, EventProfile(e))
    case ProjectNext(e) => WasProfile(es, EventProfile(e))
    case _ => true
  }

  ghost predicate Sound(sys: Sys) {
    && Outbox.Recorded(sys.store.db)
    && SoundCache(sys.store.db.outbox, sys.store.cache)
    && SoundTopic(sys.store.db.outbox, sys.store.requested)
    && SoundTopic(sys.store.db.outbox, sys.store.projection)
    && forall pid :: pid in sys.procs ==> SoundProc(sys.store.db.outbox, sys.procs[pid])
  }

  // ------------------------------------------------------------ the log grows

  lemma RowStaysRecorded(es: seq<Event>, more: seq<Event>, u: User)
    requires es <= more && WasRow(es, u)
    ensures WasRow(more, u)
  {
    var i :| 0 <= i < |es| && es[i].aggregateId == u.id && ShowsRow(u, es[i].payload);
    assert more[i] == es[i];
  }

  lemma ProfileStaysRecorded(es: seq<Event>, more: seq<Event>, d: UserDetailedCache)
    requires es <= more && WasProfile(es, d)
    ensures WasProfile(more, d)
  {
    var i :| 0 <= i < |es| && es[i].aggregateId == d.id && ShowsProfile(d, es[i].payload);
    assert more[i] == es[i];
  }

  lemma SoundnessSurvivesWrites(sys: Sys, db: Db)
    requires Sound(sys) && Outbox.Changes(sys.store.db, db)
    ensures Sound(WithDb(sys, db))
  {
    Outbox.ChangeIsRecorded(sys.store.db, db);
    var es, more := sys.store.db.outbox, db.outbox;
    forall u | WasRow(es, u) ensures WasRow(more, u) { RowStaysRecorded(es, more, u); }
    forall d | WasProfile(es, d) ensures WasProfile(more, d) { ProfileStaysRecorded(es, more, d); }
  }

  // ------------------------------------------------------- what requests carry

  lemma TableRowWasRow(db: Db, files: Files, up: bool, id: string)
    requires Outbox.Recorded(db) && id in db.rows
    ensures WasRow(db.outbox, WithFileURL(files, up, RowToUser(db.rows[id])))
  {
    var i := Outbox.ReplayedRowHasEvent(db.outbox, id);
    assert ShowsRow(WithFileURL(files, up, RowToUser(db.rows[id])), db.outbox[i].payload);
  }

  lemma DetailedRowWasProfile(db: Db, files: Files, up: bool, row: Row)
    requires Outbox.Recorded(db) && row.id in db.rows && db.rows[row.id] == row && Trimmed(row.username)
    ensures var u := DetailedFromRow(files, up, row);
            WasProfile(db.outbox, MapDomainUserToDetailedCache(u))
  {
    var u := DetailedFromRow(files, up, row);
    LookedUpUserShowsRow(files, up, row);
    var i := Outbox.ReplayedRowHasEvent(db.outbox, row.id);
    assert ShowsProfile(MapDomainUserToDetailedCache(u), db.outbox[i].payload);
  }

  /** Trimming every field of a sound profile, as publishing and projecting do, keeps it sound. */
  lemma TrimmedProfileStaysSound(es: seq<Event>, d: UserDetailedCache, t: UserDetailedCache)
    requires WasProfile(es, d)
    requires t.id == TrimSpace(d.id) && t.username == TrimSpace(d.username)
    requires t.displayName == TrimSpace(d.displayName)
    requires t.avatarId == TrimSpace(d.avatarId) && t.about == TrimSpace(d.about)
    ensures WasProfile(es, t)
    ensures t.displayName == d.displayName && t.username == d.username && t.id == d.id
  {
    var i :| 0 <= i < |es| && es[i].aggregateId == d.id && ShowsProfile(d, es[i].payload);
    DisplayNameIsStable(es[i].payload.firstName, es[i].payload.lastName);
    TrimSpaceFixes(d.id); TrimSpaceFixes(d.username);
    TrimSpaceFixes(d.avatarId); TrimSpaceFixes(d.about);
    assert ShowsProfile(t, es[i].payload);
  }

  lemma PublishedProfileIsSound(es: seq<Event>, u: User)
    requires WasProfile(es, MapDomainUserToDetailedCache(u))
    requires u.displayName == DisplayName(u.firstName, u.lastName)
    ensures WasProfile(es, EventProfile(ToEvent(u)))
  {
    DisplayNameIsStable(u.firstName, u.lastName);
    TrimmedProfileStaysSound(es, MapDomainUserToDetailedCache(u), EventProfile(ToEvent(u)));
  }

  lemma ProjectedProfileIsSound(es: seq<Event>, e: DetailedEvent)
    requires WasProfile(es, EventProfile(e))
    ensures WasProfile(es, MapDomainUserToDetailedCache(FromEvent(e)))
  {
    var u := FromEvent(e);
    TrimSpaceFixes(e.displayName);
    DisplayNameIsStable("", "");
    TrimSpaceFixes("");
    TrimmedProfileStaysSound(es, EventProfile(e), MapDomainUserToDetailedCache(u));
  }

  lemma UpsertStaysSound(es: seq<Event>, c: Cache, u: User, f: Fault)
    requires SoundCache(es, c) && WasRow(es, u)
    ensures SoundCache(es, Upsert(c, u, f))
  {
    AllKeysAreDistinct();
    var i :| 0 <= i < |es| && es[i].aggregateId == u.id && ShowsRow(u, es[i].payload);
    assert ShowsRow(MapCacheToDomainUser(MapDomainUserToCache(u)), es[i].payload);
  }

  lemma UpsertByUsernameStaysSound(es: seq<Event>, c: Cache, u: User, f: Fault)
    requires SoundCache(es, c) && WasProfile(es, MapDomainUserToDetailedCache(u))
    ensures SoundCache(es, UpsertByUsername(c, u, f))
  {
    AllKeysAreDistinct();
  }

  // -------------------------------------------------------------------- steps

  lemma CarriedUserIsSound(sys: Sys, files: Files, up: bool, id: string)
    requires Sound(sys) && GetByID(sys.store.cache, id, true).Success?
    ensures var filled := CachedWithFileURL(files, up, GetByID(sys.store.cache, id, true).value);
            filled.Some? ==> WasRow(sys.store.db.outbox, filled.value)
  {
    var u := GetByID(sys.store.cache, id, true).value;
    var es := sys.store.db.outbox;
    var i :| 0 <= i < |es| && es[i].aggregateId == u.id && ShowsRow(u, es[i].payload);
    var filled := CachedWithFileURL(files, up, u);
    if filled.Some? { assert ShowsRow(filled.value, es[i].payload); }
  }

  lemma GotoIsSound(sys: Sys, pid: nat, p: Proc)
    requires Sound(sys) && SoundProc(sys.store.db.outbox, p)
    ensures Sound(Goto(sys, pid, p))
  {
  }

  lemma EndIsSound(sys: Sys, pid: nat)
    requires Sound(sys)
    ensures Sound(End(sys, pid))
  {
  }

  lemma WithCacheIsSound(sys: Sys, c: Cache)
    requires Sound(sys) && SoundCache(sys.store.db.outbox, c)
    ensures Sound(WithCache(sys, c))
  {
  }

  lemma AfterRowIsSound(sys: Sys, pid: nat, done: (Db, Result<Row, Error>), call: Call)
    requires Sound(sys) && Outbox.Changes(sys.store.db, done.0)
    requires done.1.Success? && !call.kind.Delete? ==>
               done.1.value.id in done.0.rows && done.0.rows[done.1.value.id] == done.1.value
    requires call.kind.Create? || call.kind.Activate? || call.kind.Deactivate? || call.kind.Delete?
    ensures Sound(AfterRow(sys, pid, done, call))
  {
    SoundnessSurvivesWrites(sys, done.0);
    var written := WithDb(sys, done.0);
    match done.1
    case Failure(_) => GotoIsSound(written, pid, RespondNext(call, false));
    case Success(row) =>
      if call.kind.Create? || call.kind.Activate? {
        TableRowWasRow(done.0, (s: string) => None, false, row.id);
        GotoIsSound(written, pid, StorePreviewNext(RowToUser(row), call));
      } else {
        GotoIsSound(written, pid, DropPreviewNext(row.id, call));
      }
  }

  lemma AdvanceIsSound(sys: Sys, files: Files, pid: nat, f: Fault, filesUp: bool)
    requires Sound(sys) && pid in sys.procs
    ensures Sound(AdvanceProc(sys, files, pid, f, filesUp))
  {
    assert SoundProc(sys.store.db.outbox, sys.procs[pid]);
    match sys.procs[pid]
    case StorePreviewNext(_, _) => PreviewWriteIsSound(sys, files, pid, f, filesUp);
    case DropPreviewNext(_, _) => PreviewWriteIsSound(sys, files, pid, f, filesUp);
    case RefreshPreviewNext(_) => PreviewWriteIsSound(sys, files, pid, f, filesUp);
    case LoadPreviewNext(_) => LoadIsSound(sys, files, pid, f, filesUp);
    case LoadDetailedNext(_) => LoadIsSound(sys, files, pid, f, filesUp);
    case StoreDetailedNext(_) => DetailedWriteIsSound(sys, files, pid, f, filesUp);
    case ProjectNext(_) => DetailedWriteIsSound(sys, files, pid, f, filesUp);
    case PublishDetailedNext(u) => PublishIsSound(sys, files, pid, f, filesUp);
    case ForwardNext(e) => PublishIsSound(sys, files, pid, f, filesUp);
    case RespondNext(call, ok) => EndIsSound(sys, pid);
  }

  lemma PreviewWriteIsSound(sys: Sys, files: Files, pid: nat, f: Fault, filesUp: bool)
    requires Sound(sys) && pid in sys.procs
    requires sys.procs[pid].StorePreviewNext? || sys.procs[pid].DropPreviewNext? || sys.procs[pid].RefreshPreviewNext?
    ensures Sound(AdvanceProc(sys, files, pid, f, filesUp))
  {
    var s, p := sys.store, sys.procs[pid];
    assert SoundProc(s.db.outbox, p);
    var c := if p.DropPreviewNext? then DeleteByID(s.cache, p.id, f) else Upsert(s.cache, p.u, f);
    if !p.DropPreviewNext? { UpsertStaysSound(s.db.outbox, s.cache, p.u, f); }
    WithCacheIsSound(sys, c);
    if p.RefreshPreviewNext? {
      EndIsSound(WithCache(sys, c), pid);
    } else {
      GotoIsSound(WithCache(sys, c), pid, RespondNext(p.call, f.NoFault?));
    }
  }

  lemma LoadIsSound(sys: Sys, files: Files, pid: nat, f: Fault, filesUp: bool)
    requires Sound(sys) && pid in sys.procs
    requires sys.procs[pid].LoadPreviewNext? || sys.procs[pid].LoadDetailedNext?
    ensures Sound(AdvanceProc(sys, files, pid, f, filesUp))
  {
    var db, p := sys.store.db, sys.procs[pid];
    assert SoundProc(db.outbox, p);
    EndIsSound(sys, pid);
    if p.LoadPreviewNext? {
      if FindById(db, p.id, f).Success? {
        TableRowWasRow(db, files, filesUp, p.id);
        GotoIsSound(sys, pid, StorePreviewNext(WithFileURL(files, filesUp, RowToUser(db.rows[p.id])),
                                               Call(Api, Read, p.id)));
      }
    } else {
      var r := FindByUsername(db, p.username, f);
      if r.Success? {
        DetailedRowWasProfile(db, files, filesUp, r.value);
        var u := DetailedFromRow(files, filesUp, r.value);
        GotoIsSound(sys, pid, StoreDetailedNext(u));
      }
    }
  }

  lemma DetailedWriteIsSound(sys: Sys, files: Files, pid: nat, f: Fault, filesUp: bool)
    requires Sound(sys) && pid in sys.procs
    requires sys.procs[pid].StoreDetailedNext? || sys.procs[pid].ProjectNext?
    ensures Sound(AdvanceProc(sys, files, pid, f, filesUp))
  {
    var s, p := sys.store, sys.procs[pid];
    assert SoundProc(s.db.outbox, p);
    if p.StoreDetailedNext? {
      UpsertByUsernameStaysSound(s.db.outbox, s.cache, p.u, f);
      PublishedProfileIsSound(s.db.outbox, p.u);
      var stored := WithCache(sys, UpsertByUsername(s.cache, p.u, f));
      WithCacheIsSound(sys, UpsertByUsername(s.cache, p.u, f));
      GotoIsSound(stored, pid, PublishDetailedNext(p.u));
      EndIsSound(stored, pid);
    } else {
      ProjectedProfileIsSound(s.db.outbox, p.event);
      UpsertByUsernameStaysSound(s.db.outbox, s.cache, FromEvent(p.event), f);
      WithCacheIsSound(sys, Project(s.cache, p.event, f).0);
      EndIsSound(WithCache(sys, Project(s.cache, p.event, f).0), pid);
    }
  }

  lemma PublishIsSound(sys: Sys, files: Files, pid: nat, f: Fault, filesUp: bool)
    requires Sound(sys) && pid in sys.procs
    requires sys.procs[pid].PublishDetailedNext? || sys.procs[pid].ForwardNext?
    ensures Sound(AdvanceProc(sys, files, pid, f, filesUp))
  {
    var s := sys.store;
    assert SoundProc(s.db.outbox, sys.procs[pid]);
    EndIsSound(sys, pid);
  }

  lemma StepIsSound(sys: Sys, files: Files, a: Action)
    requires Sound(sys) && Enabled(sys, a)
    ensures Sound(Step(sys, files, a))
  {
    match a
    case BeginCall(_, _, _, _, _, _) => CallIsSound(sys, files, a);
    case BeginPreview(pid, userId, cacheUp, filesUp) =>
      if !Blank(userId) {
        var cached := GetByID(sys.store.cache, TrimSpace(userId), cacheUp);
        if cached.Success? {
          CarriedUserIsSound(sys, files, filesUp, TrimSpace(userId));
          var filled := CachedWithFileURL(files, filesUp, cached.value);
          if filled.Some? { GotoIsSound(sys, pid, RefreshPreviewNext(filled.value)); }
        } else {
          GotoIsSound(sys, pid, LoadPreviewNext(TrimSpace(userId)));
        }
      }
    case BeginDetailed(pid, name, cacheUp) =>
      TrimSpaceFixes(name);
      GotoIsSound(sys, pid, LoadDetailedNext(TrimSpace(name)));
    case BeginForward(pid, i) => GotoIsSound(sys, pid, ForwardNext(sys.store.requested[i]));
    case BeginProject(pid, i) => GotoIsSound(sys, pid, ProjectNext(sys.store.projection[i]));
    case Advance(pid, f, filesUp) => AdvanceIsSound(sys, files, pid, f, filesUp);
    case Crash(pid) => EndIsSound(sys, pid);
  }

  lemma CallIsSound(sys: Sys, files: Files, a: Action)
    requires Sound(sys) && Enabled(sys, a) && a.BeginCall?
    ensures Sound(Step(sys, files, a))
  {
    var call := Call(a.origin, a.kind, a.p.id);
    CallChangesTable(sys.store.db, a.kind, a.p, a.now, a.f);
    if a.p.id == "" {
      GotoIsSound(sys, a.pid, RespondNext(call, false));
    } else {
      AfterRowIsSound(sys, a.pid, ChangeRow(sys.store.db, a.kind, a.p, a.now, a.f), call);
    }
  }

  lemma {:induction false} RunIsSound(sys: Sys, files: Files, trace: seq<Action>, end: Sys)
    requires Sound(sys) && Leads(sys, files, trace, end)
    ensures Sound(end)
    decreases |trace|
  {
    if trace != [] {
      StepIsSound(sys, files, trace[0]);
      RunIsSound(Step(sys, files, trace[0]), files, trace[1..], end);
    }
  }

  /**
   * From a table that its outbox accounts for and empty caches: after any interleaving
   * of any requests, relays and projections, with any faults, every cached document is
   * a row version that the outbox recorded for the same user.
   */
  lemma CachesHoldOnlyHistory(start: Sys, files: Files, trace: seq<Action>, end: Sys)
    requires Outbox.Recorded(start.store.db) && start.procs == map[]
    requires start.store.cache == map[] && start.store.requested == [] && start.store.projection == []
    requires Leads(start, files, trace, end)
    ensures Outbox.Recorded(end.store.db)
    ensures forall id :: UserPreviewCacheKey(id) in end.store.cache ==>
              var d := end.store.cache[UserPreviewCacheKey(id)];
              d.Preview? && d.preview.id == id && WasRow(end.store.db.outbox, MapCacheToDomainUser(d.preview))
    ensures forall name :: UserDetailedCacheKey(name) in end.store.cache ==>
              var d := end.store.cache[UserDetailedCacheKey(name)];
              d.Detailed? && d.detailed.username == name && WasProfile(end.store.db.outbox, d.detailed)
  {
    RunIsSound(start, files, trace, end);
  }
}
