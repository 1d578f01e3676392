/**
 * Detailed profiles and the table. Lookups and projections are the only requests that
 * store a profile and no request drops one, so a profile follows its row exactly until
 * the row is deleted or a projection stores something else under its name.
 */
module DetailedProfiles {
  import opened Wrappers
  import opened Text
  import opened Domain
  import opened UserTable
  import opened ReadModel
  import opened DetailedUser
  import opened UserService
  import opened CacheAgreement
  import opened CacheRefinement
  import Outbox

  // -------------------------------------------------------- what is in the cache

  /**
   * The request stores a profile under this name: a lookup that misses the cache and
   * finds the row, or a projected event of that name, whose write takes effect.
   */
  predicate StoresProfile(s: Store, r: Request, env: Env, name: string) {
    && name != "" && env.write.Applies()
    && match r
       case Detailed(given) =>
         && TrimSpace(given) == name && GetByUsername(s.cache, name, env.cacheUp).Failure?
         && env.db.NoFault? && UsernameTaken(s.db.rows, name)
       case Projection(e) => TrimSpace(e.username) == name
       case _ => false
  }

  /** Only such a request changes the profile of a name. */
  lemma OthersKeepProfile(s: Store, files: Files, r: Request, env: Env, name: string)
    requires !StoresProfile(s, r, env, name)
    ensures ProfileAt(Serve(s, files, r, env).cache, name) == ProfileAt(s.cache, name)
  {
    match r
    case Detailed(given) =>
      var found := FindByUsername(s.db, TrimSpace(given), env.db);
      if found.Success? {
        ProfileAfterProfile(s.cache, DetailedFromRow(files, env.filesUp, found.value), env.write, name);
      }
    case Projection(e) => ProfileAfterProfile(s.cache, FromEvent(e), env.write, name);
    case Relay(_) =>
    case _ => PreviewRequestsKeepProfiles(s, files, r, env, name);
  }

  lemma PreviewRequestsKeepProfiles(s: Store, files: Files, r: Request, env: Env, name: string)
    requires !r.Detailed? && !r.Projection? && !r.Relay?
    ensures ProfileAt(Serve(s, files, r, env).cache, name) == ProfileAt(s.cache, name)
  {
    AllKeysAreDistinct();
  }

  lemma StoringStores(s: Store, files: Files, r: Request, env: Env, name: string)
    requires StoresProfile(s, r, env, name)
    ensures ProfileAt(Serve(s, files, r, env).cache, name).Some?
  {
    if r.Projection? {
      ProfileAfterProfile(s.cache, FromEvent(r.event), env.write, name);
    } else {
      var found := FindByUsername(s.db, name, env.db);
      ProfileAfterProfile(s.cache, DetailedFromRow(files, env.filesUp, found.value), env.write, name);
    }
  }

  /** A name has a profile after a request exactly if it had one or the request stores one. */
  lemma CachedAfterRequest(s: Store, files: Files, r: Request, env: Env, name: string)
    ensures ProfileAt(Serve(s, files, r, env).cache, name).Some?
            <==> ProfileAt(s.cache, name).Some? || StoresProfile(s, r, env, name)
  {
    if StoresProfile(s, r, env, name) {
      StoringStores(s, files, r, env, name);
    } else {
      OthersKeepProfile(s, files, r, env, name);
    }
  }

  /** The i-th request of the run stores a profile under this name. */
  ghost predicate StoredAt(s: Store, files: Files, rs: seq<(Request, Env)>, i: nat, name: string) {
    i < |rs| && StoresProfile(ServeAll(s, files, rs[..i]), rs[i].0, rs[i].1, name)
  }

  lemma StoredAtPrefix(s: Store, files: Files, rs: seq<(Request, Env)>, i: nat, n: nat, name: string)
    requires i < n <= |rs|
    ensures StoredAt(s, files, rs[..n], i, name) <==> StoredAt(s, files, rs, i, name)
  {
    assert rs[..n][..i] == rs[..i];
  }

  /** After a run a profile is cached exactly if it was before or some request of the run stored it. */
  lemma {:induction false} CachedIffStored(s: Store, files: Files, rs: seq<(Request, Env)>, name: string)
    ensures ProfileAt(ServeAll(s, files, rs).cache, name).Some?
            <==> ProfileAt(s.cache, name).Some? || exists i: nat :: StoredAt(s, files, rs, i, name)
  {
    if rs != [] {
      var n := |rs| - 1;
      CachedIffStored(s, files, rs[..n], name);
      CachedAfterRequest(ServeAll(s, files, rs[..n]), files, rs[n].0, rs[n].1, name);
      forall i: nat | i < n ensures StoredAt(s, files, rs[..n], i, name) <==> StoredAt(s, files, rs, i, name) {
        StoredAtPrefix(s, files, rs, i, n, name);
      }
      assert StoredAt(s, files, rs, n, name) <==> StoresProfile(ServeAll(s, files, rs[..n]), rs[n].0, rs[n].1, name);
    }
  }

  /** A run that does not store the profile of a name again serves the one that is there. */
  lemma {:induction false} UnstoredProfileStays(s: Store, files: Files, rs: seq<(Request, Env)>, name: string)
    requires forall i: nat :: !StoredAt(s, files, rs, i, name)
    ensures ProfileAt(ServeAll(s, files, rs).cache, name) == ProfileAt(s.cache, name)
  {
    if rs != [] {
      var n := |rs| - 1;
      forall i: nat ensures !StoredAt(s, files, rs[..n], i, name) {
        if i < n { StoredAtPrefix(s, files, rs, i, n, name); }
      }
      assert !StoredAt(s, files, rs, n, name);
      UnstoredProfileStays(s, files, rs[..n], name);
      OthersKeepProfile(ServeAll(s, files, rs[..n]), files, rs[n].0, rs[n].1, name);
    }
  }

  // ------------------------------------------------------- agreement with the table

  /** The row is in the table and the document shows it. */
  predicate Shown(d: Document, rows: map<string, Row>, id: string) {
    d.Detailed? && id in rows && ShowsProfile(d.detailed, rows[id])
  }

  ghost predicate IsCurrent(d: Document, rows: map<string, Row>, name: string) {
    exists id :: Shown(d, rows, id) && rows[id].username == name
  }

  /** Every cached profile shows the row that has its username. */
  ghost predicate ProfilesAgree(s: Store) {
    forall name :: ProfileAt(s.cache, name).Some? ==> IsCurrent(ProfileAt(s.cache, name).value, s.db.rows, name)
  }

  /** The document of a user. */
  function ProfileOf(u: User): Document {
    Document.Detailed(MapDomainUserToDetailedCache(u))
  }

  /** What a projected event stores. */
  function Projected(e: DetailedEvent): Document {
    ProfileOf(FromEvent(e))
  }

  /** The request removes a row whose profile is cached. */
  predicate DeletesCachedRow(s: Store, r: Request, env: Env) {
    r.Delete? && env.db.Applies() && r.id in s.db.rows && ProfileAt(s.cache, s.db.rows[r.id].username).Some?
  }

  /**
   * The request leaves a profile that is not the table's: it removes a row whose profile
   * is cached, or projects an event that shows no row of that name.
   */
  ghost predicate Outdates(s: Store, r: Request, env: Env) {
    match r
    case Delete(_) => DeletesCachedRow(s, r, env)
    case Projection(e) =>
      && TrimSpace(e.username) != "" && env.write.Applies()
      && !IsCurrent(Projected(e), s.db.rows, TrimSpace(e.username))
    case _ => false
  }

  lemma LookupStoresCurrent(s: Store, files: Files, given: string, env: Env)
    requires Keyed(s.db.rows) && ProfilesAgree(s)
    ensures ProfilesAgree(Serve(s, files, Request.Detailed(given), env))
  {
    var after := Serve(s, files, Request.Detailed(given), env);
    var found := FindByUsername(s.db, TrimSpace(given), env.db);
    forall name | ProfileAt(after.cache, name).Some?
      ensures IsCurrent(ProfileAt(after.cache, name).value, after.db.rows, name)
    {
      if StoresProfile(s, Request.Detailed(given), env, name) {
        TrimSpaceFixes(given);
        LookedUpUserShowsRow(files, env.filesUp, found.value);
        ProfileAfterProfile(s.cache, DetailedFromRow(files, env.filesUp, found.value), env.write, name);
        assert Shown(ProfileAt(after.cache, name).value, after.db.rows, found.value.id);
      } else {
        OthersKeepProfile(s, files, Request.Detailed(given), env, name);
      }
    }
  }

  lemma ProjectionAgrees(s: Store, files: Files, e: DetailedEvent, env: Env)
    requires ProfilesAgree(s)
    ensures ProfilesAgree(Serve(s, files, Projection(e), env)) <==> !Outdates(s, Projection(e), env)
  {
    var after, own := Serve(s, files, Projection(e), env), TrimSpace(e.username);
    var stores := own != "" && env.write.Applies();
    forall name
      ensures ProfileAt(after.cache, name)
              == if stores && name == own then Some(Projected(e)) else ProfileAt(s.cache, name)
    {
      ProfileAfterProjection(s, files, e, env, name);
    }
    if Outdates(s, Projection(e), env) {
      assert ProfileAt(after.cache, own) == Some(Projected(e));
    } else {
      forall name | ProfileAt(after.cache, name).Some?
        ensures IsCurrent(ProfileAt(after.cache, name).value, s.db.rows, name)
      {
        assert !(stores && name == own) ==> ProfileAt(after.cache, name) == ProfileAt(s.cache, name);
      }
    }
  }

  lemma ProfileAfterProjection(s: Store, files: Files, e: DetailedEvent, env: Env, name: string)
    ensures ProfileAt(Serve(s, files, Projection(e), env).cache, name)
            == if TrimSpace(e.username) != "" && env.write.Applies() && name == TrimSpace(e.username)
               then Some(Projected(e)) else ProfileAt(s.cache, name)
  {
    ProfileAfterProfile(s.cache, FromEvent(e), env.write, name);
  }

  /** A row that a call leaves in the table keeps everything that its profile shows. */
  lemma CallKeepsShown(s: Store, files: Files, r: Request, env: Env, d: Document, id: string)
    requires Keyed(s.db.rows) && (r.Create? || r.Delete? || r.Activate? || r.Deactivate?)
    requires Shown(d, s.db.rows, id) && !(r.Delete? && r.id == id && env.db.Applies())
    ensures var rows := Serve(s, files, r, env).db.rows;
            Shown(d, rows, id) && rows[id].username == s.db.rows[id].username
  {
    match r
    case Create(p) => InsertKeepsShown(s.db, p, env, d, id);
    case Delete(key) => assert id != key ==> id in (s.db.rows - {key});
    case Activate(key) => StatusKeepsShown(s.db, key, Active, env.now, d, id);
    case Deactivate(key) => StatusKeepsShown(s.db, key, RegistrationFailed, env.now, d, id);
    case _ =>
  }

  lemma InsertKeepsShown(db: Db, p: CreateUserParams, env: Env, d: Document, id: string)
    requires Shown(d, db.rows, id)
    ensures var rows := Insert(db, p, env.now).0.rows;
            Shown(d, rows, id) && rows[id].username == db.rows[id].username
  {
  }

  lemma StatusKeepsShown(db: Db, key: string, status: Status, now: int, d: Document, id: string)
    requires Keyed(db.rows) && Shown(d, db.rows, id)
    ensures var rows := SetStatus(db, key, status, now, FailedToFindUser).0.rows;
            && Shown(d, rows, id) && rows[id].username == db.rows[id].username
            && rows == SetStatus(db, key, status, now, FailedToDeleteUser).0.rows
  {
  }

  lemma CallAgrees(s: Store, files: Files, r: Request, env: Env)
    requires Keyed(s.db.rows) && UniqueUsernames(s.db.rows) && ProfilesAgree(s)
    requires r.Create? || r.Delete? || r.Activate? || r.Deactivate?
    ensures ProfilesAgree(Serve(s, files, r, env)) <==> !Outdates(s, r, env)
  {
    var after := Serve(s, files, r, env);
    forall name ensures ProfileAt(after.cache, name) == ProfileAt(s.cache, name) {
      OthersKeepProfile(s, files, r, env, name);
    }
    if Outdates(s, r, env) {
      DeletedRowHasNoName(s, files, r.id, env);
    } else {
      forall name | ProfileAt(s.cache, name).Some?
        ensures IsCurrent(ProfileAt(s.cache, name).value, after.db.rows, name)
      {
        var d := ProfileAt(s.cache, name).value;
        var id :| Shown(d, s.db.rows, id) && s.db.rows[id].username == name;
        CallKeepsShown(s, files, r, env, d, id);
      }
    }
  }

  lemma DeletedRowHasNoName(s: Store, files: Files, id: string, env: Env)
    requires Keyed(s.db.rows) && UniqueUsernames(s.db.rows) && id in s.db.rows && env.db.Applies()
    ensures var rows := Serve(s, files, Delete(id), env).db.rows;
            rows == s.db.rows - {id} && !UsernameTaken(rows, s.db.rows[id].username)
  {
    UuidIsTrimmed(id);
  }

  /**
   * Whatever else fails or is done, every cached profile stays that of its row through a
   * request exactly unless the request deletes the row of a cached profile or projects an
   * event that shows no row.
   */
  lemma ProfileAgreementIsKept(s: Store, files: Files, r: Request, env: Env)
    requires Keyed(s.db.rows) && UniqueUsernames(s.db.rows) && ProfilesAgree(s)
    ensures ProfilesAgree(Serve(s, files, r, env)) <==> !Outdates(s, r, env)
  {
    match r
    case Detailed(given) => LookupStoresCurrent(s, files, given, env);
    case Projection(e) => ProjectionAgrees(s, files, e, env);
    case Relay(_) =>
    case Preview(id) => PreviewKeepsTable(s, files, id, env);
    case _ => CallAgrees(s, files, r, env);
  }

  lemma PreviewKeepsTable(s: Store, files: Files, id: string, env: Env)
    ensures var after := Serve(s, files, Request.Preview(id), env);
            after.db == s.db && (ProfilesAgree(after) <==> ProfilesAgree(s))
  {
    forall name ensures ProfileAt(Serve(s, files, Request.Preview(id), env).cache, name) == ProfileAt(s.cache, name) {
      OthersKeepProfile(s, files, Request.Preview(id), env, name);
    }
  }

  // ---------------------------------------------------------------------- runs

  ghost predicate NothingOutdated(s: Store, files: Files, rs: seq<(Request, Env)>) {
    rs != [] ==>
      var init := rs[..|rs| - 1];
      NothingOutdated(s, files, init)
      && !Outdates(ServeAll(s, files, init), rs[|rs| - 1].0, rs[|rs| - 1].1)
  }

  ghost predicate ProfilesAgreeThroughout(s: Store, files: Files, rs: seq<(Request, Env)>) {
    ProfilesAgree(ServeAll(s, files, rs)) && (rs != [] ==> ProfilesAgreeThroughout(s, files, rs[..|rs| - 1]))
  }

  /** A request executes one statement on the table at most. */
  lemma ServeExecutes(s: Store, files: Files, r: Request, env: Env) returns (c: Outbox.Command)
    ensures Serve(s, files, r, env).db == s.db || Serve(s, files, r, env).db == Outbox.Exec(s.db, c)
  {
    c := match r
         case Create(p) => Outbox.Create(p, env.now, env.db)
         case Delete(id) => Outbox.Delete(id, env.db)
         case Activate(id) => Outbox.Activate(id, env.now, env.db)
         case Deactivate(id) => Outbox.Deactivate(id, env.now, env.db)
         case _ => Outbox.Delete("", Lost);
  }

  lemma ServeIsLawful(s: Store, files: Files, r: Request, env: Env)
    requires Outbox.Lawful(s.db)
    ensures Outbox.Lawful(Serve(s, files, r, env).db)
  {
    var c := ServeExecutes(s, files, r, env);
    Outbox.StepIsLawful(s.db, Outbox.Exec(s.db, c), c);
  }

  /** From an empty cache, profiles agree through a run exactly when no request of it outdates one. */
  lemma {:induction false} ProfilesAgreeIffNothingOutdated(s: Store, files: Files, rs: seq<(Request, Env)>)
    requires Outbox.Lawful(s.db) && s.cache == map[]
    ensures Outbox.Lawful(ServeAll(s, files, rs).db)
    ensures ProfilesAgreeThroughout(s, files, rs) <==> NothingOutdated(s, files, rs)
  {
    if rs != [] {
      var before := ServeAll(s, files, rs[..|rs| - 1]);
      var (r, env) := rs[|rs| - 1];
      ProfilesAgreeIffNothingOutdated(s, files, rs[..|rs| - 1]);
      ServeIsLawful(before, files, r, env);
      if ProfilesAgreeThroughout(s, files, rs[..|rs| - 1]) { ProfileAgreementIsKept(before, files, r, env); }
    }
  }

  // ------------------------------------------------- runs fed from the topics

  /** A relayed event comes from the requested topic, a projected one from the projection topic. */
  predicate FromTopics(s: Store, r: Request) {
    && (r.Relay? ==> r.event in s.requested)
    && (r.Projection? ==> r.event in s.projection)
  }

  ghost predicate FromTopicsThroughout(s: Store, files: Files, rs: seq<(Request, Env)>) {
    rs != [] ==>
      var init := rs[..|rs| - 1];
      FromTopicsThroughout(s, files, init) && FromTopics(ServeAll(s, files, init), rs[|rs| - 1].0)
  }

  ghost predicate NoCachedRowDeleted(s: Store, files: Files, rs: seq<(Request, Env)>) {
    rs != [] ==>
      var init := rs[..|rs| - 1];
      NoCachedRowDeleted(s, files, init)
      && !DeletesCachedRow(ServeAll(s, files, init), rs[|rs| - 1].0, rs[|rs| - 1].1)
  }

  /** The event has a username, its profile is cached, and what it would store shows the row of that name. */
  ghost predicate CurrentEvent(s: Store, e: DetailedEvent) {
    var name := TrimSpace(e.username);
    name != "" && ProfileAt(s.cache, name).Some? && IsCurrent(Projected(e), s.db.rows, name)
  }

  ghost predicate TopicIsCurrent(s: Store, topic: seq<DetailedEvent>) {
    forall i :: 0 <= i < |topic| ==> CurrentEvent(s, topic[i])
  }

  ghost predicate TopicsAreCurrent(s: Store) {
    TopicIsCurrent(s, s.requested) && TopicIsCurrent(s, s.projection)
  }

  /** On such topics the deletion of a cached row is the only request that outdates a profile. */
  lemma OnlyDeletionsOutdate(s: Store, r: Request, env: Env)
    requires TopicsAreCurrent(s) && FromTopics(s, r)
    ensures Outdates(s, r, env) <==> DeletesCachedRow(s, r, env)
  {
    if r.Projection? {
      var i :| 0 <= i < |s.projection| && s.projection[i] == r.event;
      assert CurrentEvent(s, s.projection[i]);
    }
  }

  lemma RequestKeepsShown(s: Store, files: Files, r: Request, env: Env, d: Document, id: string)
    requires Keyed(s.db.rows) && Shown(d, s.db.rows, id) && !(r.Delete? && r.id == id && env.db.Applies())
    ensures var rows := Serve(s, files, r, env).db.rows;
            Shown(d, rows, id) && rows[id].username == s.db.rows[id].username
  {
    match r
    case Preview(key) => PreviewKeepsTable(s, files, key, env);
    case Detailed(_) =>
    case Relay(_) =>
    case Projection(_) =>
    case _ => CallKeepsShown(s, files, r, env, d, id);
  }

  /** An event stays current as long as the row of its name is not deleted. */
  lemma EventStaysCurrent(s: Store, files: Files, r: Request, env: Env, e: DetailedEvent)
    requires Keyed(s.db.rows) && CurrentEvent(s, e) && !DeletesCachedRow(s, r, env)
    ensures CurrentEvent(Serve(s, files, r, env), e)
  {
    var name := TrimSpace(e.username);
    var id :| Shown(Projected(e), s.db.rows, id) && s.db.rows[id].username == name;
    CachedAfterRequest(s, files, r, env, name);
    RequestKeepsShown(s, files, r, env, Projected(e), id);
  }

  /** What a lookup publishes is current. */
  lemma PublishedEventIsCurrent(s: Store, files: Files, given: string, env: Env)
    requires Keyed(s.db.rows) && env.write.NoFault? && StoresProfile(s, Request.Detailed(given), env, TrimSpace(given))
    ensures var u := DetailedFromRow(files, env.filesUp, FindByUsername(s.db, TrimSpace(given), env.db).value);
            CurrentEvent(Serve(s, files, Request.Detailed(given), env), ToEvent(u))
  {
    var name, after := TrimSpace(given), Serve(s, files, Request.Detailed(given), env);
    var row := FindByUsername(s.db, name, env.db).value;
    var u := DetailedFromRow(files, env.filesUp, row);
    TrimSpaceFixes(given);
    UuidIsTrimmed(row.id);
    TrimSpaceFixes(row.id);
    DisplayNameIsStable(row.firstName, row.lastName);
    ToEventTrims(u);
    ProjectedDocument(ToEvent(u));
    TrimSpaceFixes(row.avatarId);
    TrimSpaceFixes(row.about);
    StoringStores(s, files, Request.Detailed(given), env, name);
    assert Shown(Projected(ToEvent(u)), after.db.rows, row.id);
  }

  /** A request leaves the requested topic as it is or adds what a lookup stored. */
  lemma RequestedAfterRequest(s: Store, files: Files, r: Request, env: Env)
    ensures var after := Serve(s, files, r, env);
            || after.requested == s.requested
            || (&& r.Detailed? && env.write.NoFault? && StoresProfile(s, r, env, TrimSpace(r.username))
                && var row := FindByUsername(s.db, TrimSpace(r.username), env.db).value;
                   after.requested == s.requested + [ToEvent(DetailedFromRow(files, env.filesUp, row))])
  {
  }

  lemma TopicGrowsCurrent(
      s: Store, files: Files, r: Request, env: Env, topic: seq<DetailedEvent>, added: seq<DetailedEvent>)
    requires Keyed(s.db.rows) && TopicIsCurrent(s, topic) && !DeletesCachedRow(s, r, env)
    requires TopicIsCurrent(Serve(s, files, r, env), added)
    ensures TopicIsCurrent(Serve(s, files, r, env), topic + added)
  {
    var after := Serve(s, files, r, env);
    forall i | 0 <= i < |topic + added| ensures CurrentEvent(after, (topic + added)[i]) {
      if i < |topic| {
        EventStaysCurrent(s, files, r, env, topic[i]);
      } else {
        assert CurrentEvent(after, added[i - |topic|]);
      }
    }
  }

  lemma RequestedStaysCurrent(s: Store, files: Files, r: Request, env: Env)
    requires Keyed(s.db.rows) && TopicsAreCurrent(s) && !DeletesCachedRow(s, r, env)
    ensures TopicIsCurrent(Serve(s, files, r, env), Serve(s, files, r, env).requested)
  {
    RequestedAfterRequest(s, files, r, env);
    TopicGrowsCurrent(s, files, r, env, s.requested, []);
    if Serve(s, files, r, env).requested != s.requested {
      var u := DetailedFromRow(files, env.filesUp, FindByUsername(s.db, TrimSpace(r.username), env.db).value);
      PublishedEventIsCurrent(s, files, r.username, env);
      TopicGrowsCurrent(s, files, r, env, s.requested, [ToEvent(u)]);
    } else {
      assert s.requested + [] == s.requested;
    }
  }

  lemma RelayedEventIsCurrent(s: Store, files: Files, r: Request, env: Env)
    requires Keyed(s.db.rows) && TopicIsCurrent(s, s.requested) && r.Relay? && r.event in s.requested
    ensures TopicIsCurrent(Serve(s, files, r, env), [r.event])
  {
    var j :| 0 <= j < |s.requested| && s.requested[j] == r.event;
    EventStaysCurrent(s, files, r, env, s.requested[j]);
  }

  /** What a request adds to the projection topic. */
  function Relayed(r: Request, env: Env): seq<DetailedEvent> {
    if r.Relay? && env.publish.Applies() then [r.event] else []
  }

  lemma ProjectionGrowsByRelayed(s: Store, files: Files, r: Request, env: Env)
    ensures Serve(s, files, r, env).projection == s.projection + Relayed(r, env)
  {
    assert s.projection + [] == s.projection;
  }

  lemma RelayedIsCurrent(s: Store, files: Files, r: Request, env: Env)
    requires Keyed(s.db.rows) && TopicIsCurrent(s, s.requested) && FromTopics(s, r)
    ensures TopicIsCurrent(Serve(s, files, r, env), Relayed(r, env))
  {
    if r.Relay? { RelayedEventIsCurrent(s, files, r, env); }
  }

  lemma ProjectionStaysCurrent(s: Store, files: Files, r: Request, env: Env)
    requires Keyed(s.db.rows) && TopicsAreCurrent(s) && !DeletesCachedRow(s, r, env)
    ensures FromTopics(s, r) ==> TopicIsCurrent(Serve(s, files, r, env), Serve(s, files, r, env).projection)
  {
    if FromTopics(s, r) {
      ProjectionGrowsByRelayed(s, files, r, env);
      RelayedIsCurrent(s, files, r, env);
      TopicGrowsCurrent(s, files, r, env, s.projection, Relayed(r, env));
    }
  }

  lemma {:induction false} TopicsStayCurrent(s: Store, files: Files, rs: seq<(Request, Env)>)
    requires Outbox.Lawful(s.db) && s.requested == [] && s.projection == []
    requires FromTopicsThroughout(s, files, rs) && NoCachedRowDeleted(s, files, rs)
    ensures Outbox.Lawful(ServeAll(s, files, rs).db) && TopicsAreCurrent(ServeAll(s, files, rs))
  {
    if rs != [] {
      var before := ServeAll(s, files, rs[..|rs| - 1]);
      TopicsStayCurrent(s, files, rs[..|rs| - 1]);
      ServeIsLawful(before, files, rs[|rs| - 1].0, rs[|rs| - 1].1);
      RequestedStaysCurrent(before, files, rs[|rs| - 1].0, rs[|rs| - 1].1);
      ProjectionStaysCurrent(before, files, rs[|rs| - 1].0, rs[|rs| - 1].1);
    }
  }

  lemma {:induction false} OutdatedIffCachedRowDeleted(s: Store, files: Files, rs: seq<(Request, Env)>)
    requires Outbox.Lawful(s.db) && s.requested == [] && s.projection == []
    requires FromTopicsThroughout(s, files, rs)
    ensures NothingOutdated(s, files, rs) <==> NoCachedRowDeleted(s, files, rs)
  {
    if rs != [] {
      var init := rs[..|rs| - 1];
      OutdatedIffCachedRowDeleted(s, files, init);
      if NoCachedRowDeleted(s, files, init) {
        TopicsStayCurrent(s, files, init);
        OnlyDeletionsOutdate(ServeAll(s, files, init), rs[|rs| - 1].0, rs[|rs| - 1].1);
      }
    }
  }

  /**
   * From empty caches and topics, with every relay and projection fed from its topic:
   * cached profiles agree with the table after every request of a run exactly if no
   * request of it deletes a row whose profile is cached.
   */
  lemma ProfilesAgreeUntilDeletion(s: Store, files: Files, rs: seq<(Request, Env)>)
    requires Outbox.Lawful(s.db) && s.cache == map[] && s.requested == [] && s.projection == []
    requires FromTopicsThroughout(s, files, rs)
    ensures ProfilesAgreeThroughout(s, files, rs) <==> NoCachedRowDeleted(s, files, rs)
  {
    ProfilesAgreeIffNothingOutdated(s, files, rs);
    OutdatedIffCachedRowDeleted(s, files, rs);
  }

  /** Then a lookup answers with the profile of the row that has the name, and with none if no row has it. */
  lemma LookupFollowsTable(s: Store, files: Files, rs: seq<(Request, Env)>, given: string, env: Env)
    requires Outbox.Lawful(s.db) && s.cache == map[] && NothingOutdated(s, files, rs)
    ensures var end := ServeAll(s, files, rs);
            var reply := GetDetailedUserByUsername(end, files, given, env).1;
            && (reply.Success? ==>
                  IsCurrent(ProfileOf(reply.value), end.db.rows, TrimSpace(given)))
            && (!Blank(given) && !UsernameTaken(end.db.rows, TrimSpace(given)) && env.db.NoFault? ==>
                  reply == Failure(UserNotFound))
  {
    ProfilesAgreeIffNothingOutdated(s, files, rs);
    LookupAnswersFromRow(ServeAll(s, files, rs), files, given, env);
  }

  lemma LookupAnswersFromRow(s: Store, files: Files, given: string, env: Env)
    requires Keyed(s.db.rows) && ProfilesAgree(s)
    ensures var reply := GetDetailedUserByUsername(s, files, given, env).1;
            && (reply.Success? ==>
                  IsCurrent(ProfileOf(reply.value), s.db.rows, TrimSpace(given)))
            && (!Blank(given) && !UsernameTaken(s.db.rows, TrimSpace(given)) && env.db.NoFault? ==>
                  reply == Failure(UserNotFound))
  {
    var name := TrimSpace(given);
    var found := FindByUsername(s.db, name, env.db);
    if Blank(given) {
    } else if GetByUsername(s.cache, name, env.cacheUp).Success? {
      var d := ProfileAt(s.cache, name).value;
      var id :| Shown(d, s.db.rows, id) && s.db.rows[id].username == name;
      DisplayNameIsStable(s.db.rows[id].firstName, s.db.rows[id].lastName);
      DisplayNameIsStable("", "");
      assert MapDomainUserToDetailedCache(MapDetailedCacheToDomainUser(d.detailed)) == d.detailed;
    } else if found.Success? {
      TrimSpaceFixes(given);
      LookedUpUserShowsRow(files, env.filesUp, found.value);
      var u := DetailedFromRow(files, env.filesUp, found.value);
      assert Shown(ProfileOf(u), s.db.rows, found.value.id);
      DisplayNameIsStable(found.value.firstName, found.value.lastName);
    }
  }

  // ------------------------------------------------------ profiles outlive rows

  /**
   * The deletion of a row whose profile is cached is such a request: from then on the
   * lookup answers with the deleted user, for as long as nothing stores the name again.
   */
  lemma DeletedProfileIsServed(s: Store, files: Files, id: string, env: Env, rs: seq<(Request, Env)>, later: Env)
    requires Keyed(s.db.rows) && UniqueUsernames(s.db.rows) && ProfilesAgree(s) && Outdates(s, Delete(id), env)
    requires later.cacheUp
    requires forall i: nat :: !StoredAt(Serve(s, files, Delete(id), env), files, rs, i, s.db.rows[id].username)
    ensures var gone, row := Serve(s, files, Delete(id), env), s.db.rows[id];
            var reply := GetDetailedUserByUsername(ServeAll(gone, files, rs), files, row.username, later).1;
            && !UsernameTaken(gone.db.rows, row.username) && id !in gone.db.rows
            && (row.username != "" ==>
                  reply.Success? && reply.value.id == id
                  && reply.value.displayName == DisplayName(row.firstName, row.lastName))
  {
    var gone, name := Serve(s, files, Delete(id), env), s.db.rows[id].username;
    DeletedRowHasNoName(s, files, id, env);
    OthersKeepProfile(s, files, Delete(id), env, name);
    UnstoredProfileStays(gone, files, rs, name);
    CachedProfileShowsRow(s, id);
    if name != "" { HitServesProfile(ServeAll(gone, files, rs), files, name, later); }
  }

  lemma CachedProfileShowsRow(s: Store, id: string)
    requires Keyed(s.db.rows) && UniqueUsernames(s.db.rows) && ProfilesAgree(s)
    requires id in s.db.rows && ProfileAt(s.cache, s.db.rows[id].username).Some?
    ensures Shown(ProfileAt(s.cache, s.db.rows[id].username).value, s.db.rows, id)
  {
    var name := s.db.rows[id].username;
    var other :| Shown(ProfileAt(s.cache, name).value, s.db.rows, other) && s.db.rows[other].username == name;
    assert other == id;
  }

  lemma HitServesProfile(s: Store, files: Files, name: string, env: Env)
    requires Trimmed(name) && name != "" && env.cacheUp && ProfileAt(s.cache, name).Some?
    ensures GetDetailedUserByUsername(s, files, name, env).1
            == Success(MapDetailedCacheToDomainUser(AsDetailed(ProfileAt(s.cache, name).value)))
  {
    TrimSpaceFixes(name);
  }

  lemma CreatedAndLookedUp(p: CreateUserParams, files: Files) returns (s: Store)
    requires IsUuid(p.id) && Trimmed(p.username) && p.username != ""
    ensures var created := Serve(Store(EMPTY_DB, map[], [], []), files, Create(p), RELIABLE);
            s == Serve(created, files, Request.Detailed(p.username), RELIABLE)
    ensures s.db.rows == map[p.id := NewRow(p, 0)] && ProfilesAgree(s) && ProfileAt(s.cache, p.username).Some?
  {
    var created := Serve(Store(EMPTY_DB, map[], [], []), files, Create(p), RELIABLE);
    s := Serve(created, files, Request.Detailed(p.username), RELIABLE);
    TrimSpaceFixes(p.username);
    assert created.db.rows[p.id].username == p.username;
    forall name ensures ProfileAt(created.cache, name).None? { KeysAreDistinct(p.id, name); }
    assert ProfileAt(created.cache, p.username).None?;
    LookupStoresCurrent(created, files, p.username, RELIABLE);
    StoringStores(created, files, Request.Detailed(p.username), RELIABLE, p.username);
  }

  lemma ServeThree(s: Store, files: Files, a: Request, b: Request, c: Request)
    ensures ServeAll(s, files, [(a, RELIABLE), (b, RELIABLE), (c, RELIABLE)])
            == Serve(Serve(Serve(s, files, a, RELIABLE), files, b, RELIABLE), files, c, RELIABLE)
  {
    var x, y, z := (a, RELIABLE), (b, RELIABLE), (c, RELIABLE);
    assert [x, y, z][..2] == [x, y] && [x, y][..1] == [x] && [x][..0] == [];
    var one := Serve(s, files, a, RELIABLE);
    assert ServeAll(s, files, [x]) == one;
    assert ServeAll(s, files, [x, y]) == Serve(one, files, b, RELIABLE);
  }

  /** Created, looked up and deleted, with no failure anywhere: the deleted user is still served by name. */
  lemma LookedUpThenDeleted(p: CreateUserParams, files: Files)
    requires IsUuid(p.id) && Trimmed(p.username) && p.username != ""
    ensures var start := Store(EMPTY_DB, map[], [], []);
            var rs := [(Create(p), RELIABLE), (Request.Detailed(p.username), RELIABLE), (Delete(p.id), RELIABLE)];
            var end := ServeAll(start, files, rs);
            var reply := GetDetailedUserByUsername(end, files, p.username, RELIABLE).1;
            && !UsernameTaken(end.db.rows, p.username) && p.id !in end.db.rows
            && reply.Success? && reply.value.id == p.id
            && reply.value.displayName == DisplayName(p.firstName, p.lastName)
  {
    var cached := CreatedAndLookedUp(p, files);
    ServeThree(Store(EMPTY_DB, map[], [], []), files, Create(p), Request.Detailed(p.username), Delete(p.id));
    DeletedProfileIsServed(cached, files, p.id, RELIABLE, [], RELIABLE);
  }
}
