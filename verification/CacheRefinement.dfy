/**
 * Reading a preview through the cache is reading the table, over every run of whole
 * requests, exactly as long as no deletion leaves its preview behind: because the drop
 * from the cache is lost, or because the reply of the database is and no drop follows.
 */
module CacheRefinement {
  import opened Wrappers
  import opened Text
  import opened Domain
  import opened UserTable
  import opened ReadModel
  import opened DetailedUser
  import opened UserService
  import opened CacheAgreement

  datatype Request =
    | Create(p: CreateUserParams)
    | Delete(id: string)
    | Activate(id: string)
    | Deactivate(id: string)
    | Preview(id: string)
    | Detailed(username: string)
    | Relay(event: DetailedEvent)
    | Projection(event: DetailedEvent)

  ghost function Serve(s: Store, files: Files, r: Request, env: Env): Store {
    match r
    case Create(p) => CreateUser(s, p, env).0
    case Delete(id) => DeleteUser(s, id, env).0
    case Activate(id) => ActivateUser(s, id, env).0
    case Deactivate(id) => DeactivateUser(s, id, env).0
    case Preview(id) => GetUserPreviewByID(s, files, id, env).0
    case Detailed(username) => GetDetailedUserByUsername(s, files, username, env).0
    case Relay(e) => s.(projection := Publish(s.projection, e, env.publish))
    case Projection(e) => s.(cache := Project(s.cache, e, env.write).0)
  }

  ghost function ServeAll(s: Store, files: Files, rs: seq<(Request, Env)>): Store {
    if rs == [] then s
    else
      var (r, env) := rs[|rs| - 1];
      Serve(ServeAll(s, files, rs[..|rs| - 1]), files, r, env)
  }

  // ----------------------------------------------- what one request can touch

  /** The only id whose row or preview a request can change. */
  function Subject(r: Request): string {
    match r
    case Create(p) => p.id
    case Preview(id) => TrimSpace(id)
    case Delete(id) => id
    case Activate(id) => id
    case Deactivate(id) => id
    case _ => ""
  }

  lemma LookupKeepsPreviews(s: Store, files: Files, name: string, env: Env, id: string)
    ensures var after := GetDetailedUserByUsername(s, files, name, env).0;
            PreviewAt(after.cache, id) == PreviewAt(s.cache, id) && after.db == s.db
  {
    var found := FindByUsername(s.db, TrimSpace(name), env.db);
    if found.Success? {
      PreviewAfterProfile(s.cache, DetailedFromRow(files, env.filesUp, found.value), env.write, id);
    }
  }

  lemma DetailedRequestsKeepPreviews(s: Store, files: Files, r: Request, env: Env, id: string)
    requires r.Detailed? || r.Relay? || r.Projection?
    ensures PreviewAt(Serve(s, files, r, env).cache, id) == PreviewAt(s.cache, id)
    ensures Serve(s, files, r, env).db == s.db
  {
    match r
    case Detailed(name) => LookupKeepsPreviews(s, files, name, env, id);
    case Projection(e) => PreviewAfterProfile(s.cache, FromEvent(e), env.write, id);
    case _ =>
  }

  lemma ReadsTouchOneId(s: Store, files: Files, userId: string, env: Env, id: string)
    requires Keyed(s.db.rows) && id != TrimSpace(userId)
    requires Describes(PreviewAt(s.cache, TrimSpace(userId)), RowAt(s.db, TrimSpace(userId)))
    ensures PreviewAt(GetUserPreviewByID(s, files, userId, env).0.cache, id) == PreviewAt(s.cache, id)
    ensures GetUserPreviewByID(s, files, userId, env).0.db == s.db
  {
    KeysAreDistinct(id, TrimSpace(userId));
  }

  lemma CreateTouchesOneId(s: Store, p: CreateUserParams, env: Env, id: string)
    requires id != p.id
    ensures var after := CreateUser(s, p, env).0;
            PreviewAt(after.cache, id) == PreviewAt(s.cache, id) && RowAt(after.db, id) == RowAt(s.db, id)
  {
    PreviewAfterUpsert(s.cache, RowToUser(NewRow(p, env.now)), env.write, id);
  }

  lemma ActivateTouchesOneId(s: Store, subject: string, env: Env, id: string)
    requires Keyed(s.db.rows) && id != subject
    ensures var after := ActivateUser(s, subject, env).0;
            PreviewAt(after.cache, id) == PreviewAt(s.cache, id) && RowAt(after.db, id) == RowAt(s.db, id)
  {
    KeysAreDistinct(id, subject);
  }

  lemma DroppingCallsTouchOneId(s: Store, subject: string, env: Env, id: string)
    requires Keyed(s.db.rows) && id != subject
    ensures var c, d := DeleteUser(s, subject, env).0, DeactivateUser(s, subject, env).0;
            && PreviewAt(c.cache, id) == PreviewAt(d.cache, id) == PreviewAt(s.cache, id)
            && RowAt(c.db, id) == RowAt(d.db, id) == RowAt(s.db, id)
  {
    PreviewAfterDrop(s.cache, subject, env.write, id);
  }

  lemma OthersAreUntouched(s: Store, files: Files, r: Request, env: Env, id: string)
    requires Keyed(s.db.rows) && Agrees(s) && id != Subject(r)
    ensures PreviewAt(Serve(s, files, r, env).cache, id) == PreviewAt(s.cache, id)
    ensures RowAt(Serve(s, files, r, env).db, id) == RowAt(s.db, id)
  {
    match r
    case Preview(userId) =>
      assert Describes(PreviewAt(s.cache, Subject(r)), RowAt(s.db, Subject(r)));
      ReadsTouchOneId(s, files, userId, env, id);
    case Create(p) => CreateTouchesOneId(s, p, env, id);
    case Activate(key) => ActivateTouchesOneId(s, key, env, id);
    case Delete(key) => DroppingCallsTouchOneId(s, key, env, id);
    case Deactivate(key) => DroppingCallsTouchOneId(s, key, env, id);
    case _ => DetailedRequestsKeepPreviews(s, files, r, env, id);
  }

  lemma ServeKeepsKeys(s: Store, files: Files, r: Request, env: Env)
    requires Keyed(s.db.rows)
    ensures Keyed(Serve(s, files, r, env).db.rows)
  {
    match r
    case Create(p) => RowOperationsKeepKeys(s.db, p.id, p, env);
    case Delete(id) => RowOperationsKeepKeys(s.db, id, CreateUserParams(id, "", "", "", ""), env);
    case Activate(id) => RowOperationsKeepKeys(s.db, id, CreateUserParams(id, "", "", "", ""), env);
    case Deactivate(id) => RowOperationsKeepKeys(s.db, id, CreateUserParams(id, "", "", "", ""), env);
    case _ =>
  }

  lemma RowOperationsKeepKeys(db: Db, id: string, p: CreateUserParams, env: Env)
    requires Keyed(db.rows)
    ensures Keyed(CreateRow(db, p, env.now, env.db).0.rows) && Keyed(DeleteRow(db, id, env.db).0.rows)
    ensures Keyed(ActivateRow(db, id, env.now, env.db).0.rows)
    ensures Keyed(DeactivateRow(db, id, env.now, env.db).0.rows)
  {
  }

  // --------------------------------------------------------------- agreement

  /** The request changed the subject's row, and its own write to the preview did not take effect. */
  predicate LeavesOldPreview(s: Store, r: Request, env: Env) {
    && Subject(r) in s.db.rows && PreviewAt(s.cache, Subject(r)).Some?
    && env.db.Applies() && !(env.db.NoFault? && env.write.Applies())
  }

  /** A row was deleted and its preview outlived it. */
  predicate OrphansPreview(s: Store, r: Request, env: Env) {
    r.Delete? && LeavesOldPreview(s, r, env)
  }

  /** A row changed its activity and its preview still shows the old one. */
  predicate LeavesOldActivity(s: Store, r: Request, env: Env) {
    && (r.Activate? || r.Deactivate?) && LeavesOldPreview(s, r, env)
    && AsPreview(PreviewAt(s.cache, Subject(r)).value).isActive != r.Activate?
  }

  lemma ReadIsDescribed(s: Store, files: Files, userId: string, env: Env)
    requires Keyed(s.db.rows) && Describes(PreviewAt(s.cache, TrimSpace(userId)), RowAt(s.db, TrimSpace(userId)))
    ensures var after, id := GetUserPreviewByID(s, files, userId, env).0, TrimSpace(userId);
            Describes(PreviewAt(after.cache, id), RowAt(after.db, id))
  {
  }

  lemma SubjectIsDescribed(s: Store, files: Files, r: Request, env: Env)
    requires Keyed(s.db.rows) && Agrees(s)
    ensures var after, id := Serve(s, files, r, env), Subject(r);
            Describes(PreviewAt(after.cache, id), RowAt(after.db, id)) <==> !OrphansPreview(s, r, env)
  {
    var id := Subject(r);
    assert Describes(PreviewAt(s.cache, id), RowAt(s.db, id));
    if r.Preview? {
      ReadIsDescribed(s, files, r.id, env);
    } else if r.Detailed? || r.Relay? || r.Projection? {
      DetailedRequestsKeepPreviews(s, files, r, env, id);
    } else if id in s.db.rows {
      UuidIsTrimmed(id);
    }
  }

  lemma ReadKeepsActivity(s: Store, files: Files, userId: string, env: Env)
    requires Keyed(s.db.rows) && Agrees(s) && ActivityAgrees(s)
    ensures var after, id := GetUserPreviewByID(s, files, userId, env).0, TrimSpace(userId);
            SameActivity(PreviewAt(after.cache, id), RowAt(after.db, id))
  {
    var id := TrimSpace(userId);
    assert Describes(PreviewAt(s.cache, id), RowAt(s.db, id));
    assert SameActivity(PreviewAt(s.cache, id), RowAt(s.db, id));
  }

  lemma SubjectActivity(s: Store, files: Files, r: Request, env: Env)
    requires Keyed(s.db.rows) && Agrees(s) && ActivityAgrees(s)
    ensures var after, id := Serve(s, files, r, env), Subject(r);
            SameActivity(PreviewAt(after.cache, id), RowAt(after.db, id)) <==> !LeavesOldActivity(s, r, env)
  {
    var id := Subject(r);
    assert Describes(PreviewAt(s.cache, id), RowAt(s.db, id));
    assert SameActivity(PreviewAt(s.cache, id), RowAt(s.db, id));
    if r.Preview? {
      ReadKeepsActivity(s, files, r.id, env);
    } else if r.Detailed? || r.Relay? || r.Projection? {
      DetailedRequestsKeepPreviews(s, files, r, env, id);
    } else if id in s.db.rows {
      UuidIsTrimmed(id);
    }
  }

  /** Whatever else fails, agreement survives a request exactly when no preview is orphaned. */
  lemma AgreementIsKept(s: Store, files: Files, r: Request, env: Env)
    requires Keyed(s.db.rows) && Agrees(s)
    ensures Agrees(Serve(s, files, r, env)) <==> !OrphansPreview(s, r, env)
  {
    var after := Serve(s, files, r, env);
    SubjectIsDescribed(s, files, r, env);
    forall id | id != Subject(r) ensures Describes(PreviewAt(after.cache, id), RowAt(after.db, id)) {
      OthersAreUntouched(s, files, r, env, id);
      assert Describes(PreviewAt(s.cache, id), RowAt(s.db, id));
    }
  }

  /** The activity flag agrees too, as long as no activation or deactivation leaves the old preview behind. */
  lemma ActivityIsKept(s: Store, files: Files, r: Request, env: Env)
    requires Keyed(s.db.rows) && Agrees(s) && ActivityAgrees(s)
    ensures ActivityAgrees(Serve(s, files, r, env)) <==> !LeavesOldActivity(s, r, env)
  {
    var after := Serve(s, files, r, env);
    SubjectActivity(s, files, r, env);
    forall id | id != Subject(r) ensures SameActivity(PreviewAt(after.cache, id), RowAt(after.db, id)) {
      OthersAreUntouched(s, files, r, env, id);
      assert SameActivity(PreviewAt(s.cache, id), RowAt(s.db, id));
    }
  }

  // -------------------------------------------------------------- avatar URLs

  /** Whichever request writes a preview, with whatever faults and whatever the table holds, its URL is genuine. */
  lemma UrlsStayGenuine(s: Store, files: Files, r: Request, env: Env)
    requires UrlsAreGenuine(s.cache, files)
    ensures UrlsAreGenuine(Serve(s, files, r, env).cache, files)
  {
    match r
    case Create(p) => CreationStaysGenuine(s, files, p, env);
    case Activate(id) => ActivationStaysGenuine(s, files, id, env);
    case Delete(id) => GenuineUrlsStay(s.cache, files, NO_USER, id, env.write);
    case Deactivate(id) => GenuineUrlsStay(s.cache, files, NO_USER, id, env.write);
    case Preview(id) => ReadStaysGenuine(s, files, id, env);
    case Detailed(name) => LookupStaysGenuine(s, files, name, env);
    case Projection(e) => GenuineUrlsStay(s.cache, files, FromEvent(e), "", env.write);
    case Relay(_) =>
  }

  const NO_USER := User("", "", "", "", "", "", "", "", false, None)

  lemma CreationStaysGenuine(s: Store, files: Files, p: CreateUserParams, env: Env)
    requires UrlsAreGenuine(s.cache, files)
    ensures UrlsAreGenuine(CreateUser(s, p, env).0.cache, files)
  {
    var row := NewRow(p, env.now);
    LoadedUserIsGenuine(files, false, row);
    GenuineUrlsStay(s.cache, files, RowToUser(row), p.id, env.write);
  }

  lemma LookupStaysGenuine(s: Store, files: Files, name: string, env: Env)
    requires UrlsAreGenuine(s.cache, files)
    ensures UrlsAreGenuine(GetDetailedUserByUsername(s, files, name, env).0.cache, files)
  {
    var found := FindByUsername(s.db, TrimSpace(name), env.db);
    if found.Success? {
      GenuineUrlsStay(s.cache, files, DetailedFromRow(files, env.filesUp, found.value), "", env.write);
    }
  }

  lemma ActivationStaysGenuine(s: Store, files: Files, id: string, env: Env)
    requires UrlsAreGenuine(s.cache, files)
    ensures UrlsAreGenuine(ActivateUser(s, id, env).0.cache, files)
  {
    var done := ActivateRow(s.db, id, env.now, env.db).1;
    if done.Success? {
      LoadedUserIsGenuine(files, false, done.value);
      GenuineUrlsStay(s.cache, files, RowToUser(done.value), id, env.write);
    }
  }

  lemma ReadStaysGenuine(s: Store, files: Files, userId: string, env: Env)
    requires UrlsAreGenuine(s.cache, files)
    ensures UrlsAreGenuine(GetUserPreviewByID(s, files, userId, env).0.cache, files)
  {
    var id := TrimSpace(userId);
    var cached, loaded := GetByID(s.cache, id, env.cacheUp), LoadUserPreview(s.db, files, id, env);
    if cached.Success? {
      assert UrlIsGenuine(files, PreviewAt(s.cache, id));
      RefilledUserIsGenuine(files, env.filesUp, cached.value);
      var filled := CachedWithFileURL(files, env.filesUp, cached.value);
      if filled.Some? { GenuineUrlsStay(s.cache, files, filled.value, id, env.write); }
    } else if loaded.Success? {
      LoadedUserIsGenuine(files, env.filesUp, s.db.rows[id]);
      GenuineUrlsStay(s.cache, files, loaded.value, id, env.write);
    }
  }

  /** Over every run from an empty cache, lost writes, lost deletions and orphans included, no cached URL is wrong. */
  lemma {:induction false} UrlsAreAlwaysGenuine(s: Store, files: Files, rs: seq<(Request, Env)>)
    requires s.cache == map[]
    ensures UrlsAreGenuine(ServeAll(s, files, rs).cache, files)
  {
    if rs != [] {
      UrlsAreAlwaysGenuine(s, files, rs[..|rs| - 1]);
      UrlsStayGenuine(ServeAll(s, files, rs[..|rs| - 1]), files, rs[|rs| - 1].0, rs[|rs| - 1].1);
    }
  }

  // ------------------------------------------------------------ main results

  /** No request of the run orphans a preview. */
  ghost predicate NoOrphans(s: Store, files: Files, rs: seq<(Request, Env)>) {
    rs != [] ==>
      var init := rs[..|rs| - 1];
      NoOrphans(s, files, init)
      && !OrphansPreview(ServeAll(s, files, init), rs[|rs| - 1].0, rs[|rs| - 1].1)
  }

  ghost predicate NoOldActivity(s: Store, files: Files, rs: seq<(Request, Env)>) {
    rs != [] ==>
      var init := rs[..|rs| - 1];
      NoOldActivity(s, files, init)
      && !LeavesOldActivity(ServeAll(s, files, init), rs[|rs| - 1].0, rs[|rs| - 1].1)
  }

  lemma {:induction false} ActivityLasts(s: Store, files: Files, rs: seq<(Request, Env)>)
    requires Keyed(s.db.rows) && s.cache == map[] && NoOrphans(s, files, rs) && NoOldActivity(s, files, rs)
    ensures ActivityAgrees(ServeAll(s, files, rs))
  {
    if rs != [] {
      var init := rs[..|rs| - 1];
      ActivityLasts(s, files, init);
      AgreementLastsIffNoOrphans(s, files, init);
      ActivityIsKept(ServeAll(s, files, init), files, rs[|rs| - 1].0, rs[|rs| - 1].1);
    }
  }

  /**
   * A run in which every cache write goes through and every applied statement is answered
   * neither orphans a preview nor leaves an old one.
   */
  lemma {:induction false} ReliableWritesAreEnough(s: Store, files: Files, rs: seq<(Request, Env)>)
    requires forall i :: 0 <= i < |rs| ==> rs[i].1.write.NoFault? && !rs[i].1.db.ReplyLost?
    ensures NoOrphans(s, files, rs) && NoOldActivity(s, files, rs)
  {
    if rs != [] {
      ReliableWritesAreEnough(s, files, rs[..|rs| - 1]);
    }
  }

  /** Agreement holds after every request of the run. */
  ghost predicate AgreesThroughout(s: Store, files: Files, rs: seq<(Request, Env)>) {
    Agrees(ServeAll(s, files, rs)) && (rs != [] ==> AgreesThroughout(s, files, rs[..|rs| - 1]))
  }

  /** From an empty cache, agreement lasts through a run exactly when no request of it orphans a preview. */
  lemma {:induction false} AgreementLastsIffNoOrphans(s: Store, files: Files, rs: seq<(Request, Env)>)
    requires Keyed(s.db.rows) && s.cache == map[]
    ensures Keyed(ServeAll(s, files, rs).db.rows)
    ensures AgreesThroughout(s, files, rs) <==> NoOrphans(s, files, rs)
  {
    if rs != [] {
      var before := ServeAll(s, files, rs[..|rs| - 1]);
      AgreementLastsIffNoOrphans(s, files, rs[..|rs| - 1]);
      ServeKeepsKeys(before, files, rs[|rs| - 1].0, rs[|rs| - 1].1);
      if AgreesThroughout(s, files, rs[..|rs| - 1]) {
        AgreementIsKept(before, files, rs[|rs| - 1].0, rs[|rs| - 1].1);
      }
    }
  }

  predicate SameAnswer(cached: User, direct: User) {
    && cached.id == direct.id && cached.username == direct.username
    && cached.firstName == direct.firstName && cached.lastName == direct.lastName
    && cached.avatarId == direct.avatarId
  }

  lemma FilledUrlIsGenuine(files: Files, cached: User, row: Row)
    requires SameAnswer(cached, RowToUser(row))
    requires cached.avatarUrl == ""
             || (!Blank(cached.avatarId) && files(TrimSpace(cached.avatarId)) == Some(cached.avatarUrl))
    ensures var filled := CachedWithFileURL(files, true, cached);
            (if filled.Some? then filled.value else cached).avatarUrl
            == WithFileURL(files, true, RowToUser(row)).avatarUrl
  {
    TrimSpaceFixes(row.avatarId);
    TrimSpaceFixes("");
  }

  lemma HitIsTableRead(s: Store, files: Files, userId: string, env: Env)
    requires Keyed(s.db.rows) && !Blank(userId) && env.cacheUp
    requires var id := TrimSpace(userId);
             && PreviewAt(s.cache, id).Some?
             && Describes(PreviewAt(s.cache, id), RowAt(s.db, id)) && UrlIsGenuine(files, PreviewAt(s.cache, id))
    ensures var cached := GetUserPreviewByID(s, files, userId, env).1;
            var row := s.db.rows[TrimSpace(userId)];
            && cached.Success? && SameAnswer(cached.value, RowToUser(row))
            && cached.value.isActive == PreviewAt(s.cache, TrimSpace(userId)).value.preview.isActive
            && (env.filesUp ==> cached.value.avatarUrl == WithFileURL(files, true, RowToUser(row)).avatarUrl)
            && GetUserPreviewByIDNoCache(s, files, userId, RELIABLE)
               == Success(WithFileURL(files, true, RowToUser(row)))
  {
    var id := TrimSpace(userId);
    var u := MapCacheToDomainUser(s.cache[UserPreviewCacheKey(id)].preview);
    FilledUrlIsGenuine(files, u, s.db.rows[id]);
  }

  /**
   * After any run that orphans no preview, a preview read through the cache answers
   * as the table itself would: the same profile, the same avatar URL when the file
   * service can be reached, and no user at all where the table has none.
   */
  lemma CachedReadIsTableRead(s: Store, files: Files, rs: seq<(Request, Env)>, userId: string, env: Env)
    requires Keyed(s.db.rows) && s.cache == map[] && NoOrphans(s, files, rs)
    ensures var end := ServeAll(s, files, rs);
            var cached := GetUserPreviewByID(end, files, userId, env).1;
            var direct := GetUserPreviewByIDNoCache(end, files, userId, RELIABLE);
            && (cached.Success? ==> direct.Success? && SameAnswer(cached.value, direct.value))
            && (cached.Success? && env.filesUp ==> cached.value.avatarUrl == direct.value.avatarUrl)
            && (direct.Failure? && env.db.NoFault? ==> cached == Failure(direct.error))
            && (cached.Success? && NoOldActivity(s, files, rs) ==> cached.value.isActive == direct.value.isActive)
  {
    AgreementLastsIffNoOrphans(s, files, rs);
    if NoOldActivity(s, files, rs) { ActivityLasts(s, files, rs); }
    var end, id := ServeAll(s, files, rs), TrimSpace(userId);
    assert Describes(PreviewAt(end.cache, id), RowAt(end.db, id));
    UrlsAreAlwaysGenuine(s, files, rs);
    assert UrlIsGenuine(files, PreviewAt(end.cache, id));
    assert NoOldActivity(s, files, rs) ==> SameActivity(PreviewAt(end.cache, id), RowAt(end.db, id));
    if !Blank(userId) && env.cacheUp && PreviewAt(end.cache, id).Some? {
      HitIsTableRead(end, files, userId, env);
    } else {
      MissIsTableRead(end, files, userId, env);
    }
  }

  lemma MissIsTableRead(s: Store, files: Files, userId: string, env: Env)
    requires Blank(userId) || GetByID(s.cache, TrimSpace(userId), env.cacheUp).Failure?
    ensures var cached := GetUserPreviewByID(s, files, userId, env).1;
            var direct := GetUserPreviewByIDNoCache(s, files, userId, RELIABLE);
            && (cached.Success? ==>
                  && direct.Success? && SameAnswer(cached.value, direct.value)
                  && cached.value.isActive == direct.value.isActive
                  && (env.filesUp ==> cached.value.avatarUrl == direct.value.avatarUrl))
            && (direct.Failure? && env.db.NoFault? ==> cached == Failure(direct.error))
  {
  }

  /** An orphaned preview is served as a live user, though the table no longer has the row. */
  lemma OrphanIsServed(s: Store, files: Files, id: string, env: Env)
    requires Keyed(s.db.rows) && Agrees(s) && OrphansPreview(s, Delete(id), env)
    ensures var after := Serve(s, files, Delete(id), env);
            && GetUserPreviewByID(after, files, id, RELIABLE).1.Success?
            && GetUserPreviewByIDNoCache(after, files, id, RELIABLE) == Failure(UserNotFound)
  {
    UuidIsTrimmed(id);
  }

  /** Activation blanks the cached URL, and the next cached read with a working file service restores it. */
  lemma ActivationKeepsAvatar(s: Store, files: Files, id: string, env: Env, later: Env)
    requires Keyed(s.db.rows) && env.db.NoFault? && env.write.Applies() && later.cacheUp && later.filesUp
    requires later.write.Applies()
    requires id in s.db.rows
    ensures var active := Serve(s, files, Activate(id), env);
            var avatarId := s.db.rows[id].avatarId;
            var url := if Blank(avatarId) then "" else match files(TrimSpace(avatarId)) case Some(u) => u case None => "";
            var (read, reply) := GetUserPreviewByID(active, files, id, later);
            && AsPreview(PreviewAt(active.cache, id).value).avatarUrl == ""
            && reply.Success? && reply.value.avatarUrl == url
            && AsPreview(PreviewAt(read.cache, id).value).avatarUrl == url
  {
    UuidIsTrimmed(id);
    TrimSpaceFixes("");
  }
}
