/**
 * What each call of the service answers and leaves behind, told in terms of the table,
 * the cache and the fate of its outgoing calls, for every state and every fate.
 */
module CallOutcomes {
  import opened Wrappers
  import opened Text
  import opened Domain
  import opened UserTable
  import opened ReadModel
  import opened DetailedUser
  import opened UserService
  import opened CacheAgreement

  /** The event log after a change of this row, if there was one. */
  function Logged(db: Db, changed: bool, op: Op, row: Row): seq<Event> {
    if changed then db.outbox + [Event(row.id, op, row)] else db.outbox
  }

  /** The event log after the deletion of this row, if there was one. */
  function LoggedDeletion(db: Db, removed: bool, id: string): seq<Event> {
    if removed && id in db.rows then db.outbox + [Event(id, Deactivated, db.rows[id])] else db.outbox
  }

  predicate SomeRowHas(rows: map<string, Row>, username: string) {
    exists id :: id in rows && rows[id].username == username
  }

  /** Nothing but the preview of this id may differ. */
  ghost predicate OnlyPreviewOf(before: Cache, after: Cache, id: string) {
    forall key :: key != UserPreviewCacheKey(id) ==>
      (key in after <==> key in before) && (key in before ==> after[key] == before[key])
  }

  // ---------------------------------------------------------------- creation

  /** The row of a user who was just created. */
  function FreshRow(p: CreateUserParams, now: int): Row {
    Row(id := p.id, username := p.username, firstName := p.firstName, lastName := p.lastName,
        avatarId := p.avatarId, about := "", isActive := false, status := PendingRegistration,
        createdAt := now, updatedAt := now)
  }

  predicate CanInsert(db: Db, p: CreateUserParams) {
    IsUuid(p.id) && p.id !in db.rows && !SomeRowHas(db.rows, p.username)
  }

  /** A creation inserts and logs the row exactly if its id is a fresh UUID, its name is free and the call arrives. */
  lemma CreationChangesTable(s: Store, p: CreateUserParams, env: Env)
    ensures var db := CreateUser(s, p, env).0.db;
            var inserted := CanInsert(s.db, p) && env.db.Applies();
            && db.rows == (if inserted then s.db.rows[p.id := FreshRow(p, env.now)] else s.db.rows)
            && db.outbox == Logged(s.db, inserted, Created, FreshRow(p, env.now))
  {
  }

  /** It succeeds exactly if nothing fails, and otherwise tells the first reason that applies. */
  lemma CreationAnswers(s: Store, p: CreateUserParams, env: Env)
    ensures var r := CreateUser(s, p, env).1;
            && (r.Success? <==> CanInsert(s.db, p) && env.db.NoFault? && env.write.NoFault?)
            && (r.Success? ==>
                  r.value == User(p.id, p.username, "", p.firstName, p.lastName, p.avatarId, "", "",
                                  false, Some(PendingRegistration)))
            && (env.db.NoFault? ==>
                  && (r == Failure(InvalidUserID) <==> !IsUuid(p.id))
                  && (r == Failure(UserIDAlreadyTaken) <==> IsUuid(p.id) && p.id in s.db.rows)
                  && (r == Failure(UsernameAlreadyTaken) <==>
                        IsUuid(p.id) && p.id !in s.db.rows && SomeRowHas(s.db.rows, p.username))
                  && (r == Failure(CacheFailed) <==> CanInsert(s.db, p) && !env.write.NoFault?))
  {
  }

  lemma CreationChangesCache(s: Store, p: CreateUserParams, env: Env)
    ensures var after := CreateUser(s, p, env).0;
            && PreviewAt(after.cache, p.id)
               == (if CanInsert(s.db, p) && env.db.NoFault? && env.write.Applies()
                   then Some(Preview(UserCache(p.id, p.username, p.firstName, p.lastName, p.avatarId, "", false)))
                   else PreviewAt(s.cache, p.id))
            && OnlyPreviewOf(s.cache, after.cache, p.id)
            && after.requested == s.requested && after.projection == s.projection
  {
  }

  // ---------------------------------------------------------------- deletion

  /** A deletion removes the row and logs it exactly if there is one and the call arrives. */
  lemma DeletionOutcome(s: Store, id: string, env: Env)
    requires Keyed(s.db.rows)
    ensures var (after, r) := DeleteUser(s, id, env);
            var removed := id in s.db.rows && env.db.Applies();
            && after.db.rows == (if removed then s.db.rows - {id} else s.db.rows)
            && after.db.outbox == LoggedDeletion(s.db, removed, id)
            && (r.Success? <==> id in s.db.rows && env.db.NoFault? && env.write.NoFault?)
            && (env.db.NoFault? && IsUuid(id) && id !in s.db.rows ==> r == Failure(UserNotFound))
            && (id == "" ==> r == Failure(InvalidUserID))
            && PreviewAt(after.cache, id)
               == (if id in s.db.rows && env.db.NoFault? && env.write.Applies() then None else PreviewAt(s.cache, id))
            && OnlyPreviewOf(s.cache, after.cache, id)
            && after.requested == s.requested && after.projection == s.projection
  {
  }

  // ------------------------------------------------- activation, deactivation

  function WithStatus(row: Row, active: bool, status: Status, now: int): Row {
    row.(isActive := active, status := status, updatedAt := now)
  }

  lemma ActivationChangesTable(s: Store, id: string, env: Env)
    requires Keyed(s.db.rows)
    ensures var db, hit := ActivateUser(s, id, env).0.db, id in s.db.rows && env.db.Applies();
            if hit then
              var row := WithStatus(s.db.rows[id], true, Active, env.now);
              db.rows == s.db.rows[id := row] && db.outbox == Logged(s.db, true, Updated, row)
            else db == s.db
  {
  }

  lemma ActivationAnswers(s: Store, id: string, env: Env)
    requires Keyed(s.db.rows)
    ensures var (after, r) := ActivateUser(s, id, env);
            && (r.Success? <==> id in s.db.rows && env.db.NoFault? && env.write.NoFault?)
            && (r.Success? ==>
                  var row := s.db.rows[id];
                  r.value == User(id, row.username, "", row.firstName, row.lastName, row.avatarId, "", row.about,
                                  true, Some(Active)))
            && (env.db.NoFault? && IsUuid(id) && id !in s.db.rows ==> r == Failure(UserNotFound))
            && (id == "" ==> r == Failure(InvalidUserID))
            && OnlyPreviewOf(s.cache, after.cache, id)
            && after.requested == s.requested && after.projection == s.projection
  {
  }

  lemma ActivationChangesPreview(s: Store, id: string, env: Env)
    requires Keyed(s.db.rows)
    ensures PreviewAt(ActivateUser(s, id, env).0.cache, id)
            == if id in s.db.rows && env.db.NoFault? && env.write.Applies() then
                 var row := s.db.rows[id];
                 Some(Preview(UserCache(id, row.username, row.firstName, row.lastName, row.avatarId, "", true)))
               else PreviewAt(s.cache, id)
  {
  }

  lemma DeactivationChangesTable(s: Store, id: string, env: Env)
    requires Keyed(s.db.rows)
    ensures var db, hit := DeactivateUser(s, id, env).0.db, id in s.db.rows && env.db.Applies();
            if hit then
              var row := WithStatus(s.db.rows[id], false, RegistrationFailed, env.now);
              db.rows == s.db.rows[id := row] && db.outbox == Logged(s.db, true, Updated, row)
            else db == s.db
  {
  }

  lemma DeactivationAnswers(s: Store, id: string, env: Env)
    requires Keyed(s.db.rows)
    ensures var (after, r) := DeactivateUser(s, id, env);
            && (r.Success? <==> id in s.db.rows && env.db.NoFault? && env.write.NoFault?)
            && (env.db.NoFault? && IsUuid(id) && id !in s.db.rows ==> r == Failure(UserNotFound))
            && (id == "" ==> r == Failure(InvalidUserID))
            && PreviewAt(after.cache, id)
               == (if id in s.db.rows && env.db.NoFault? && env.write.Applies() then None else PreviewAt(s.cache, id))
            && OnlyPreviewOf(s.cache, after.cache, id)
            && after.requested == s.requested && after.projection == s.projection
  {
  }

  // ------------------------------------------------------------------- reads

  /** The URL of an avatar, as far as the file service tells it. */
  function UrlOf(files: Files, up: bool, avatarId: string): string {
    var id := TrimSpace(avatarId);
    if id == "" || !up then "" else match files(id) case Some(url) => url case None => ""
  }

  /** Availability is about the trimmed name, and both of its answers mean what they say. */
  lemma ExistsOutcome(db: Db, username: string, f: Fault)
    ensures var r := ExistsByUsername(db, username, f);
            && (r == Failure(InvalidUsername) <==> TrimSpace(username) == "")
            && (r.Success? <==> TrimSpace(username) != "" && f.NoFault?)
            && (r.Success? ==> (r.value <==> SomeRowHas(db.rows, TrimSpace(username))))
  {
  }

  /** A read of the table answers with every field of the row, and with its avatar URL. */
  lemma TableReadOutcome(s: Store, files: Files, userId: string, env: Env)
    requires Keyed(s.db.rows)
    ensures var r, id := GetUserPreviewByIDNoCache(s, files, userId, env), TrimSpace(userId);
            && (r.Success? <==> id in s.db.rows && env.db.NoFault?)
            && (r.Success? ==>
                  var row := s.db.rows[id];
                  r.value == User(id, row.username, "", row.firstName, row.lastName, row.avatarId,
                                  UrlOf(files, env.filesUp, row.avatarId), row.about, row.isActive, Some(row.status)))
            && (id == "" ==> r == Failure(InvalidUserID))
            && (env.db.NoFault? && IsUuid(id) && id !in s.db.rows ==> r == Failure(UserNotFound))
  {
    TrimSpaceFixes(if TrimSpace(userId) in s.db.rows then s.db.rows[TrimSpace(userId)].avatarId else "");
    if TrimSpace(userId) in s.db.rows { UuidIsTrimmed(TrimSpace(userId)); }
  }

  /** A blank id is refused before anything is asked. */
  lemma BlankReads(s: Store, files: Files, given: string, env: Env)
    requires TrimSpace(given) == ""
    ensures GetUserPreviewByID(s, files, given, env) == (s, Failure(InvalidUserID))
    ensures GetDetailedUserByUsername(s, files, given, env) == (s, Failure(InvalidUsername))
  {
  }

  /**
   * A read that finds a preview answers with its fields, and does not ask the table. If
   * the preview lacks the URL of its avatar and the file service has it, the URL is
   * answered and stored; otherwise nothing is stored.
   */
  lemma CachedReadOutcome(s: Store, files: Files, userId: string, env: Env, e: UserCache)
    requires TrimSpace(userId) != "" && env.cacheUp && e.id == TrimSpace(userId)
    requires PreviewAt(s.cache, TrimSpace(userId)) == Some(Document.Preview(e))
    ensures var (after, r) := GetUserPreviewByID(s, files, userId, env);
            var refills := TrimSpace(e.avatarUrl) == "" && TrimSpace(e.avatarId) != ""
                           && env.filesUp && files(TrimSpace(e.avatarId)).Some?;
            var url := if refills then UrlOf(files, true, e.avatarId) else e.avatarUrl;
            && r == Success(User(e.id, e.username, "", e.firstName, e.lastName, e.avatarId, url, "", e.isActive, None))
            && PreviewAt(after.cache, e.id)
               == Some(Document.Preview(if refills && env.write.Applies() then e.(avatarUrl := url) else e))
            && OnlyPreviewOf(s.cache, after.cache, e.id)
            && after.db == s.db && after.requested == s.requested && after.projection == s.projection
  {
  }

  /** A read that finds no preview answers as a read of the table does, if it can store what it found. */
  lemma MissedReadOutcome(s: Store, files: Files, userId: string, env: Env)
    requires Keyed(s.db.rows) && TrimSpace(userId) != ""
    requires !env.cacheUp || PreviewAt(s.cache, TrimSpace(userId)).None?
    ensures var (after, r) := GetUserPreviewByID(s, files, userId, env);
            var direct := GetUserPreviewByIDNoCache(s, files, userId, env);
            && r == (if direct.Success? && !env.write.NoFault? then Failure(CacheFailed) else direct)
            && PreviewAt(after.cache, TrimSpace(userId))
               == (if direct.Success? && env.write.Applies() then
                     var u := direct.value;
                     Some(Document.Preview(UserCache(u.id, u.username, u.firstName, u.lastName, u.avatarId, u.avatarUrl,
                                                     u.isActive)))
                   else PreviewAt(s.cache, TrimSpace(userId)))
            && OnlyPreviewOf(s.cache, after.cache, TrimSpace(userId))
            && after.db == s.db && after.requested == s.requested && after.projection == s.projection
  {
  }

  /** The user that the detailed lookup makes of a row: every field, the display name and the avatar URL. */
  lemma LookedUpUser(files: Files, up: bool, row: Row)
    ensures DetailedFromRow(files, up, row)
            == User(row.id, row.username, DisplayName(row.firstName, row.lastName), row.firstName, row.lastName,
                    row.avatarId, UrlOf(files, up, row.avatarId), row.about, row.isActive, Some(row.status))
  {
    TrimSpaceFixes(row.avatarId);
  }

  /**
   * A lookup that misses the cache and succeeds answers from the only row that has the
   * trimmed name, with the avatar URL that a table read of that row would answer; it
   * caches and publishes the same profile.
   */
  lemma MissedLookupOutcome(s: Store, files: Files, given: string, env: Env, id: string)
    requires Keyed(s.db.rows) && UniqueUsernames(s.db.rows) && ProfileAt(s.cache, TrimSpace(given)).None?
    requires TrimSpace(given) != "" && id in s.db.rows && s.db.rows[id].username == TrimSpace(given)
    ensures var (after, r) := GetDetailedUserByUsername(s, files, given, env);
            var row := s.db.rows[id];
            var name, url := DisplayName(row.firstName, row.lastName), UrlOf(files, env.filesUp, row.avatarId);
            && (r.Success? <==> env.db.NoFault? && env.write.NoFault?)
            && (r.Success? ==>
                  && r.value == User(id, row.username, name, row.firstName, row.lastName, row.avatarId, url, row.about,
                                     row.isActive, Some(row.status))
                  && r.value.avatarUrl
                     == GetUserPreviewByIDNoCache(s, files, id, env.(db := NoFault)).value.avatarUrl)
            && (env.db.NoFault? && env.write.Applies() ==>
                  ProfileAt(after.cache, row.username)
                  == Some(Document.Detailed(UserDetailedCache(id, row.username, name, row.avatarId, url, row.about))))
            && after.requested
               == (if r.Success? && env.publish.Applies()
                   then s.requested + [DetailedEvent(id, row.username, name, TrimSpace(row.avatarId), TrimSpace(url),
                                                     TrimSpace(row.about))]
                   else s.requested)
            && after.db == s.db && after.projection == s.projection
  {
    var row := s.db.rows[id];
    FindByUsernameIsFind(s.db, TrimSpace(given), id);
    LookedUpUser(files, env.filesUp, row);
    UuidIsTrimmed(id);
    TrimSpaceFixes(given);
    DisplayNameIsStable(row.firstName, row.lastName);
    ProfileAfterProfile(s.cache, DetailedFromRow(files, env.filesUp, row), env.write, row.username);
    TableReadOutcome(s, files, id, env.(db := NoFault));
  }

  /** A lookup that finds a profile answers with its fields and does nothing else. */
  lemma CachedLookupOutcome(s: Store, files: Files, given: string, env: Env, d: UserDetailedCache)
    requires TrimSpace(given) != "" && env.cacheUp
    requires ProfileAt(s.cache, TrimSpace(given)) == Some(Document.Detailed(d))
    ensures GetDetailedUserByUsername(s, files, given, env)
            == (s, Success(User(d.id, d.username, d.displayName, "", "", d.avatarId, d.avatarUrl, d.about, true, None)))
  {
  }

  /** A lookup without a cached profile and without a row of that name finds no one and does nothing. */
  lemma AbsentLookupOutcome(s: Store, files: Files, given: string, env: Env)
    requires TrimSpace(given) != "" && (!env.cacheUp || ProfileAt(s.cache, TrimSpace(given)).None?)
    requires !env.db.NoFault? || !SomeRowHas(s.db.rows, TrimSpace(given))
    ensures GetDetailedUserByUsername(s, files, given, env)
            == (s, Failure(if env.db.NoFault? then UserNotFound else FailedToFindUser))
  {
  }

  /** A projected event is stored with all its fields trimmed, under its trimmed username, or refused without one. */
  lemma ProjectionOutcome(c: Cache, e: DetailedEvent, f: Fault)
    ensures var (after, r), name := Project(c, e, f), TrimSpace(e.username);
            && (r == Failure(InvalidPayload) <==> name == "")
            && (r.Success? <==> name != "" && f.NoFault?)
            && (name == "" ==> after == c)
            && (name != "" && f.Applies() ==>
                  ProfileAt(after, name)
                  == Some(Document.Detailed(
                       UserDetailedCache(TrimSpace(e.userId), name, TrimSpace(e.displayName), TrimSpace(e.avatarId),
                                         TrimSpace(e.avatarUrl), TrimSpace(e.about)))))
            && (f.Lost? ==> after == c)
            && forall key :: key != UserDetailedCacheKey(name) ==>
                 (key in after <==> key in c) && (key in c ==> after[key] == c[key])
  {
    TrimSpaceFixes(e.displayName);
    DisplayNameIsStable("", "");
    TrimSpaceFixes("");
  }
}
