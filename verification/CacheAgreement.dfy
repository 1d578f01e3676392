/**
 * What it means for a cached document to agree with the table, and what each cache
 * operation does to the document of one user.
 */
module CacheAgreement {
  import opened Wrappers
  import opened Text
  import opened Domain
  import opened UserTable
  import opened ReadModel
  import opened UserService

  function PreviewAt(c: Cache, id: string): Option<Document> {
    var key := UserPreviewCacheKey(id);
    if key in c then Some(c[key]) else None
  }

  function ProfileAt(c: Cache, name: string): Option<Document> {
    var key := UserDetailedCacheKey(name);
    if key in c then Some(c[key]) else None
  }

  function RowAt(db: Db, id: string): Option<Row> {
    if id in db.rows then Some(db.rows[id]) else None
  }

  // ---------------------------------------------------------------- previews

  predicate SameProfile(e: UserCache, row: Row) {
    && e.id == row.id && e.username == row.username
    && e.firstName == row.firstName && e.lastName == row.lastName && e.avatarId == row.avatarId
  }

  /** The user is as the row has it, so that its preview would describe the row. */
  predicate Fits(u: User, row: Option<Row>) {
    row.Some? && SameProfile(MapDomainUserToCache(u), row.value)
  }

  predicate Describes(d: Option<Document>, row: Option<Row>) {
    d.Some? ==> d.value.Preview? && row.Some? && SameProfile(d.value.preview, row.value)
  }

  predicate SameActivity(d: Option<Document>, row: Option<Row>) {
    d.Some? && d.value.Preview? && row.Some? ==> d.value.preview.isActive == row.value.isActive
  }

  /** Every preview describes the row of its key. */
  ghost predicate Agrees(s: Store) {
    forall id :: Describes(PreviewAt(s.cache, id), RowAt(s.db, id))
  }

  ghost predicate ActivityAgrees(s: Store) {
    forall id :: SameActivity(PreviewAt(s.cache, id), RowAt(s.db, id))
  }

  // -------------------------------------------------------------- avatar URLs

  /** The URL is empty or the file service's URL for the trimmed avatar id. */
  predicate Genuine(files: Files, avatarId: string, url: string) {
    url == "" || (!Blank(avatarId) && files(TrimSpace(avatarId)) == Some(url))
  }

  predicate GenuineUser(files: Files, u: User) {
    Genuine(files, u.avatarId, u.avatarUrl)
  }

  predicate UrlIsGenuine(files: Files, d: Option<Document>) {
    d.Some? ==> d.value.Preview? && Genuine(files, d.value.preview.avatarId, d.value.preview.avatarUrl)
  }

  ghost predicate UrlsAreGenuine(c: Cache, files: Files) {
    forall id :: UrlIsGenuine(files, PreviewAt(c, id))
  }

  lemma LoadedUserIsGenuine(files: Files, up: bool, row: Row)
    ensures GenuineUser(files, RowToUser(row))
    ensures GenuineUser(files, WithFileURL(files, up, RowToUser(row)))
  {
    TrimSpaceFixes(row.avatarId);
  }

  lemma RefilledUserIsGenuine(files: Files, up: bool, u: User)
    requires GenuineUser(files, u)
    ensures var filled := CachedWithFileURL(files, up, u);
            filled.Some? ==> GenuineUser(files, filled.value)
  {
    TrimSpaceFixes(u.avatarId);
  }

  // -------------------------------------------------------- detailed profiles

  /** Agreement of a detailed profile with a row, up to the space around avatar id and about text. */
  predicate ShowsProfile(d: UserDetailedCache, row: Row) {
    && d.id == row.id && Trimmed(row.id)
    && d.username == row.username && Trimmed(row.username)
    && d.displayName == DisplayName(row.firstName, row.lastName)
    && TrimSpace(d.avatarId) == TrimSpace(row.avatarId)
    && TrimSpace(d.about) == TrimSpace(row.about)
  }

  lemma LookedUpUserShowsRow(files: Files, up: bool, row: Row)
    requires IsUuid(row.id) && Trimmed(row.username)
    ensures ShowsProfile(MapDomainUserToDetailedCache(DetailedFromRow(files, up, row)), row)
  {
    DisplayNameIsStable(row.firstName, row.lastName);
    UuidIsTrimmed(row.id);
    TrimSpaceFixes(row.id);
  }

  // ------------------------------------------- what each operation does to one

  lemma PreviewAfterUpsert(c: Cache, u: User, f: Fault, id: string)
    ensures PreviewAt(Upsert(c, u, f), id)
            == if f.Applies() && id == u.id then Some(Preview(MapDomainUserToCache(u))) else PreviewAt(c, id)
  {
    KeysAreDistinct(id, u.id);
  }

  lemma PreviewAfterDrop(c: Cache, dropped: string, f: Fault, id: string)
    ensures PreviewAt(DeleteByID(c, dropped, f), id)
            == if f.Applies() && id == dropped then None else PreviewAt(c, id)
  {
    KeysAreDistinct(id, dropped);
  }

  lemma PreviewAfterProfile(c: Cache, u: User, f: Fault, id: string)
    ensures PreviewAt(UpsertByUsername(c, u, f), id) == PreviewAt(c, id)
  {
    KeysAreDistinct(id, u.username);
  }

  lemma ProfileAfterProfile(c: Cache, u: User, f: Fault, name: string)
    ensures ProfileAt(UpsertByUsername(c, u, f), name)
            == if f.Applies() && name == u.username then Some(Detailed(MapDomainUserToDetailedCache(u)))
               else ProfileAt(c, name)
  {
    KeysAreDistinct(name, u.username);
  }

  lemma GenuineUrlsStay(c: Cache, files: Files, u: User, id: string, f: Fault)
    requires UrlsAreGenuine(c, files)
    ensures GenuineUser(files, u) ==> UrlsAreGenuine(Upsert(c, u, f), files)
    ensures UrlsAreGenuine(DeleteByID(c, id, f), files)
    ensures UrlsAreGenuine(UpsertByUsername(c, u, f), files)
  {
    forall k
      ensures GenuineUser(files, u) ==> UrlIsGenuine(files, PreviewAt(Upsert(c, u, f), k))
      ensures UrlIsGenuine(files, PreviewAt(DeleteByID(c, id, f), k))
      ensures UrlIsGenuine(files, PreviewAt(UpsertByUsername(c, u, f), k))
    {
      assert UrlIsGenuine(files, PreviewAt(c, k));
      PreviewAfterUpsert(c, u, f, k);
      PreviewAfterDrop(c, id, f, k);
      PreviewAfterProfile(c, u, f, k);
    }
  }
}
