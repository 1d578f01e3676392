/**
 * The Redis read model: two kinds of document in one keyed store, the preview by user
 * id and the detailed profile by username, and their maps to and from the domain user.
 */
module ReadModel {
  import opened Wrappers
  import opened Text
  import opened Domain

  datatype UserCache = UserCache(
    id: string, username: string, firstName: string, lastName: string,
    avatarId: string, avatarUrl: string, isActive: bool)

  datatype UserDetailedCache = UserDetailedCache(
    id: string, username: string, displayName: string, avatarId: string, avatarUrl: string, about: string)

  datatype Document = Preview(preview: UserCache) | Detailed(detailed: UserDetailedCache)

  type Cache = map<string, Document>

  // ----------------------------------------------------------------- mapping

  function MapDomainUserToCache(u: User): UserCache {
    UserCache(u.id, u.username, u.firstName, u.lastName, u.avatarId, u.avatarUrl, u.isActive)
  }

  function MapCacheToDomainUser(c: UserCache): User {
    User(c.id, c.username, "", c.firstName, c.lastName, c.avatarId, c.avatarUrl, "", c.isActive, None)
  }

  function MapDomainUserToDetailedCache(u: User): UserDetailedCache {
    var given := TrimSpace(u.displayName);
    var displayName := if given == "" then DisplayName(u.firstName, u.lastName) else given;
    UserDetailedCache(u.id, u.username, displayName, u.avatarId, u.avatarUrl, u.about)
  }

  function MapDetailedCacheToDomainUser(c: UserDetailedCache): User {
    User(c.id, c.username, c.displayName, "", "", c.avatarId, c.avatarUrl, c.about, true, None)
  }

  /**
   * Decoding a stored document as a preview. The JSON decoder fills the fields the
   * document has and leaves the others at their zero values.
   */
  function AsPreview(d: Document): UserCache {
    match d
    case Preview(c) => c
    case Detailed(c) => UserCache(c.id, c.username, "", "", c.avatarId, c.avatarUrl, false)
  }

  function AsDetailed(d: Document): UserDetailedCache {
    match d
    case Preview(c) => UserDetailedCache(c.id, c.username, "", c.avatarId, c.avatarUrl, "")
    case Detailed(c) => c
  }

  // -------------------------------------------------------------------- keys

  const PREVIEW_PREFIX := "user:preview:"
  const DETAILED_PREFIX := "user:detailed:"

  function UserPreviewCacheKey(id: string): string {
    PREVIEW_PREFIX + id
  }

  function UserDetailedCacheKey(username: string): string {
    DETAILED_PREFIX + username
  }

  /** Keys name one document: no two ids or usernames share a key, nor do the two kinds. */
  lemma KeysAreDistinct(a: string, b: string)
    ensures UserPreviewCacheKey(a) == UserPreviewCacheKey(b) <==> a == b
    ensures UserDetailedCacheKey(a) == UserDetailedCacheKey(b) <==> a == b
    ensures UserPreviewCacheKey(a) != UserDetailedCacheKey(b)
  {
    assert UserPreviewCacheKey(a)[|PREVIEW_PREFIX|..] == a && UserPreviewCacheKey(b)[|PREVIEW_PREFIX|..] == b;
    assert UserDetailedCacheKey(a)[|DETAILED_PREFIX|..] == a && UserDetailedCacheKey(b)[|DETAILED_PREFIX|..] == b;
    assert UserPreviewCacheKey(a)[5] == 'p' && UserDetailedCacheKey(b)[5] == 'd';
  }

  lemma AllKeysAreDistinct()
    ensures forall a, b {:trigger UserPreviewCacheKey(a), UserPreviewCacheKey(b)} ::
              UserPreviewCacheKey(a) == UserPreviewCacheKey(b) ==> a == b
    ensures forall a, b {:trigger UserDetailedCacheKey(a), UserDetailedCacheKey(b)} ::
              UserDetailedCacheKey(a) == UserDetailedCacheKey(b) ==> a == b
    ensures forall a, b {:trigger UserPreviewCacheKey(a), UserDetailedCacheKey(b)} ::
              UserPreviewCacheKey(a) != UserDetailedCacheKey(b)
  {
    forall a, b ensures UserPreviewCacheKey(a) == UserPreviewCacheKey(b) ==> a == b { KeysAreDistinct(a, b); }
    forall a, b ensures UserDetailedCacheKey(a) == UserDetailedCacheKey(b) ==> a == b { KeysAreDistinct(a, b); }
    forall a, b ensures UserPreviewCacheKey(a) != UserDetailedCacheKey(b) { KeysAreDistinct(a, b); }
  }

  // -------------------------------------------------------------- operations

  function Set(c: Cache, key: string, d: Document, f: Fault): Cache {
    if f.Applies() then c[key := d] else c
  }

  function Del(c: Cache, key: string, f: Fault): Cache {
    if f.Applies() then c - {key} else c
  }

  function Upsert(c: Cache, u: User, f: Fault): Cache {
    Set(c, UserPreviewCacheKey(u.id), Preview(MapDomainUserToCache(u)), f)
  }

  function UpsertByUsername(c: Cache, u: User, f: Fault): Cache {
    Set(c, UserDetailedCacheKey(u.username), Detailed(MapDomainUserToDetailedCache(u)), f)
  }

  function DeleteByID(c: Cache, id: string, f: Fault): Cache {
    Del(c, UserPreviewCacheKey(id), f)
  }

  function GetByID(c: Cache, id: string, up: bool): Result<User, Error> {
    if !up then Failure(CacheFailed)
    else if UserPreviewCacheKey(id) !in c then Failure(UserNotFound)
    else Success(MapCacheToDomainUser(AsPreview(c[UserPreviewCacheKey(id)])))
  }

  function GetByUsername(c: Cache, username: string, up: bool): Result<User, Error> {
    if !up then Failure(CacheFailed)
    else if UserDetailedCacheKey(username) !in c then Failure(UserNotFound)
    else Success(MapDetailedCacheToDomainUser(AsDetailed(c[UserDetailedCacheKey(username)])))
  }

  class RedisRepository {
    var store: Cache

    constructor ()
      ensures store == map[]
    {
      store := map[];
    }

    method Put(u: User, f: Fault) returns (ok: bool)
      modifies this
      ensures store == Upsert(old(store), u, f) && ok == f.NoFault?
    {
      var document := Preview(MapDomainUserToCache(u));
      if f.Applies() {
        store := store[UserPreviewCacheKey(u.id) := document];
      }
      ok := f.NoFault?;
    }

    method PutByUsername(u: User, f: Fault) returns (ok: bool)
      modifies this
      ensures store == UpsertByUsername(old(store), u, f) && ok == f.NoFault?
    {
      var document := Detailed(MapDomainUserToDetailedCache(u));
      if f.Applies() {
        store := store[UserDetailedCacheKey(u.username) := document];
      }
      ok := f.NoFault?;
    }

    method DropByID(id: string, f: Fault) returns (ok: bool)
      modifies this
      ensures store == DeleteByID(old(store), id, f) && ok == f.NoFault?
    {
      if f.Applies() {
        store := store - {UserPreviewCacheKey(id)};
      }
      ok := f.NoFault?;
    }

    method Get(id: string, up: bool) returns (r: Result<User, Error>)
      ensures r == GetByID(store, id, up)
    {
      var key := UserPreviewCacheKey(id);
      if !up {
        return Failure(CacheFailed);
      }
      if key !in store {
        return Failure(UserNotFound);
      }
      return Success(MapCacheToDomainUser(AsPreview(store[key])));
    }

    method GetDetailed(username: string, up: bool) returns (r: Result<User, Error>)
      ensures r == GetByUsername(store, username, up)
    {
      var key := UserDetailedCacheKey(username);
      if !up {
        return Failure(CacheFailed);
      }
      if key !in store {
        return Failure(UserNotFound);
      }
      return Success(MapDetailedCacheToDomainUser(AsDetailed(store[key])));
    }
  }
}
