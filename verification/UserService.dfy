/**
 * The application service over the table and its read model. Each request is given
 * once as a function of the whole store and the faults it meets, and once as the
 * method that runs it on the repositories.
 */
module UserService {
  import opened Wrappers
  import opened Text
  import opened Domain
  import opened UserTable
  import opened ReadModel
  import opened DetailedUser

  /** The file service: which file ids have a public URL, and which. */
  type Files = string -> Option<string>

  datatype Store = Store(db: Db, cache: Cache, requested: seq<DetailedEvent>, projection: seq<DetailedEvent>)

  /** The clock and the fate of each outgoing call of one request. */
  datatype Env = Env(now: int, db: Fault, cacheUp: bool, write: Fault, filesUp: bool, publish: Fault)

  const RELIABLE := Env(0, NoFault, true, NoFault, true, NoFault)

  function GetFileURL(files: Files, up: bool, fileId: string): Option<string> {
    if up then files(TrimSpace(fileId)) else None
  }

  function WithFileURL(files: Files, up: bool, u: User): User {
    if Blank(u.avatarId) then u
    else
      match GetFileURL(files, up, TrimSpace(u.avatarId))
      case Some(url) => u.(avatarUrl := url)
      case None => u
  }

  // ---------------------------------------------------------------- requests

  function CreateUser(s: Store, p: CreateUserParams, env: Env): (Store, Result<User, Error>) {
    if p.id == "" then (s, Failure(InvalidUserID))
    else
      var (db, r) := CreateRow(s.db, p, env.now, env.db);
      match r
      case Failure(e) => (s.(db := db), Failure(e))
      case Success(row) => StorePreview(s.(db := db), RowToUser(row), env)
  }

  /** Upsert the preview and answer with the user it was made from. */
  function StorePreview(s: Store, u: User, env: Env): (Store, Result<User, Error>) {
    (s.(cache := Upsert(s.cache, u, env.write)), if env.write.NoFault? then Success(u) else Failure(CacheFailed))
  }

  /** Drop the preview of a row that was deleted or deactivated. */
  function DropPreview(s: Store, id: string, env: Env): (Store, Result<(), Error>) {
    (s.(cache := DeleteByID(s.cache, id, env.write)), if env.write.NoFault? then Success(()) else Failure(CacheFailed))
  }

  function DeleteUser(s: Store, id: string, env: Env): (Store, Result<(), Error>) {
    if id == "" then (s, Failure(InvalidUserID))
    else
      var (db, r) := DeleteRow(s.db, id, env.db);
      match r
      case Failure(e) => (s.(db := db), Failure(e))
      case Success(_) => DropPreview(s.(db := db), id, env)
  }

  function ActivateUser(s: Store, id: string, env: Env): (Store, Result<User, Error>) {
    if id == "" then (s, Failure(InvalidUserID))
    else
      var (db, r) := ActivateRow(s.db, id, env.now, env.db);
      match r
      case Failure(e) => (s.(db := db), Failure(e))
      case Success(row) => StorePreview(s.(db := db), RowToUser(row), env)
  }

  function DeactivateUser(s: Store, id: string, env: Env): (Store, Result<(), Error>) {
    if id == "" then (s, Failure(InvalidUserID))
    else
      var (db, r) := DeactivateRow(s.db, id, env.now, env.db);
      match r
      case Failure(e) => (s.(db := db), Failure(e))
      case Success(_) => DropPreview(s.(db := db), id, env)
  }

  function LoadUserPreview(db: Db, files: Files, id: string, env: Env): Result<User, Error> {
    match FindById(db, id, env.db)
    case Failure(e) => Failure(e)
    case Success(row) => Success(WithFileURL(files, env.filesUp, RowToUser(row)))
  }

  function GetUserPreviewByIDNoCache(s: Store, files: Files, userId: string, env: Env): Result<User, Error> {
    if Blank(userId) then Failure(InvalidUserID)
    else LoadUserPreview(s.db, files, TrimSpace(userId), env)
  }

  function ExistsByUsername(db: Db, username: string, f: Fault): Result<bool, Error> {
    if Blank(username) then Failure(InvalidUsername)
    else if !f.NoFault? then Failure(FailedToFindUser)
    else Success(UsernameTaken(db.rows, TrimSpace(username)))
  }

  /** A cached preview that has an avatar but no URL for it yet gets the URL, if it can be had. */
  function CachedWithFileURL(files: Files, up: bool, u: User): Option<User> {
    if Blank(u.avatarUrl) && !Blank(u.avatarId) then
      match GetFileURL(files, up, u.avatarId)
      case Some(url) => Some(u.(avatarUrl := url))
      case None => None
    else None
  }

  function GetUserPreviewByID(s: Store, files: Files, userId: string, env: Env): (Store, Result<User, Error>) {
    if Blank(userId) then (s, Failure(InvalidUserID))
    else
      match GetByID(s.cache, TrimSpace(userId), env.cacheUp)
      case Success(cached) =>
        (match CachedWithFileURL(files, env.filesUp, cached)
         case Some(u) => (StorePreview(s, u, env).0, Success(u))
         case None => (s, Success(cached)))
      case Failure(_) =>
        (match LoadUserPreview(s.db, files, TrimSpace(userId), env)
         case Failure(e) => (s, Failure(e))
         case Success(u) => StorePreview(s, u, env))
  }

  /** A row as the detailed lookup serves it. */
  function DetailedFromRow(files: Files, up: bool, row: Row): User {
    var u := WithFileURL(files, up, RowToUser(row));
    u.(displayName := DisplayName(u.firstName, u.lastName))
  }

  function Publish(topic: seq<DetailedEvent>, e: DetailedEvent, f: Fault): seq<DetailedEvent> {
    if f.Applies() then topic + [e] else topic
  }

  ghost function GetDetailedUserByUsername(s: Store, files: Files, name: string, env: Env): (Store, Result<User, Error>) {
    if Blank(name) then (s, Failure(InvalidUsername))
    else
      match GetByUsername(s.cache, TrimSpace(name), env.cacheUp)
      case Success(cached) => (s, Success(cached))
      case Failure(_) =>
        match FindByUsername(s.db, TrimSpace(name), env.db)
        case Failure(e) => (s, Failure(e))
        case Success(row) =>
          var u := DetailedFromRow(files, env.filesUp, row);
          var stored := s.(cache := UpsertByUsername(s.cache, u, env.write));
          if !env.write.NoFault? then (stored, Failure(CacheFailed))
          else (stored.(requested := Publish(s.requested, ToEvent(u), env.publish)), Success(u))
  }

  // ----------------------------------------------------------------- service

  class Service {
    const repo: PostgresRepository
    const readRepo: RedisRepository
    const files: Files
    var requested: seq<DetailedEvent>
    var projection: seq<DetailedEvent>

    ghost function State(): Store
      reads this, repo, readRepo
    {
      Store(repo.State(), readRepo.store, requested, projection)
    }

    ghost predicate Valid()
      reads this, repo
    {
      repo.Valid()
    }

    constructor (repo: PostgresRepository, readRepo: RedisRepository, files: Files)
      requires repo.Valid()
      ensures Valid() && this.repo == repo && this.readRepo == readRepo && this.files == files
      ensures State() == Store(repo.State(), readRepo.store, [], [])
    {
      this.repo, this.readRepo, this.files := repo, readRepo, files;
      requested, projection := [], [];
    }

    method Create(p: CreateUserParams, env: Env) returns (r: Result<User, Error>)
      requires Valid()
      modifies repo, readRepo
      ensures Valid() && (State(), r) == CreateUser(old(State()), p, env)
    {
      if p.id == "" {
        return Failure(InvalidUserID);
      }
      var row := repo.Create(p, env.now, env.db);
      if row.Failure? {
        return Failure(row.error);
      }
      var user := RowToUser(row.value);
      var ok := readRepo.Put(user, env.write);
      if !ok {
        return Failure(CacheFailed);
      }
      return Success(user);
    }

    method Delete(id: string, env: Env) returns (r: Result<(), Error>)
      requires Valid()
      modifies repo, readRepo
      ensures Valid() && (State(), r) == DeleteUser(old(State()), id, env)
    {
      if id == "" {
        return Failure(InvalidUserID);
      }
      var row := repo.DeleteByID(id, env.db);
      if row.Failure? {
        return Failure(row.error);
      }
      var ok := readRepo.DropByID(id, env.write);
      if !ok {
        return Failure(CacheFailed);
      }
      return Success(());
    }

    method Activate(id: string, env: Env) returns (r: Result<User, Error>)
      requires Valid()
      modifies repo, readRepo
      ensures Valid() && (State(), r) == ActivateUser(old(State()), id, env)
    {
      if id == "" {
        return Failure(InvalidUserID);
      }
      var row := repo.ActivateByID(id, env.now, env.db);
      if row.Failure? {
        return Failure(row.error);
      }
      var user := RowToUser(row.value);
      var ok := readRepo.Put(user, env.write);
      if !ok {
        return Failure(CacheFailed);
      }
      return Success(user);
    }

    method Deactivate(id: string, env: Env) returns (r: Result<(), Error>)
      requires Valid()
      modifies repo, readRepo
      ensures Valid() && (State(), r) == DeactivateUser(old(State()), id, env)
    {
      if id == "" {
        return Failure(InvalidUserID);
      }
      var row := repo.DeactivateByID(id, env.now, env.db);
      if row.Failure? {
        return Failure(row.error);
      }
      var ok := readRepo.DropByID(id, env.write);
      if !ok {
        return Failure(CacheFailed);
      }
      return Success(());
    }

    method Exists(username: string, env: Env) returns (r: Result<bool, Error>)
      ensures r == ExistsByUsername(repo.State(), username, env.db)
    {
      if TrimSpace(username) == "" {
        return Failure(InvalidUsername);
      }
      r := repo.ExistsByUsername(TrimSpace(username), env.db);
    }

    method Load(id: string, env: Env) returns (r: Result<User, Error>)
      ensures r == LoadUserPreview(repo.State(), files, id, env)
    {
      var row := repo.GetByID(id, env.db);
      if row.Failure? {
        return Failure(row.error);
      }
      var user := RowToUser(row.value);
      var avatarId := TrimSpace(user.avatarId);
      if avatarId != "" {
        var url := GetFileURL(files, env.filesUp, avatarId);
        if url.Some? {
          user := user.(avatarUrl := url.value);
        }
      }
      return Success(user);
    }

    method GetPreview(userId: string, env: Env) returns (r: Result<User, Error>)
      requires Valid()
      modifies readRepo
      ensures Valid() && (State(), r) == GetUserPreviewByID(old(State()), files, userId, env)
    {
      var id := TrimSpace(userId);
      if id == "" {
        return Failure(InvalidUserID);
      }
      var cached := readRepo.Get(id, env.cacheUp);
      if cached.Success? {
        var user := cached.value;
        if TrimSpace(user.avatarUrl) == "" && TrimSpace(user.avatarId) != "" {
          var url := GetFileURL(files, env.filesUp, user.avatarId);
          if url.Some? {
            user := user.(avatarUrl := url.value);
            var _ := readRepo.Put(user, env.write);
          }
        }
        return Success(user);
      }
      var loaded := Load(id, env);
      if loaded.Failure? {
        return loaded;
      }
      var ok := readRepo.Put(loaded.value, env.write);
      if !ok {
        return Failure(CacheFailed);
      }
      return loaded;
    }

    method GetDetailed(name: string, env: Env) returns (r: Result<User, Error>)
      requires Valid()
      modifies this`requested, readRepo
      ensures Valid() && (State(), r) == GetDetailedUserByUsername(old(State()), files, name, env)
    {
      var username := TrimSpace(name);
      if username == "" {
        return Failure(InvalidUsername);
      }
      var cached := readRepo.GetDetailed(username, env.cacheUp);
      if cached.Success? {
        return cached;
      }
      var row := repo.GetByUsername(username, env.db);
      if row.Failure? {
        return Failure(row.error);
      }
      var user := RowToUser(row.value);
      var avatarId := TrimSpace(user.avatarId);
      if avatarId != "" {
        var url := GetFileURL(files, env.filesUp, avatarId);
        if url.Some? {
          user := user.(avatarUrl := url.value);
        }
      }
      assert user == WithFileURL(files, env.filesUp, RowToUser(row.value));
      if user.displayName == "" {
        user := user.(displayName := DisplayName(user.firstName, user.lastName));
      }
      var ok := readRepo.PutByUsername(user, env.write);
      if !ok {
        return Failure(CacheFailed);
      }
      if env.publish.Applies() {
        requested := requested + [ToEvent(user)];
      }
      return Success(user);
    }

    /** The relay's handler: forward a requested event to the projection topic. */
    method Relay(e: DetailedEvent, env: Env) returns (ok: bool)
      modifies this`projection
      ensures State() == old(State()).(projection := Publish(old(projection), e, env.publish))
      ensures ok == env.publish.NoFault?
    {
      if env.publish.Applies() {
        projection := projection + [e];
      }
      ok := env.publish.NoFault?;
    }

    /** The projection subscriber's handler. */
    method ProjectDetailed(e: DetailedEvent, env: Env) returns (r: Result<User, Error>)
      modifies readRepo
      ensures State() == old(State()).(cache := Project(old(readRepo.store), e, env.write).0)
      ensures r == Project(old(readRepo.store), e, env.write).1
    {
      var user := FromEvent(e);
      if user.username == "" {
        return Failure(InvalidPayload);
      }
      var ok := readRepo.PutByUsername(user, env.write);
      if !ok {
        return Failure(CacheFailed);
      }
      return Success(user);
    }
  }
}
