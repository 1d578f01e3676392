/**
 * The detailed-user pipeline: the event a read publishes, and what the projection
 * subscriber makes of it.
 */
module DetailedUser {
  import opened Wrappers
  import opened Text
  import opened Domain
  import opened ReadModel

  datatype DetailedEvent = DetailedEvent(
    userId: string, username: string, displayName: string, avatarId: string, avatarUrl: string, about: string)

  function ToEvent(u: User): DetailedEvent {
    DetailedEvent(TrimSpace(u.id), TrimSpace(u.username), TrimSpace(u.displayName),
                  TrimSpace(u.avatarId), TrimSpace(u.avatarUrl), TrimSpace(u.about))
  }

  function FromEvent(e: DetailedEvent): User {
    User(TrimSpace(e.userId), TrimSpace(e.username), TrimSpace(e.displayName), "", "",
         TrimSpace(e.avatarId), TrimSpace(e.avatarUrl), TrimSpace(e.about), false, None)
  }

  /** The projection subscriber's handler; without a username it refuses the event. */
  function Project(c: Cache, e: DetailedEvent, f: Fault): (Cache, Result<User, Error>) {
    var u := FromEvent(e);
    if u.username == "" then (c, Failure(InvalidPayload))
    else (UpsertByUsername(c, u, f), if f.NoFault? then Success(u) else Failure(CacheFailed))
  }

  predicate TrimmedEvent(e: DetailedEvent) {
    && Trimmed(e.userId) && Trimmed(e.username) && Trimmed(e.displayName)
    && Trimmed(e.avatarId) && Trimmed(e.avatarUrl) && Trimmed(e.about)
  }

  lemma ToEventTrims(u: User)
    ensures TrimmedEvent(ToEvent(u))
  {
    TrimSpaceFixes(u.id); TrimSpaceFixes(u.username); TrimSpaceFixes(u.displayName);
    TrimSpaceFixes(u.avatarId); TrimSpaceFixes(u.avatarUrl); TrimSpaceFixes(u.about);
  }

  lemma FromTrimmedEvent(e: DetailedEvent)
    requires TrimmedEvent(e)
    ensures FromEvent(e)
            == User(e.userId, e.username, e.displayName, "", "", e.avatarId, e.avatarUrl, e.about, false, None)
    ensures ToEvent(FromEvent(e)) == e
  {
    TrimSpaceFixes(e.userId); TrimSpaceFixes(e.username); TrimSpaceFixes(e.displayName);
    TrimSpaceFixes(e.avatarId); TrimSpaceFixes(e.avatarUrl); TrimSpaceFixes(e.about);
  }

  /** The document that projecting a trimmed event stores holds the event's fields unchanged. */
  lemma ProjectedDocument(e: DetailedEvent)
    requires TrimmedEvent(e)
    ensures MapDomainUserToDetailedCache(FromEvent(e))
            == UserDetailedCache(e.userId, e.username, e.displayName, e.avatarId, e.avatarUrl, e.about)
  {
    FromTrimmedEvent(e);
    TrimSpaceFixes(e.displayName);
    DisplayNameIsStable("", "");
    TrimSpaceFixes("");
  }

  /**
   * Publish, project, read back and publish again: for every user with a username the
   * second event is the first, and for every other user the projection refuses.
   */
  lemma ProjectionRoundTrip(c: Cache, u: User)
    ensures Blank(u.username) <==> Project(c, ToEvent(u), NoFault).1.Failure?
    ensures !Blank(u.username) ==>
              var projected := Project(c, ToEvent(u), NoFault).0;
              var read := GetByUsername(projected, TrimSpace(u.username), true);
              read.Success? && ToEvent(read.value) == ToEvent(u)
  {
    var e := ToEvent(u);
    ToEventTrims(u);
    FromTrimmedEvent(e);
    ProjectedDocument(e);
    if !Blank(u.username) {
      var back := MapDetailedCacheToDomainUser(MapDomainUserToDetailedCache(FromEvent(e)));
      assert ToEvent(back) == ToEvent(FromEvent(e));
    }
  }

  /** The cache after a sequence of deliveries, each with its fault. */
  function ProjectAll(c: Cache, es: seq<(DetailedEvent, Fault)>): Cache {
    if es == [] then c
    else
      var (e, f) := es[|es| - 1];
      Project(ProjectAll(c, es[..|es| - 1]), e, f).0
  }

  /** The cache holds what this event stores. */
  predicate HoldsProjection(c: Cache, e: DetailedEvent) {
    var u := FromEvent(e);
    var key := UserDetailedCacheKey(u.username);
    u.username == "" || (key in c && c[key] == Detailed(MapDomainUserToDetailedCache(u)))
  }

  lemma HeldAfterProjection(c: Cache, e: DetailedEvent, f: Fault)
    ensures f.Applies() ==> HoldsProjection(Project(c, e, f).0, e)
    ensures HoldsProjection(c, e) ==> Project(c, e, f).0 == c
  {
    var key := UserDetailedCacheKey(FromEvent(e).username);
    assert HoldsProjection(c, e) && key in c ==> c[key := c[key]] == c;
  }

  lemma {:induction false} ProjectionIsHeld(c: Cache, e: DetailedEvent, es: seq<(DetailedEvent, Fault)>)
    requires HoldsProjection(c, e)
    requires forall i :: 0 <= i < |es| ==>
               FromEvent(es[i].0) == FromEvent(e) || TrimSpace(es[i].0.username) != TrimSpace(e.username)
    ensures HoldsProjection(ProjectAll(c, es), e)
  {
    if es != [] {
      ProjectionIsHeld(c, e, es[..|es| - 1]);
      AllKeysAreDistinct();
    }
  }

  /**
   * Delivering an event again changes nothing, however often it came and however many
   * events of other users came between, whichever of them failed.
   */
  lemma ProjectionIsIdempotent(c: Cache, e: DetailedEvent, es: seq<(DetailedEvent, Fault)>, f: Fault)
    requires forall i :: 0 <= i < |es| ==>
               FromEvent(es[i].0) == FromEvent(e) || TrimSpace(es[i].0.username) != TrimSpace(e.username)
    ensures var later := ProjectAll(Project(c, e, NoFault).0, es);
            Project(later, e, f).0 == later
  {
    HeldAfterProjection(c, e, NoFault);
    ProjectionIsHeld(Project(c, e, NoFault).0, e, es);
    HeldAfterProjection(ProjectAll(Project(c, e, NoFault).0, es), e, f);
  }

  /**
   * The event published for a user who was just cached overwrites that user's own
   * document, and leaves it as it was exactly when its fields needed no trimming.
   */
  lemma ProjectionKeepsServedDocument(c: Cache, u: User)
    requires u.username != "" && Trimmed(u.username) && Trimmed(u.id)
    requires u.displayName == DisplayName(u.firstName, u.lastName)
    ensures var served := UpsertByUsername(c, u, NoFault);
            Project(served, ToEvent(u), NoFault).0 == served
            <==> Trimmed(u.avatarId) && Trimmed(u.avatarUrl) && Trimmed(u.about)
  {
    var served := UpsertByUsername(c, u, NoFault);
    var e := ToEvent(u);
    ToEventTrims(u);
    FromTrimmedEvent(e);
    ProjectedDocument(e);
    DisplayNameIsStable(u.firstName, u.lastName);
    TrimSpaceFixes(u.username); TrimSpaceFixes(u.id);
    TrimSpaceFixes(u.avatarId); TrimSpaceFixes(u.avatarUrl); TrimSpaceFixes(u.about);
    var key := UserDetailedCacheKey(u.username);
    var after := Project(served, e, NoFault).0;
    assert after == served[key := Detailed(MapDomainUserToDetailedCache(FromEvent(e)))];
    assert after == served <==> after[key] == served[key];
  }
}
