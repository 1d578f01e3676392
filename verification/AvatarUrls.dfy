/**
 * Avatar URLs when requests overlap: whichever path wrote a preview or a detailed profile,
 * whenever, and whatever became of its row meanwhile, its URL is empty or that of its
 * avatar id. Profiles that went through a topic have both trimmed.
 */
module AvatarUrls {
  import opened Wrappers
  import opened Text
  import opened Domain
  import opened UserTable
  import opened ReadModel
  import opened DetailedUser
  import opened UserService
  import opened CacheAgreement
  import opened Interleaving
  import opened OverlapAgreement

  predicate WriterIsGenuine(procs: map<nat, Proc>, files: Files, pid: nat) {
    IsWriter(procs, pid) ==> GenuineUser(files, Pending(procs[pid]).value)
  }

  /** All cached URLs are genuine, and so are those that are about to be stored. */
  ghost predicate AllGenuine(sys: Sys, files: Files) {
    UrlsAreGenuine(sys.store.cache, files) && forall pid :: WriterIsGenuine(sys.procs, files, pid)
  }

  lemma AdvanceStaysGenuine(sys: Sys, files: Files, pid: nat, f: Fault, filesUp: bool)
    requires AllGenuine(sys, files) && pid in sys.procs
    ensures AllGenuine(AdvanceProc(sys, files, pid, f, filesUp), files)
  {
    var after, p := AdvanceProc(sys, files, pid, f, filesUp), sys.procs[pid];
    assert WriterIsGenuine(sys.procs, files, pid);
    forall id ensures UrlIsGenuine(files, PreviewAt(after.store.cache, id)) {
      assert UrlIsGenuine(files, PreviewAt(sys.store.cache, id));
      AdvanceChangesPreview(sys, files, pid, f, filesUp, id);
    }
    forall other ensures WriterIsGenuine(after.procs, files, other) {
      assert WriterIsGenuine(sys.procs, files, other);
      if other == pid && p.LoadPreviewNext? && FindById(sys.store.db, p.id, f).Success? {
        LoadedUserIsGenuine(files, filesUp, sys.store.db.rows[p.id]);
      }
    }
  }

  lemma BeginStaysGenuine(sys: Sys, files: Files, a: Action)
    requires AllGenuine(sys, files) && Enabled(sys, a) && !a.Advance?
    ensures AllGenuine(Step(sys, files, a), files)
  {
    var after := Step(sys, files, a);
    BeginKeepsCache(sys, files, a);
    forall other ensures WriterIsGenuine(after.procs, files, other) {
      assert WriterIsGenuine(sys.procs, files, other);
      if other == a.pid && a.BeginCall? && a.p.id != "" {
        var done := ChangeRow(sys.store.db, a.kind, a.p, a.now, a.f).1;
        if done.Success? { LoadedUserIsGenuine(files, false, done.value); }
      } else if other == a.pid && a.BeginPreview? && Refills(sys.store, files, a) {
        assert UrlIsGenuine(files, PreviewAt(sys.store.cache, TrimSpace(a.userId)));
        RefilledUserIsGenuine(files, a.filesUp, GetByID(sys.store.cache, TrimSpace(a.userId), a.cacheUp).value);
      }
    }
  }

  /** Over every run of overlapping requests from an empty cache, with any faults, no cached URL is wrong. */
  lemma {:induction false} UrlsAreGenuineUnderOverlap(from: Sys, files: Files, trace: seq<Action>, to: Sys)
    requires AllGenuine(from, files) && Leads(from, files, trace, to)
    ensures AllGenuine(to, files)
    decreases |trace|
  {
    if trace != [] {
      if trace[0].Advance? {
        AdvanceStaysGenuine(from, files, trace[0].pid, trace[0].f, trace[0].filesUp);
      } else {
        BeginStaysGenuine(from, files, trace[0]);
      }
      UrlsAreGenuineUnderOverlap(Step(from, files, trace[0]), files, trace[1..], to);
    }
  }

  /** So it is from the start: with nothing cached and no request open, everything that is ever cached is genuine. */
  lemma CachedUrlsAreGenuine(start: Sys, files: Files, trace: seq<Action>, end: Sys)
    requires start.store.cache == map[] && start.procs == map[] && Leads(start, files, trace, end)
    ensures UrlsAreGenuine(end.store.cache, files)
  {
    UrlsAreGenuineUnderOverlap(start, files, trace, end);
  }

  // -------------------------------------------------------- detailed profiles

  /** The URL is empty or that of the avatar id, up to the space around both. */
  predicate Trustworthy(files: Files, avatarId: string, url: string) {
    || url == ""
    || (&& !Blank(avatarId) && files(TrimSpace(avatarId)).Some?
        && TrimSpace(url) == TrimSpace(files(TrimSpace(avatarId)).value))
  }

  predicate ProfileIsTrustworthy(files: Files, d: Option<Document>) {
    d.Some? ==> d.value.Detailed? && Trustworthy(files, d.value.detailed.avatarId, d.value.detailed.avatarUrl)
  }

  predicate EventIsTrustworthy(files: Files, e: DetailedEvent) {
    Trustworthy(files, e.avatarId, e.avatarUrl)
  }

  ghost predicate TopicIsTrustworthy(files: Files, topic: seq<DetailedEvent>) {
    forall i :: 0 <= i < |topic| ==> EventIsTrustworthy(files, topic[i])
  }

  /** What the request is about to store or to publish. */
  predicate ProcIsTrustworthy(files: Files, p: Proc) {
    match p
    case StoreDetailedNext(u) => Trustworthy(files, u.avatarId, u.avatarUrl)
    case PublishDetailedNext(u) => Trustworthy(files, u.avatarId, u.avatarUrl)
    case ForwardNext(e) => EventIsTrustworthy(files, e)
    case ProjectNext(e) => EventIsTrustworthy(files, e)
    case _ => true
  }

  ghost predicate AllTrustworthy(sys: Sys, files: Files) {
    && (forall name :: ProfileIsTrustworthy(files, ProfileAt(sys.store.cache, name)))
    && TopicIsTrustworthy(files, sys.store.requested) && TopicIsTrustworthy(files, sys.store.projection)
    && forall pid :: pid in sys.procs ==> ProcIsTrustworthy(files, sys.procs[pid])
  }

  lemma TrimmingKeepsTrust(files: Files, avatarId: string, url: string)
    requires Trustworthy(files, avatarId, url)
    ensures Trustworthy(files, TrimSpace(avatarId), TrimSpace(url))
  {
    TrimSpaceFixes(avatarId);
    TrimSpaceFixes(url);
    TrimSpaceFixes("");
  }

  lemma LookedUpUserIsTrustworthy(files: Files, up: bool, row: Row)
    ensures var u := DetailedFromRow(files, up, row); Trustworthy(files, u.avatarId, u.avatarUrl)
  {
    TrimSpaceFixes(row.avatarId);
  }

  lemma PreviewWritesKeepProfiles(sys: Sys, files: Files, pid: nat, f: Fault, filesUp: bool, name: string)
    requires pid in sys.procs && !sys.procs[pid].StoreDetailedNext? && !sys.procs[pid].ProjectNext?
    ensures ProfileAt(AdvanceProc(sys, files, pid, f, filesUp).store.cache, name) == ProfileAt(sys.store.cache, name)
  {
    var p := sys.procs[pid];
    if p.DropPreviewNext? {
      KeysAreDistinct(p.id, name);
    } else if Pending(p).Some? {
      KeysAreDistinct(Pending(p).value.id, name);
    } else {
      OtherAdvanceKeepsCache(sys, files, pid, f, filesUp);
    }
  }

  lemma CacheStaysTrustworthy(sys: Sys, files: Files, pid: nat, f: Fault, filesUp: bool, name: string)
    requires AllTrustworthy(sys, files) && pid in sys.procs
    ensures ProfileIsTrustworthy(files, ProfileAt(AdvanceProc(sys, files, pid, f, filesUp).store.cache, name))
  {
    assert ProfileIsTrustworthy(files, ProfileAt(sys.store.cache, name));
    assert ProcIsTrustworthy(files, sys.procs[pid]);
    match sys.procs[pid]
    case StoreDetailedNext(u) => ProfileAfterProfile(sys.store.cache, u, f, name);
    case ProjectNext(e) =>
      TrimmingKeepsTrust(files, e.avatarId, e.avatarUrl);
      ProfileAfterProfile(sys.store.cache, FromEvent(e), f, name);
    case _ => PreviewWritesKeepProfiles(sys, files, pid, f, filesUp, name);
  }

  lemma TopicsStayTrustworthy(sys: Sys, files: Files, pid: nat, f: Fault, filesUp: bool)
    requires AllTrustworthy(sys, files) && pid in sys.procs
    ensures var s := AdvanceProc(sys, files, pid, f, filesUp).store;
            TopicIsTrustworthy(files, s.requested) && TopicIsTrustworthy(files, s.projection)
  {
    assert ProcIsTrustworthy(files, sys.procs[pid]);
    if sys.procs[pid].PublishDetailedNext? {
      TrimmingKeepsTrust(files, sys.procs[pid].u.avatarId, sys.procs[pid].u.avatarUrl);
    }
  }

  lemma ProcsStayTrustworthy(sys: Sys, files: Files, pid: nat, f: Fault, filesUp: bool, other: nat)
    requires AllTrustworthy(sys, files) && pid in sys.procs
    requires other in AdvanceProc(sys, files, pid, f, filesUp).procs
    ensures ProcIsTrustworthy(files, AdvanceProc(sys, files, pid, f, filesUp).procs[other])
  {
    assert ProcIsTrustworthy(files, sys.procs[pid]);
    if other != pid { assert ProcIsTrustworthy(files, sys.procs[other]); }
    if sys.procs[pid].LoadDetailedNext? {
      var found := FindByUsername(sys.store.db, sys.procs[pid].username, f);
      if found.Success? { LookedUpUserIsTrustworthy(files, filesUp, found.value); }
    }
  }

  lemma StepStaysTrustworthy(sys: Sys, files: Files, a: Action)
    requires AllTrustworthy(sys, files) && Enabled(sys, a)
    ensures AllTrustworthy(Step(sys, files, a), files)
  {
    var after := Step(sys, files, a);
    if a.Advance? {
      forall name ensures ProfileIsTrustworthy(files, ProfileAt(after.store.cache, name)) {
        CacheStaysTrustworthy(sys, files, a.pid, a.f, a.filesUp, name);
      }
      TopicsStayTrustworthy(sys, files, a.pid, a.f, a.filesUp);
      forall other | other in after.procs ensures ProcIsTrustworthy(files, after.procs[other]) {
        ProcsStayTrustworthy(sys, files, a.pid, a.f, a.filesUp, other);
      }
    } else {
      BeginKeepsCache(sys, files, a);
      forall other | other in after.procs ensures ProcIsTrustworthy(files, after.procs[other]) {
        assert other in sys.procs ==> ProcIsTrustworthy(files, sys.procs[other]);
      }
    }
  }

  /** Trust lasts over every run. */
  lemma {:induction false} ProfileUrlsAreGenuine(from: Sys, files: Files, trace: seq<Action>, to: Sys)
    requires AllTrustworthy(from, files) && Leads(from, files, trace, to)
    ensures AllTrustworthy(to, files)
    decreases |trace|
  {
    if trace != [] {
      StepStaysTrustworthy(from, files, trace[0]);
      ProfileUrlsAreGenuine(Step(from, files, trace[0]), files, trace[1..], to);
    }
  }

  /**
   * Over every run of overlapping requests, relays and projections from empty caches and
   * topics, with any faults, the URL of every cached profile and of every event is empty
   * or that of its avatar id, up to the space around them.
   */
  lemma CachedProfileUrlsAreGenuine(start: Sys, files: Files, trace: seq<Action>, end: Sys)
    requires start.store.cache == map[] && start.store.requested == [] && start.store.projection == []
    requires start.procs == map[] && Leads(start, files, trace, end)
    ensures forall name :: ProfileIsTrustworthy(files, ProfileAt(end.store.cache, name))
    ensures TopicIsTrustworthy(files, end.store.requested) && TopicIsTrustworthy(files, end.store.projection)
  {
    ProfileUrlsAreGenuine(start, files, trace, end);
  }
}
