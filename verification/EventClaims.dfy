/**
 * What the claim table buys: no event is handled twice at once, none is handled
 * successfully twice, and no claim outlives its work unless a named failure left it behind.
 */
module EventClaims {
  import opened Domain
  import opened KafkaConsumers

  /** The consumer owns the claim on the event it works on, and has not succeeded with it. */
  predicate OwnsClaim(p: Phase) {
    p.Unwrapping? || p.Handling? || p.Releasing? || p.DeadLettering?
  }

  /** A handler call for event `e` is in flight at consumer `c`. */
  ghost predicate InHandler(w: World, c: nat, e: string) {
    c in w.consumers && w.consumers[c].phase.Handling? && w.consumers[c].phase.m.eventId == e
  }

  ghost predicate Owner(w: World, c: nat, e: string) {
    c in w.consumers && OwnsClaim(w.consumers[c].phase) && w.consumers[c].phase.m.eventId == e
  }

  /** Each claim has at most one owner, and a success keeps its claim for good. */
  ghost predicate Exclusive(w: World) {
    && (forall c, e :: Owner(w, c, e) ==> e in w.claims && e !in w.succeeded)
    && (forall c, d, e :: Owner(w, c, e) && Owner(w, d, e) ==> c == d)
    && (forall i, j :: 0 <= i < j < |w.succeeded| ==> w.succeeded[i] != w.succeeded[j])
    && (forall e :: e in w.succeeded ==> e in w.claims)
  }

  /** Only the consumer that steps can gain a claim, and only one that nobody had. */
  lemma OwnersByStep(w: World, a: Action, c: nat, e: string)
    requires w.useDb && Exclusive(w) && Enabled(w, a) && Owner(Step(w, a), c, e)
    ensures Owner(w, c, e) || (!a.Append? && a.c == c && e !in w.claims)
    ensures e in Step(w, a).claims && e !in Step(w, a).succeeded
  {
    if !a.Append? && !a.Assign? {
      var phase := w.consumers[a.c].phase;
      if OwnsClaim(phase) { assert Owner(w, a.c, phase.m.eventId); }
    }
    assert Owner(w, c, e) ==> e in w.claims && e !in w.succeeded;
  }

  lemma SuccessesByStep(w: World, a: Action)
    requires w.useDb && Exclusive(w) && Enabled(w, a)
    ensures var v := Step(w, a);
            && (forall i, j :: 0 <= i < j < |v.succeeded| ==> v.succeeded[i] != v.succeeded[j])
            && (forall e :: e in v.succeeded ==> e in v.claims)
  {
    if !a.Append? && !a.Assign? {
      var phase := w.consumers[a.c].phase;
      if OwnsClaim(phase) { assert Owner(w, a.c, phase.m.eventId); }
    }
  }

  lemma ExclusiveByStep(w: World, a: Action)
    requires w.useDb && Exclusive(w) && Enabled(w, a)
    ensures Exclusive(Step(w, a)) && Step(w, a).useDb
  {
    var v := Step(w, a);
    SuccessesByStep(w, a);
    forall c, e | Owner(v, c, e) ensures e in v.claims && e !in v.succeeded { OwnersByStep(w, a, c, e); }
    forall c, d, e | Owner(v, c, e) && Owner(v, d, e) ensures c == d {
      OwnersByStep(w, a, c, e);
      OwnersByStep(w, a, d, e);
    }
  }

  lemma {:induction false} RunIsExclusive(from: World, trace: seq<Action>, to: World)
    requires from.useDb && Exclusive(from) && Leads(from, trace, to)
    ensures Exclusive(to) && to.useDb
    decreases |trace|
  {
    if trace != [] {
      ExclusiveByStep(from, trace[0]);
      RunIsExclusive(Step(from, trace[0]), trace[1..], to);
    }
  }

  /**
   * With a claim table, over every run of any number of consumers, with crashes,
   * restarts, duplicates, retries and failing releases: two handler calls for one event
   * are never in flight together, and at most one call for an event ever succeeds.
   */
  lemma EventsAreHandledOnce(maxAttempts: int, partitions: nat, trace: seq<Action>, w: World)
    requires Leads(Initial(true, maxAttempts, partitions), trace, w)
    ensures forall c, d, e :: InHandler(w, c, e) && InHandler(w, d, e) ==> c == d
    ensures forall e :: multiset(w.succeeded)[e] <= 1
  {
    RunIsExclusive(Initial(true, maxAttempts, partitions), trace, w);
    forall c, d, e | InHandler(w, c, e) && InHandler(w, d, e) ensures c == d {
      assert Owner(w, c, e) && Owner(w, d, e);
    }
    forall e ensures multiset(w.succeeded)[e] <= 1 { DistinctCounts(w.succeeded, e); }
  }

  lemma {:induction false} DistinctCounts(es: seq<string>, e: string)
    requires forall i, j :: 0 <= i < j < |es| ==> es[i] != es[j]
    ensures multiset(es)[e] <= 1
  {
    if es != [] {
      var init := es[..|es| - 1];
      assert es == init + [es[|es| - 1]];
      DistinctCounts(init, e);
      if e == es[|es| - 1] { assert e !in init; }
    }
  }

  /** Two consumers, each with its own copy of one message fetched. */
  ghost function TwoFetched(maxAttempts: int, m: Message): World {
    Initial(false, maxAttempts, 2).(
      logs := [[m], [m]],
      consumers := map[0 := Consumer(0, 1, Unwrapping(m)), 1 := Consumer(1, 1, Unwrapping(m))])
  }

  lemma TwoCopies(maxAttempts: int, m: Message) returns (trace: seq<Action>)
    ensures Leads(Initial(false, maxAttempts, 2), trace, Initial(false, maxAttempts, 2).(logs := [[m], [m]]))
  {
    var start, w := Initial(false, maxAttempts, 2), Initial(false, maxAttempts, 2);
    trace := [];
    trace, w := Extend(start, trace, w, Append(0, m));
    trace, w := Extend(start, trace, w, Append(1, m));
    assert w.logs[0] == [m] && w.logs[1] == [m];
    assert w.logs == [[m], [m]];
  }

  lemma TwoReaders(maxAttempts: int, m: Message) returns (trace: seq<Action>)
    ensures Leads(Initial(false, maxAttempts, 2), trace,
                  Initial(false, maxAttempts, 2).(
                    logs := [[m], [m]],
                    consumers := map[0 := Consumer(0, 0, Fetching), 1 := Consumer(1, 0, Fetching)]))
  {
    var start, w := Initial(false, maxAttempts, 2), Initial(false, maxAttempts, 2).(logs := [[m], [m]]);
    trace := TwoCopies(maxAttempts, m);
    trace, w := Extend(start, trace, w, Assign(0, 0));
    trace, w := Extend(start, trace, w, Assign(1, 1));
    assert w.consumers == map[0 := Consumer(0, 0, Fetching), 1 := Consumer(1, 0, Fetching)];
  }

  lemma TwoFetch(maxAttempts: int, m: Message) returns (trace: seq<Action>)
    ensures Leads(Initial(false, maxAttempts, 2), trace, TwoFetched(maxAttempts, m))
  {
    var w := TwoFetched(maxAttempts, m).(
      consumers := map[0 := Consumer(0, 0, Fetching), 1 := Consumer(1, 0, Fetching)]);
    trace := TwoReaders(maxAttempts, m);
    var half := w.(consumers := map[0 := Consumer(0, 1, Unwrapping(m)), 1 := Consumer(1, 0, Fetching)]);
    assert Step(w, Fetch(0)) == half by { assert Step(w, Fetch(0)).consumers == half.consumers; }
    assert Step(half, Fetch(1)) == TwoFetched(maxAttempts, m)
      by { assert Step(half, Fetch(1)).consumers == TwoFetched(maxAttempts, m).consumers; }
    var start := Initial(false, maxAttempts, 2);
    LeadsOneMore(start, trace, w, Fetch(0));
    LeadsOneMore(start, trace + [Fetch(0)], half, Fetch(1));
    trace := trace + [Fetch(0)] + [Fetch(1)];
  }

  /** Without a claim table the same event can be in two handlers, and succeed in both. */
  lemma NoTableNoExclusion(maxAttempts: int, m: Message) returns (trace: seq<Action>, w: World)
    requires m.wellFormed
    ensures Leads(Initial(false, maxAttempts, 2), trace, w) && w.succeeded == [m.eventId, m.eventId]
  {
    var start := Initial(false, maxAttempts, 2);
    trace := TwoFetch(maxAttempts, m);
    w := TwoFetched(maxAttempts, m);
    trace, w := Extend(start, trace, w, Unwrap(0));
    trace, w := Extend(start, trace, w, Unwrap(1));
    trace, w := Extend(start, trace, w, Reply(0, true, false));
    trace, w := Extend(start, trace, w, Reply(1, true, false));
  }

  // ----------------------------------------------------------- swallowed work

  /** The consumer has the event in its hands, with its claim or on the way to retry or dead letter. */
  predicate WorksOn(p: Phase) {
    OwnsClaim(p) || p.Routing?
  }

  ghost predicate Worker(w: World, c: nat, e: string) {
    c in w.consumers && WorksOn(w.consumers[c].phase) && w.consumers[c].phase.m.eventId == e
  }

  ghost predicate DeadLettered(w: World, e: string) {
    exists i :: 0 <= i < |w.deadLetters| && w.deadLetters[i].eventId == e
  }

  ghost predicate Finished(w: World, e: string) {
    e in w.succeeded || DeadLettered(w, e)
  }

  /** A claimed event is handled successfully, dead-lettered, or being worked on. */
  ghost predicate AccountedClaim(w: World, e: string) {
    Finished(w, e) || exists c :: Worker(w, c, e)
  }

  ghost predicate NothingSwallowed(w: World) {
    forall e :: e in w.claims ==> AccountedClaim(w, e)
  }

  /** Without consumer `c` nothing would account for the event. */
  ghost predicate OnlyHope(w: World, c: nat, e: string) {
    !Finished(w, e) && forall d :: d != c ==> !Worker(w, d, e)
  }

  /**
   * The step gives up a claimed event that nothing else accounts for: its consumer
   * crashes; or it queues a retry, or loses the dead letter, while the claim stands; or
   * a claim is inserted whose reply is lost.
   */
  ghost predicate LosesClaim(w: World, a: Action)
    requires Enabled(w, a)
  {
    match a
    case Crash(c) =>
      var p := w.consumers[c].phase;
      WorksOn(p) && p.m.eventId in w.claims && OnlyHope(w, c, p.m.eventId)
    case Enqueue(c, _) =>
      var e := w.consumers[c].phase.m.eventId;
      e in w.claims && OnlyHope(w, c, e)
    case DeadLetter(c, f) =>
      var e := w.consumers[c].phase.m.eventId;
      f.Lost? && e in w.claims && OnlyHope(w, c, e)
    case Claim(c, f) => f.ReplyLost? && OnlyHope(w, c, w.consumers[c].phase.m.eventId)
    case _ => false
  }

  /** The step is one of a consumer that has this event in work. */
  predicate StepsOn(w: World, a: Action, e: string) {
    !a.Append? && a.c in w.consumers && InWork(w.consumers[a.c].phase) && w.consumers[a.c].phase.m.eventId == e
  }

  lemma SucceededByStep(w: World, a: Action, e: string)
    requires Enabled(w, a)
    ensures e in Step(w, a).succeeded <==> e in w.succeeded || (StepsOn(w, a, e) && a.Reply? && a.ok)
  {
    var v := Step(w, a);
    if a.Reply? && a.ok { assert v.succeeded[|w.succeeded|] == w.consumers[a.c].phase.m.eventId; }
  }

  lemma DeadLetteredByStep(w: World, a: Action, e: string)
    requires Enabled(w, a)
    ensures DeadLettered(Step(w, a), e)
            <==> DeadLettered(w, e) || (StepsOn(w, a, e) && a.DeadLetter? && a.f.Applies())
  {
    var v := Step(w, a);
    if a.DeadLetter? && a.f.Applies() {
      assert v.deadLetters[|w.deadLetters|] == w.consumers[a.c].phase.m;
      if i :| 0 <= i < |w.deadLetters| && w.deadLetters[i].eventId == e { assert v.deadLetters[i] == w.deadLetters[i]; }
    } else {
      assert v.deadLetters == w.deadLetters;
    }
  }

  /** An event that no step is made on keeps its standing. */
  lemma OthersByStep(w: World, a: Action, e: string)
    requires Enabled(w, a) && !StepsOn(w, a, e)
    ensures Finished(w, e) ==> Finished(Step(w, a), e)
    ensures forall c :: Worker(w, c, e) ==> Worker(Step(w, a), c, e)
    ensures forall c :: Owner(w, c, e) ==> Owner(Step(w, a), c, e)
  {
    SucceededByStep(w, a, e);
    DeadLetteredByStep(w, a, e);
    forall c | Worker(w, c, e) ensures c in Step(w, a).consumers && Step(w, a).consumers[c] == w.consumers[c] {
      OnlyStepperMoves(w, a, c);
    }
    forall c | Owner(w, c, e) ensures Worker(w, c, e) {}
  }

  /** What a step does to the standing of the event in work at its consumer. */
  lemma OwnEventByStep(w: World, a: Action)
    requires Enabled(w, a) && !a.Append? && a.c in w.consumers && InWork(w.consumers[a.c].phase)
    ensures var v, e := Step(w, a), w.consumers[a.c].phase.m.eventId;
            && (forall d :: d != a.c ==> (Worker(v, d, e) <==> Worker(w, d, e)))
            && (forall d :: d != a.c ==> (Owner(v, d, e) <==> Owner(w, d, e)))
            && (Finished(v, e) <==>
                  || Finished(w, e) || (a.Reply? && a.ok) || (a.DeadLetter? && a.f.Applies()))
  {
    var e := w.consumers[a.c].phase.m.eventId;
    SucceededByStep(w, a, e);
    DeadLetteredByStep(w, a, e);
    forall d | d != a.c
      ensures Worker(Step(w, a), d, e) <==> Worker(w, d, e)
      ensures Owner(Step(w, a), d, e) <==> Owner(w, d, e)
    {
      OnlyStepperMoves(w, a, d);
    }
  }

  /** The event of the consumer stays its own through the step. */
  lemma StepperKeepsEvent(w: World, a: Action)
    requires Enabled(w, a) && !a.Append? && a.c in w.consumers && InWork(w.consumers[a.c].phase)
    ensures var p := Step(w, a).consumers[a.c].phase; InWork(p) ==> p.m == w.consumers[a.c].phase.m
  {
  }

  lemma OwnEventIsAccounted(w: World, a: Action)
    requires w.useDb && NothingSwallowed(w) && Enabled(w, a)
    requires !a.Append? && a.c in w.consumers && InWork(w.consumers[a.c].phase)
    ensures var v, e := Step(w, a), w.consumers[a.c].phase.m.eventId;
            LosesClaim(w, a) <==> e in v.claims && !AccountedClaim(v, e)
  {
    var v, e := Step(w, a), w.consumers[a.c].phase.m.eventId;
    OwnEventByStep(w, a);
    StepperKeepsEvent(w, a);
    assert Worker(v, a.c, e) <==> WorksOn(v.consumers[a.c].phase);
    assert AccountedClaim(v, e) <==>
           Finished(v, e) || Worker(v, a.c, e) || exists d :: d != a.c && Worker(v, d, e);
    assert Worker(w, a.c, e) <==> WorksOn(w.consumers[a.c].phase);
    assert e in w.claims ==> AccountedClaim(w, e);
  }

  /** A step swallows an event exactly when it gives up a claimed one that nothing else accounts for. */
  lemma OnlyLostClaimsSwallow(w: World, a: Action)
    requires w.useDb && NothingSwallowed(w) && Enabled(w, a)
    ensures NothingSwallowed(Step(w, a)) <==> !LosesClaim(w, a)
  {
    var v := Step(w, a);
    var own := !a.Append? && a.c in w.consumers && InWork(w.consumers[a.c].phase);
    if own { OwnEventIsAccounted(w, a); }
    forall e | e in v.claims && !StepsOn(w, a, e) ensures AccountedClaim(v, e) {
      assert AccountedClaim(w, e);
      OthersByStep(w, a, e);
    }
  }

  ghost predicate LosesNoClaim(from: World, trace: seq<Action>)
    decreases |trace|
  {
    trace != [] ==>
      Enabled(from, trace[0]) && !LosesClaim(from, trace[0]) && LosesNoClaim(Step(from, trace[0]), trace[1..])
  }

  ghost predicate NothingSwallowedThroughout(from: World, trace: seq<Action>)
    decreases |trace|
  {
    NothingSwallowed(from) && (trace != [] ==>
      Enabled(from, trace[0]) && NothingSwallowedThroughout(Step(from, trace[0]), trace[1..]))
  }

  lemma {:induction false} RunSwallowsNothing(from: World, trace: seq<Action>, to: World)
    requires from.useDb && NothingSwallowed(from) && Leads(from, trace, to)
    ensures NothingSwallowedThroughout(from, trace) <==> LosesNoClaim(from, trace)
    ensures LosesNoClaim(from, trace) ==> NothingSwallowed(to)
    decreases |trace|
  {
    if trace != [] {
      OnlyLostClaimsSwallow(from, trace[0]);
      if NothingSwallowed(Step(from, trace[0])) { RunSwallowsNothing(Step(from, trace[0]), trace[1..], to); }
    }
  }

  // ----------------------------------------------------- claims and their owners

  /** The event was finished, or a consumer owns its claim. */
  ghost predicate HeldClaim(w: World, e: string) {
    Finished(w, e) || exists c :: Owner(w, c, e)
  }

  ghost predicate ClaimsAreHeld(w: World) {
    forall e :: e in w.claims ==> HeldClaim(w, e)
  }

  /**
   * The failures that leave a claim without an owner: the owner crashes, its release is
   * lost, its dead letter is lost, or a new claim's reply is. An event that was
   * dead-lettered before is finished even then.
   */
  ghost predicate DropsClaim(w: World, a: Action)
    requires Enabled(w, a)
  {
    match a
    case Crash(c) =>
      OwnsClaim(w.consumers[c].phase) && !DeadLettered(w, w.consumers[c].phase.m.eventId)
    case Release(c, f) => f.Lost? && !DeadLettered(w, w.consumers[c].phase.m.eventId)
    case DeadLetter(c, f) =>
      f.Lost? && w.consumers[c].phase.DeadLettering? && !DeadLettered(w, w.consumers[c].phase.m.eventId)
    case Claim(c, f) =>
      && f.ReplyLost? && w.consumers[c].phase.m.eventId !in w.claims
      && !DeadLettered(w, w.consumers[c].phase.m.eventId)
    case _ => false
  }

  lemma OwnEventIsHeld(w: World, a: Action)
    requires w.useDb && Exclusive(w) && ClaimsAreHeld(w) && Enabled(w, a)
    requires !a.Append? && a.c in w.consumers && InWork(w.consumers[a.c].phase)
    ensures var v, e := Step(w, a), w.consumers[a.c].phase.m.eventId;
            DropsClaim(w, a) <==> e in v.claims && !HeldClaim(v, e)
  {
    var v, e := Step(w, a), w.consumers[a.c].phase.m.eventId;
    OwnEventByStep(w, a);
    StepperKeepsEvent(w, a);
    assert Owner(w, a.c, e) <==> OwnsClaim(w.consumers[a.c].phase);
    assert Owner(v, a.c, e) <==> OwnsClaim(v.consumers[a.c].phase);
    assert e in w.claims ==> HeldClaim(w, e);
    assert HeldClaim(v, e) <==> Finished(v, e) || Owner(v, a.c, e) || exists d :: d != a.c && Owner(v, d, e);
  }

  /** A step leaves a claim without an owner or an end exactly when it is one of those failures. */
  lemma OnlyFailuresDropClaims(w: World, a: Action)
    requires w.useDb && Exclusive(w) && ClaimsAreHeld(w) && Enabled(w, a)
    ensures ClaimsAreHeld(Step(w, a)) <==> !DropsClaim(w, a)
  {
    var v := Step(w, a);
    var own := !a.Append? && a.c in w.consumers && InWork(w.consumers[a.c].phase);
    if own { OwnEventIsHeld(w, a); }
    forall e | e in v.claims && !StepsOn(w, a, e) ensures HeldClaim(v, e) {
      assert HeldClaim(w, e);
      OthersByStep(w, a, e);
    }
  }

  ghost predicate DropsNoClaim(from: World, trace: seq<Action>)
    decreases |trace|
  {
    trace != [] ==>
      Enabled(from, trace[0]) && !DropsClaim(from, trace[0]) && DropsNoClaim(Step(from, trace[0]), trace[1..])
  }

  ghost predicate HeldThroughout(from: World, trace: seq<Action>)
    decreases |trace|
  {
    ClaimsAreHeld(from) && (trace != [] ==>
      Enabled(from, trace[0]) && HeldThroughout(Step(from, trace[0]), trace[1..]))
  }

  lemma {:induction false} RunHoldsClaims(from: World, trace: seq<Action>, to: World)
    requires from.useDb && Exclusive(from) && ClaimsAreHeld(from) && Leads(from, trace, to)
    ensures HeldThroughout(from, trace) <==> DropsNoClaim(from, trace)
    ensures DropsNoClaim(from, trace) ==> ClaimsAreHeld(to) && LosesNoClaim(from, trace)
    decreases |trace|
  {
    if trace != [] {
      var next := Step(from, trace[0]);
      OnlyFailuresDropClaims(from, trace[0]);
      ExclusiveByStep(from, trace[0]);
      if ClaimsAreHeld(next) {
        RunHoldsClaims(next, trace[1..], to);
        HeldClaimsAreAccounted(from);
        HeldClaimsAreAccounted(next);
        OnlyLostClaimsSwallow(from, trace[0]);
      }
    }
  }

  lemma HeldClaimsAreAccounted(w: World)
    requires ClaimsAreHeld(w)
    ensures NothingSwallowed(w)
  {
    forall e | e in w.claims ensures AccountedClaim(w, e) {
      assert HeldClaim(w, e);
      if c :| Owner(w, c, e) { assert Worker(w, c, e); }
    }
  }

  // ------------------------------------------------------------ main results

  /**
   * At every point of a run each claimed event was handled, was dead-lettered, or has
   * its claim owned by the consumer that works on it, exactly if none of the failures
   * that leave a claim behind happens in the run.
   */
  lemma ClaimsHaveOwners(maxAttempts: int, partitions: nat, trace: seq<Action>, w: World)
    requires Leads(Initial(true, maxAttempts, partitions), trace, w)
    ensures var start := Initial(true, maxAttempts, partitions);
            HeldThroughout(start, trace) <==> DropsNoClaim(start, trace)
  {
    RunHoldsClaims(Initial(true, maxAttempts, partitions), trace, w);
  }

  /** Nothing crashes, every claim is answered, and every release and dead letter takes effect. */
  predicate Reliable(a: Action) {
    && !a.Crash? && (a.Claim? ==> !a.f.ReplyLost?)
    && (a.Release? || a.DeadLetter? ==> a.f.Applies())
  }

  lemma {:induction false} ReliableRunsDropNothing(from: World, trace: seq<Action>, to: World)
    requires Leads(from, trace, to) && forall i :: 0 <= i < |trace| ==> Reliable(trace[i])
    ensures DropsNoClaim(from, trace)
    decreases |trace|
  {
    if trace != [] { ReliableRunsDropNothing(Step(from, trace[0]), trace[1..], to); }
  }

  /**
   * Claims swallow no work: over every run without crashes in which releases and dead
   * letters take effect and claims are answered, with any number of readers, handler
   * failures, lost retries and lost commits, a claimed event was handled, was
   * dead-lettered or is being worked on by its owner. So when all consumers are between
   * messages each claimed event was handled or dead-lettered, and with it whatever
   * duplicate of it was skipped.
   */
  lemma ClaimsSwallowNothing(maxAttempts: int, partitions: nat, trace: seq<Action>, w: World)
    requires Leads(Initial(true, maxAttempts, partitions), trace, w)
    requires forall i :: 0 <= i < |trace| ==> Reliable(trace[i])
    ensures forall e :: e in w.claims ==> Finished(w, e) || exists c :: Owner(w, c, e)
    ensures (forall c :: c in w.consumers ==> !InWork(w.consumers[c].phase)) ==>
              forall e :: e in w.claims ==> e in w.succeeded || DeadLettered(w, e)
    ensures LosesNoClaim(Initial(true, maxAttempts, partitions), trace)
  {
    var start := Initial(true, maxAttempts, partitions);
    ReliableRunsDropNothing(start, trace, w);
    RunHoldsClaims(start, trace, w);
    forall e | e in w.claims ensures Finished(w, e) || exists c :: Owner(w, c, e) { assert HeldClaim(w, e); }
  }

  /**
   * A consumer that lost its release may still save the event with a dead letter. At every
   * point of a run each claimed event was handled, was dead-lettered or is in some
   * consumer's hands, exactly if no step gives up a claimed event that nothing else
   * accounts for.
   */
  lemma WorkStaysInHand(maxAttempts: int, partitions: nat, trace: seq<Action>, w: World)
    requires Leads(Initial(true, maxAttempts, partitions), trace, w)
    ensures var start := Initial(true, maxAttempts, partitions);
            NothingSwallowedThroughout(start, trace) <==> LosesNoClaim(start, trace)
  {
    RunSwallowsNothing(Initial(true, maxAttempts, partitions), trace, w);
  }

  // ------------------------------------------------------------ a claim for good

  /** The event is claimed, but no consumer holds the claim. */
  ghost predicate Unowned(w: World, e: string) {
    w.useDb && e in w.claims && forall c :: !Owner(w, c, e)
  }

  lemma UnownedByStep(w: World, a: Action, e: string)
    requires Unowned(w, e) && Enabled(w, a)
    ensures Unowned(Step(w, a), e) && multiset(Step(w, a).succeeded)[e] == multiset(w.succeeded)[e]
  {
    var v := Step(w, a);
    forall c ensures !Owner(v, c, e) { assert !Owner(w, c, e); }
    if !a.Append? { assert !Owner(w, a.c, e); }
  }

  lemma {:induction false} UnownedForEver(from: World, trace: seq<Action>, to: World, e: string)
    requires Unowned(from, e) && Leads(from, trace, to)
    ensures Unowned(to, e) && multiset(to.succeeded)[e] == multiset(from.succeeded)[e]
    decreases |trace|
  {
    if trace != [] {
      UnownedByStep(from, trace[0], e);
      UnownedForEver(Step(from, trace[0]), trace[1..], to, e);
    }
  }

  /**
   * After a lost release the retry is in vain: whatever runs afterwards, the event is
   * never handled again, and every copy of it that asks for the claim is skipped.
   */
  lemma LostReleaseIsFinal(w: World, c: nat, trace: seq<Action>, to: World)
    requires w.useDb && Exclusive(w) && c in w.consumers && w.consumers[c].phase.Releasing?
    requires Leads(Step(w, Release(c, Lost)), trace, to)
    ensures var e := w.consumers[c].phase.m.eventId;
            && e !in to.succeeded && e in to.claims
            && forall d :: d in to.consumers && to.consumers[d].phase.Claiming?
                           && to.consumers[d].phase.m.eventId == e ==>
                 Step(to, Claim(d, NoFault)).consumers[d].phase == Fetching
  {
    var v, e := Step(w, Release(c, Lost)), w.consumers[c].phase.m.eventId;
    assert Owner(w, c, e);
    forall d ensures !Owner(v, d, e) { assert Owner(w, d, e) ==> d == c; }
    UnownedForEver(v, trace, to, e);
    assert e !in w.succeeded;
    assert multiset(to.succeeded)[e] == 0;
  }
}
