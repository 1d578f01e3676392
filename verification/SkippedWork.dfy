/**
 * How the offsets end that a commit has passed without handling their own message.
 * With one reader per partition, an event that was ever claimed is finished, has a retry
 * copy queued, is in some consumer's hands, waits at an offset that no reader has passed,
 * or its claim was left behind by one of the failures that leave claims behind.
 */
module SkippedWork {
  import opened KafkaConsumers
  import EventClaims
  import OffsetLedger

  ghost predicate InHand(w: World, c: nat, e: string) {
    c in w.consumers && InWork(w.consumers[c].phase) && w.consumers[c].phase.m.eventId == e
  }

  ghost predicate Queued(w: World, e: string) {
    exists i :: 0 <= i < |w.retryTopic| && w.retryTopic[i].eventId == e
  }

  predicate ReadsPast(w: World, c: nat, p: nat, o: nat) {
    Running(w, c) && w.consumers[c].partition == p && o < w.consumers[c].position
  }

  /** The event is at this offset, which is not committed and which no reader has passed. */
  ghost predicate Waits(w: World, p: nat, o: nat, e: string) {
    && p < |w.logs| && p < |w.committed| && w.committed[p] <= o < |w.logs[p]|
    && w.logs[p][o].eventId == e && forall c :: !ReadsPast(w, c, p, o)
  }

  ghost predicate OnItsWay(w: World, e: string) {
    || EventClaims.Finished(w, e) || Queued(w, e)
    || (exists c :: InHand(w, c, e)) || (exists p, o :: Waits(w, p, o, e))
  }

  ghost predicate MessageIsOnItsWay(w: World, p: nat, o: nat) {
    p < |w.logs| && o < |w.logs[p]| && OnItsWay(w, w.logs[p][o].eventId)
  }

  predicate MessageIsClaimed(w: World, p: nat, o: nat) {
    p < |w.logs| && o < |w.logs[p]| && w.logs[p][o].eventId in w.claims
  }

  /** Every event that was ever claimed is on its way, or claimed still; and only what succeeded is committed. */
  ghost predicate Followed(w: World) {
    && (forall e :: e in w.everClaimed ==> OnItsWay(w, e) || e in w.claims)
    && (forall c :: c in w.consumers && w.consumers[c].phase.Committing? ==>
          w.consumers[c].phase.m.eventId in w.succeeded)
  }

  lemma FinishedStays(w: World, a: Action, e: string)
    requires Enabled(w, a)
    ensures EventClaims.Finished(w, e) ==> EventClaims.Finished(Step(w, a), e)
  {
    EventClaims.SucceededByStep(w, a, e);
    EventClaims.DeadLetteredByStep(w, a, e);
  }

  lemma QueuedByStep(w: World, a: Action, e: string)
    requires Enabled(w, a)
    ensures Queued(w, e) ==> Queued(Step(w, a), e)
    ensures a.Enqueue? && a.f.Applies() ==> Queued(Step(w, a), w.consumers[a.c].phase.m.eventId)
  {
    var v := Step(w, a);
    OffsetLedger.RetryTopicByStep(w, a);
    if i :| 0 <= i < |w.retryTopic| && w.retryTopic[i].eventId == e { assert v.retryTopic[i].eventId == e; }
    if a.Enqueue? && a.f.Applies() {
      assert v.retryTopic[|w.retryTopic|].eventId == w.consumers[a.c].phase.m.eventId;
    }
  }

  /** A message that its reader leaves, by failing or dying, waits for the next reader. */
  lemma LeftMessageWaits(w: World, a: Action, c: nat)
    requires OffsetLedger.Ledger(w) && OffsetLedger.Ahead(w) && Enabled(w, a) && !a.Append? && a.c == c
    requires Running(w, c) && InWork(w.consumers[c].phase) && Step(w, a).consumers[c].phase.Stopped?
    requires Step(w, a).committed == w.committed
    ensures var k := w.consumers[c];
            k.position > 0 && Waits(Step(w, a), k.partition, k.position - 1, k.phase.m.eventId)
  {
    var v, k := Step(w, a), w.consumers[c];
    OffsetLedger.MessageInWork(w, c);
    assert OffsetLedger.NotBehind(w, c);
    var o: nat := k.position - 1;
    forall d ensures !ReadsPast(v, d, k.partition, o) {
      if d != c && Running(v, d) && v.consumers[d].partition == k.partition {
        assert OffsetLedger.SharePartition(w, c, d);
      }
    }
  }

  lemma WaitingByStep(w: World, a: Action, p: nat, o: nat, e: string)
    requires Enabled(w, a) && Waits(w, p, o, e)
    ensures Waits(Step(w, a), p, o, e) || (!a.Append? && InHand(Step(w, a), a.c, e))
  {
    var v := Step(w, a);
    if a.Fetch? && w.consumers[a.c].partition == p && w.consumers[a.c].position == o {
      assert InHand(v, a.c, e);
    } else {
      forall c ensures !ReadsPast(v, c, p, o) { assert !ReadsPast(w, c, p, o); }
      if a.Commit? { assert !ReadsPast(w, a.c, p, o); }
    }
  }

  /** The event in hand stays in hand or goes on, unless the step leaves its claim standing. */
  lemma HandByStep(w: World, a: Action, e: string)
    requires OffsetLedger.Ledger(w) && OffsetLedger.Ahead(w) && Followed(w) && Enabled(w, a)
    requires !a.Append? && InHand(w, a.c, e)
    ensures OnItsWay(Step(w, a), e) || e in Step(w, a).claims
  {
    var v, k := Step(w, a), w.consumers[a.c];
    FinishedStays(w, a, e);
    QueuedByStep(w, a, e);
    if InWork(v.consumers[a.c].phase) {
      EventClaims.StepperKeepsEvent(w, a);
      assert InHand(v, a.c, e);
    } else if a.Commit? {
      assert e in w.succeeded;
    } else if a.DeadLetter? && a.f.Applies() {
      EventClaims.DeadLetteredByStep(w, a, e);
    } else if v.consumers[a.c].phase.Stopped? {
      LeftMessageWaits(w, a, a.c);
    }
  }

  lemma ClaimStands(w: World, a: Action, e: string)
    requires Enabled(w, a) && e in w.claims && !(!a.Append? && InHand(w, a.c, e))
    ensures e in Step(w, a).claims
  {
  }

  lemma EventByStep(w: World, a: Action, e: string)
    requires OffsetLedger.Ledger(w) && OffsetLedger.Ahead(w) && Followed(w) && Enabled(w, a)
    requires OnItsWay(w, e) || e in w.claims
    ensures OnItsWay(Step(w, a), e) || e in Step(w, a).claims
  {
    var v := Step(w, a);
    FinishedStays(w, a, e);
    QueuedByStep(w, a, e);
    if !a.Append? && InHand(w, a.c, e) {
      HandByStep(w, a, e);
    } else if c :| InHand(w, c, e) {
      OnlyStepperMoves(w, a, c);
      assert InHand(v, c, e);
    } else if p, o :| Waits(w, p, o, e) {
      WaitingByStep(w, a, p, o, e);
    } else if e in w.claims {
      ClaimStands(w, a, e);
    }
  }

  lemma FollowedByStep(w: World, a: Action)
    requires OffsetLedger.Ledger(w) && OffsetLedger.Ahead(w) && Followed(w) && Enabled(w, a)
    ensures Followed(Step(w, a))
  {
    var v := Step(w, a);
    forall e | e in v.everClaimed ensures OnItsWay(v, e) || e in v.claims {
      if e in w.everClaimed { EventByStep(w, a, e); }
    }
    forall c | c in v.consumers && v.consumers[c].phase.Committing?
      ensures v.consumers[c].phase.m.eventId in v.succeeded
    {
      if !a.Append? && a.c == c {
        assert a.Reply? && v.succeeded[|w.succeeded|] == v.consumers[c].phase.m.eventId;
      }
    }
  }

  lemma {:induction false} RunIsFollowed(from: World, trace: seq<Action>, to: World)
    requires OffsetLedger.Ledger(from) && OffsetLedger.Ahead(from) && Followed(from)
    requires Leads(from, trace, to) && OffsetLedger.OneReaderEach(from, trace)
    ensures OffsetLedger.Ledger(to) && Followed(to)
    decreases |trace|
  {
    if trace != [] {
      FollowedByStep(from, trace[0]);
      OffsetLedger.LedgerByStep(from, trace[0]);
      OffsetLedger.AheadByStep(from, trace[0]);
      RunIsFollowed(Step(from, trace[0]), trace[1..], to);
    }
  }

  /**
   * No work is lost by skipping: over every run with one reader per partition, with
   * crashes, restarts, lost retries and failing commits, the event of every offset below
   * a committed one was handled or dead-lettered, has a retry copy queued, is in a
   * consumer's hands, waits at an uncommitted offset, or is claimed still; and if none of
   * the failures that leave claims behind happened, it is one of the others.
   */
  lemma PassedWorkIsOnItsWay(maxAttempts: int, partitions: nat, trace: seq<Action>, w: World)
    requires var start := Initial(true, maxAttempts, partitions);
             Leads(start, trace, w) && OffsetLedger.OneReaderEach(start, trace)
    ensures |w.committed| == |w.logs|
    ensures forall p, o :: 0 <= p < |w.logs| && 0 <= o < w.committed[p] ==>
              MessageIsOnItsWay(w, p, o) || MessageIsClaimed(w, p, o)
    ensures EventClaims.DropsNoClaim(Initial(true, maxAttempts, partitions), trace) ==>
              forall p, o :: 0 <= p < |w.logs| && 0 <= o < w.committed[p] ==> MessageIsOnItsWay(w, p, o)
  {
    var start := Initial(true, maxAttempts, partitions);
    RunIsFollowed(start, trace, w);
    OffsetLedger.NothingIsLost(true, maxAttempts, partitions, trace, w);
    EventClaims.RunHoldsClaims(start, trace, w);
    forall p, o | 0 <= p < |w.logs| && 0 <= o < w.committed[p]
      ensures MessageIsOnItsWay(w, p, o) || MessageIsClaimed(w, p, o)
      ensures EventClaims.DropsNoClaim(start, trace) ==> MessageIsOnItsWay(w, p, o)
    {
      assert OffsetLedger.Accounted(w, p, o);
      PassedEvent(w, p, o);
      if EventClaims.DropsNoClaim(start, trace) { HeldEvent(w, w.logs[p][o].eventId); }
    }
  }

  lemma PassedEvent(w: World, p: nat, o: nat)
    requires OffsetLedger.Accounted(w, p, o) && Followed(w)
    ensures OnItsWay(w, w.logs[p][o].eventId) || w.logs[p][o].eventId in w.claims
  {
    var m := w.logs[p][o];
    if RetryCopy(m) in w.retryTopic {
      var i :| 0 <= i < |w.retryTopic| && w.retryTopic[i] == RetryCopy(m);
      assert w.retryTopic[i].eventId == m.eventId;
    }
  }

  lemma HeldEvent(w: World, e: string)
    requires EventClaims.ClaimsAreHeld(w) && (OnItsWay(w, e) || e in w.claims)
    ensures OnItsWay(w, e)
  {
    if e in w.claims {
      assert EventClaims.HeldClaim(w, e);
      if c :| EventClaims.Owner(w, c, e) { assert InHand(w, c, e); }
    }
  }
}
