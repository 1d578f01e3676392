/**
 * No loss: whatever the committed offset has passed was handled, put on the retry
 * topic, or skipped as a duplicate, although most ways through the loop do not commit.
 */
module OffsetLedger {
  import opened Domain
  import opened RetryHeaders
  import opened KafkaConsumers

  /** The record of an offset, together with what it stands for. */
  ghost predicate Accounted(w: World, p: nat, o: nat) {
    && p < |w.logs| && o < |w.logs[p]|
    && var m := w.logs[p][o];
       || (Settled(p, o, Handled) in w.settled && m.eventId in w.succeeded)
       || (Settled(p, o, Retried) in w.settled && RetryCopy(m) in w.retryTopic)
       || (w.useDb && Settled(p, o, Skipped) in w.settled && m.eventId in w.everClaimed)
  }

  ghost predicate AccountedTo(w: World, p: nat, n: nat) {
    forall o :: 0 <= o < n ==> Accounted(w, p, o)
  }

  /** How far the consumer has got: its message in work counts once it was handled. */
  function Progress(k: Consumer): nat {
    if InWork(k.phase) && !k.phase.Committing? && k.position > 0 then k.position - 1 else k.position
  }

  /** A consumer is on an existing partition, with the message before its position in work. */
  ghost predicate Placed(w: World, k: Consumer) {
    && k.partition < |w.logs| && k.position <= |w.logs[k.partition]|
    && (InWork(k.phase) ==> k.position > 0 && w.logs[k.partition][k.position - 1] == k.phase.m)
    && (k.phase.Claiming? ==> w.useDb)
  }

  ghost predicate Ledger(w: World) {
    && |w.committed| == |w.logs|
    && w.claims <= w.everClaimed
    && (forall p :: 0 <= p < |w.logs| ==> AccountedTo(w, p, w.committed[p]))
    && (forall c :: c in w.consumers && !w.consumers[c].phase.Stopped? ==>
          Placed(w, w.consumers[c]) && AccountedTo(w, w.consumers[c].partition, Progress(w.consumers[c])))
  }

  /** Logs and records only grow. */
  ghost predicate Grows(w: World, v: World) {
    && v.useDb == w.useDb && |v.logs| == |w.logs|
    && (forall p :: 0 <= p < |w.logs| ==> w.logs[p] <= v.logs[p])
    && w.settled <= v.settled && w.everClaimed <= v.everClaimed
    && w.succeeded <= v.succeeded && w.retryTopic <= v.retryTopic
  }

  lemma LogsGrow(w: World, a: Action)
    requires Enabled(w, a)
    ensures var v := Step(w, a);
            && v.useDb == w.useDb && |v.logs| == |w.logs|
            && forall p :: 0 <= p < |w.logs| ==> w.logs[p] <= v.logs[p]
  {
    if a.Append? { assert w.logs[a.p] <= w.logs[a.p] + [a.m]; }
  }

  lemma RecordsGrow(w: World, a: Action)
    requires Enabled(w, a)
    ensures var v := Step(w, a);
            && w.settled <= v.settled && w.everClaimed <= v.everClaimed
            && w.succeeded <= v.succeeded && w.retryTopic <= v.retryTopic
  {
  }

  lemma StepGrows(w: World, a: Action)
    requires Enabled(w, a)
    ensures Grows(w, Step(w, a))
  {
    LogsGrow(w, a);
    RecordsGrow(w, a);
  }

  lemma AccountStays(w: World, v: World, p: nat, o: nat)
    requires Grows(w, v) && Accounted(w, p, o)
    ensures Accounted(v, p, o)
  {
    var m := w.logs[p][o];
    assert v.logs[p][o] == m;
    if m.eventId in w.succeeded { assert m.eventId in v.succeeded; }
    if RetryCopy(m) in w.retryTopic { assert RetryCopy(m) in v.retryTopic; }
  }

  lemma AccountsStay(w: World, v: World, p: nat, n: nat)
    requires Grows(w, v) && AccountedTo(w, p, n)
    ensures AccountedTo(v, p, n)
  {
    forall o | 0 <= o < n ensures Accounted(v, p, o) {
      assert Accounted(w, p, o);
      AccountStays(w, v, p, o);
    }
  }

  /** A consumer that starts is at the committed offset, behind which everything is accounted for. */
  lemma NewReaderIsAccounted(w: World, a: Action)
    requires Ledger(w) && Enabled(w, a) && a.Assign?
    ensures var k := Step(w, a).consumers[a.c];
            Placed(Step(w, a), k) && AccountedTo(Step(w, a), k.partition, Progress(k))
  {
    StepGrows(w, a);
    AccountsStay(w, Step(w, a), a.p, w.committed[a.p]);
    assert w.committed[a.p] > 0 ==> Accounted(w, a.p, w.committed[a.p] - 1);
  }

  lemma StepperStaysPlaced(w: World, a: Action)
    requires Ledger(w) && Enabled(w, a) && !a.Append? && !a.Assign?
    ensures var k, l := w.consumers[a.c], Step(w, a).consumers[a.c];
            !l.phase.Stopped? ==> Placed(Step(w, a), l) && l.partition == k.partition
  {
    var k := w.consumers[a.c];
    assert Placed(w, k);
    if a.Fetch? { assert NextMessage(w, k).value == w.logs[k.partition][k.position]; }
  }

  /** A consumer passes its message, or goes no further. */
  lemma StepperProgress(w: World, a: Action)
    requires Ledger(w) && Enabled(w, a) && !a.Append? && !a.Assign? && !Step(w, a).consumers[a.c].phase.Stopped?
    ensures var k, l := w.consumers[a.c], Step(w, a).consumers[a.c];
            || Progress(l) <= Progress(k)
            || (Progress(l) == k.position == Progress(k) + 1 && InWork(k.phase) && !k.phase.Committing?)
  {
    assert Placed(w, w.consumers[a.c]);
  }

  /** The consumer that steps keeps its place, and everything behind it is accounted for. */
  lemma StepperStaysAccounted(w: World, a: Action)
    requires Ledger(w) && Enabled(w, a) && !a.Append?
    ensures var k := Step(w, a).consumers[a.c];
            !k.phase.Stopped? ==> Placed(Step(w, a), k) && AccountedTo(Step(w, a), k.partition, Progress(k))
  {
    if a.Assign? {
      NewReaderIsAccounted(w, a);
    } else {
      var k, l := w.consumers[a.c], Step(w, a).consumers[a.c];
      StepGrows(w, a);
      StepperStaysPlaced(w, a);
      AccountsStay(w, Step(w, a), k.partition, Progress(k));
      if !l.phase.Stopped? { StepperProgress(w, a); }
      if !l.phase.Stopped? && Progress(l) > Progress(k) { NewlyAccounted(w, a); }
    }
  }

  /** The message in work is the one at the offset before its consumer's position. */
  lemma MessageInWork(w: World, c: nat)
    requires Ledger(w) && c in w.consumers && InWork(w.consumers[c].phase)
    ensures var k := w.consumers[c];
            && 0 < k.position && k.partition < |w.logs| && k.position <= |w.logs[k.partition]|
            && w.logs[k.partition][k.position - 1] == k.phase.m
            && (k.phase.Claiming? ==> w.useDb) && w.claims <= w.everClaimed
  {
    assert Placed(w, w.consumers[c]);
  }

  lemma HandlingAccounts(w: World, a: Action)
    requires Ledger(w) && Enabled(w, a) && a.Reply? && a.ok
    ensures Accounted(Step(w, a), w.consumers[a.c].partition, w.consumers[a.c].position - 1)
  {
    MessageInWork(w, a.c);
    assert Step(w, a).succeeded[|w.succeeded|] == w.consumers[a.c].phase.m.eventId;
  }

  lemma QueueingAccounts(w: World, a: Action)
    requires Ledger(w) && Enabled(w, a) && a.Enqueue? && a.f.NoFault?
    ensures Accounted(Step(w, a), w.consumers[a.c].partition, w.consumers[a.c].position - 1)
  {
    MessageInWork(w, a.c);
    assert Step(w, a).retryTopic[|w.retryTopic|] == RetryCopy(w.consumers[a.c].phase.m);
  }

  lemma SkippingAccounts(w: World, a: Action)
    requires Ledger(w) && Enabled(w, a) && a.Claim? && a.f.NoFault? && w.consumers[a.c].phase.m.eventId in w.claims
    ensures Accounted(Step(w, a), w.consumers[a.c].partition, w.consumers[a.c].position - 1)
  {
    MessageInWork(w, a.c);
  }

  /** Moving past an offset accounts for it. */
  lemma NewlyAccounted(w: World, a: Action)
    requires Ledger(w) && Enabled(w, a) && !a.Append? && !a.Assign?
    requires InWork(w.consumers[a.c].phase) && !w.consumers[a.c].phase.Committing?
    requires var k := Step(w, a).consumers[a.c]; k.phase.Fetching? || k.phase.Committing?
    ensures Accounted(Step(w, a), w.consumers[a.c].partition, w.consumers[a.c].position - 1)
  {
    match a
    case Reply(_, _, _) => HandlingAccounts(w, a);
    case Enqueue(_, _) => QueueingAccounts(w, a);
    case Claim(_, _) => SkippingAccounts(w, a);
  }

  lemma OthersStayAccounted(w: World, a: Action, c: nat)
    requires Ledger(w) && Enabled(w, a) && (a.Append? || c != a.c)
    requires c in Step(w, a).consumers && !Step(w, a).consumers[c].phase.Stopped?
    ensures var v := Step(w, a);
            Placed(v, v.consumers[c]) && AccountedTo(v, v.consumers[c].partition, Progress(v.consumers[c]))
  {
    var v := Step(w, a);
    assert v.consumers[c] == w.consumers[c];
    StepGrows(w, a);
    AccountsStay(w, v, v.consumers[c].partition, Progress(v.consumers[c]));
  }

  lemma CommittedStaysAccounted(w: World, a: Action, p: nat)
    requires Ledger(w) && Enabled(w, a) && p < |w.logs|
    ensures AccountedTo(Step(w, a), p, Step(w, a).committed[p])
  {
    var v := Step(w, a);
    StepGrows(w, a);
    AccountsStay(w, v, p, w.committed[p]);
    if a.Commit? && p == w.consumers[a.c].partition {
      AccountsStay(w, v, p, Progress(w.consumers[a.c]));
    }
  }

  lemma LedgerByStep(w: World, a: Action)
    requires Ledger(w) && Enabled(w, a)
    ensures Ledger(Step(w, a))
  {
    var v := Step(w, a);
    forall c | c in v.consumers && !v.consumers[c].phase.Stopped?
      ensures Placed(v, v.consumers[c]) && AccountedTo(v, v.consumers[c].partition, Progress(v.consumers[c]))
    {
      if a.Append? || c != a.c { OthersStayAccounted(w, a, c); } else { StepperStaysAccounted(w, a); }
    }
    forall p | 0 <= p < |w.logs| ensures AccountedTo(v, p, v.committed[p]) {
      CommittedStaysAccounted(w, a, p);
    }
    SizesStay(w, a);
  }

  lemma SizesStay(w: World, a: Action)
    requires Enabled(w, a) && |w.committed| == |w.logs| && w.claims <= w.everClaimed
    ensures var v := Step(w, a);
            |v.logs| == |w.logs| && |v.committed| == |v.logs| && v.claims <= v.everClaimed
  {
  }

  lemma {:induction false} RunKeepsLedger(from: World, trace: seq<Action>, to: World)
    requires Ledger(from) && Leads(from, trace, to)
    ensures Ledger(to)
    decreases |trace|
  {
    if trace != [] {
      LedgerByStep(from, trace[0]);
      RunKeepsLedger(Step(from, trace[0]), trace[1..], to);
    }
  }

  /**
   * Over every run, with any consumers on any partitions: each offset below a committed
   * one was handled successfully, has its next attempt on the retry topic, or, with a
   * claim table, was skipped because its event had been claimed before.
   */
  lemma NothingIsLost(useDb: bool, maxAttempts: int, partitions: nat, trace: seq<Action>, w: World)
    requires Leads(Initial(useDb, maxAttempts, partitions), trace, w)
    ensures |w.committed| == |w.logs|
    ensures forall p, o :: 0 <= p < |w.logs| && 0 <= o < w.committed[p] ==> Accounted(w, p, o)
  {
    RunKeepsLedger(Initial(useDb, maxAttempts, partitions), trace, w);
    forall p, o | 0 <= p < |w.logs| && 0 <= o < w.committed[p] ensures Accounted(w, p, o) {
      assert AccountedTo(w, p, w.committed[p]);
    }
  }

  // -------------------------------------------------- committed offsets advance

  /** No partition is given to a second consumer while one reads it. */
  predicate OneReader(w: World, a: Action) {
    a.Assign? ==> forall c :: c in w.consumers && w.consumers[c].partition == a.p ==> w.consumers[c].phase.Stopped?
  }

  ghost predicate OneReaderEach(from: World, trace: seq<Action>)
    decreases |trace|
  {
    trace != [] ==>
      Enabled(from, trace[0]) && OneReader(from, trace[0]) && OneReaderEach(Step(from, trace[0]), trace[1..])
  }

  /** The reader is never behind what is committed on its partition. */
  predicate NotBehind(w: World, c: nat) {
    Running(w, c) ==>
      var k := w.consumers[c];
      && k.partition < |w.committed|
      && w.committed[k.partition] <= k.position
      && (InWork(k.phase) ==> w.committed[k.partition] < k.position)
  }

  predicate SharePartition(w: World, c: nat, d: nat) {
    Running(w, c) && Running(w, d) && w.consumers[c].partition == w.consumers[d].partition
  }

  /** Readers are alone on their partitions and never behind what is committed there. */
  ghost predicate Ahead(w: World) {
    && |w.committed| == |w.logs|
    && (forall c, d :: SharePartition(w, c, d) ==> c == d)
    && (forall c :: NotBehind(w, c))
  }

  lemma ReadersStayAlone(w: World, a: Action, c: nat, d: nat)
    requires Ahead(w) && Enabled(w, a) && OneReader(w, a) && SharePartition(Step(w, a), c, d)
    ensures c == d
  {
    assert SharePartition(w, c, d) ==> c == d;
  }

  /** A step moves a committed offset back exactly if it commits for a reader that is behind it. */
  lemma CommitRecedesIffBehind(w: World, a: Action)
    requires Enabled(w, a)
    ensures |Step(w, a).committed| == |w.committed|
    ensures (exists p :: 0 <= p < |w.committed| && Step(w, a).committed[p] < w.committed[p])
            <==> && a.Commit? && a.f.Applies()
                 && w.consumers[a.c].position < w.committed[w.consumers[a.c].partition]
  {
    if a.Commit? && a.f.Applies() {
      var k := w.consumers[a.c];
      assert Step(w, a).committed[k.partition] == k.position;
    }
  }

  lemma CommitMovesForward(w: World, a: Action)
    requires Ahead(w) && Enabled(w, a)
    ensures |Step(w, a).committed| == |w.committed|
    ensures forall p :: 0 <= p < |w.committed| ==> w.committed[p] <= Step(w, a).committed[p]
  {
    CommitRecedesIffBehind(w, a);
    if a.Commit? { assert NotBehind(w, a.c); }
  }

  lemma ReaderStaysAhead(w: World, a: Action)
    requires Ahead(w) && Enabled(w, a) && !a.Append?
    ensures NotBehind(Step(w, a), a.c)
  {
    assert NotBehind(w, a.c);
  }

  lemma ReadersStayAhead(w: World, a: Action, c: nat)
    requires Ahead(w) && Enabled(w, a)
    ensures NotBehind(Step(w, a), c)
  {
    var v := Step(w, a);
    assert NotBehind(w, c);
    if !a.Append? && c == a.c {
      ReaderStaysAhead(w, a);
    } else {
      assert Running(v, c) ==> Running(w, c) && v.consumers[c] == w.consumers[c];
      if a.Commit? && Running(w, c) { assert !SharePartition(w, c, a.c); }
    }
  }

  lemma AheadByStep(w: World, a: Action)
    requires Ahead(w) && Enabled(w, a) && OneReader(w, a)
    ensures Ahead(Step(w, a)) && |Step(w, a).logs| == |w.logs|
    ensures forall p :: 0 <= p < |w.logs| ==> w.committed[p] <= Step(w, a).committed[p]
  {
    var v := Step(w, a);
    CommitMovesForward(w, a);
    forall c, d | SharePartition(v, c, d) ensures c == d { ReadersStayAlone(w, a, c, d); }
    forall c ensures NotBehind(v, c) { ReadersStayAhead(w, a, c); }
  }

  lemma {:induction false} RunStaysAhead(from: World, trace: seq<Action>, to: World)
    requires Ahead(from) && Leads(from, trace, to) && OneReaderEach(from, trace)
    ensures Ahead(to) && |to.logs| == |from.logs|
    ensures forall p :: 0 <= p < |from.logs| ==> from.committed[p] <= to.committed[p]
    decreases |trace|
  {
    if trace != [] {
      AheadByStep(from, trace[0]);
      RunStaysAhead(Step(from, trace[0]), trace[1..], to);
    }
  }

  /** With one reader per partition no committed offset ever goes back between two points of a run. */
  lemma CommitsOnlyAdvance(
      useDb: bool, maxAttempts: int, partitions: nat,
      first: seq<Action>, mid: World, second: seq<Action>, to: World)
    requires var start := Initial(useDb, maxAttempts, partitions);
             Leads(start, first, mid) && OneReaderEach(start, first)
    requires Leads(mid, second, to) && OneReaderEach(mid, second)
    ensures |mid.committed| == |to.committed| == partitions
    ensures forall p :: 0 <= p < partitions ==> mid.committed[p] <= to.committed[p]
  {
    RunStaysAhead(Initial(useDb, maxAttempts, partitions), first, mid);
    RunStaysAhead(mid, second, to);
  }

  /** One message handled and not yet committed by reader 0, with a second message behind it. */
  ghost function Paused(maxAttempts: int, m: Message, n: Message): World {
    Initial(true, maxAttempts, 1).(
      logs := [[m, n]], consumers := map[0 := Consumer(0, 1, Committing(m))],
      claims := {m.eventId}, everClaimed := {m.eventId}, succeeded := [m.eventId],
      settled := {Settled(0, 0, Handled)})
  }

  lemma TwoMessages(maxAttempts: int, m: Message, n: Message) returns (trace: seq<Action>)
    ensures Leads(Initial(true, maxAttempts, 1), trace, Initial(true, maxAttempts, 1).(logs := [[m, n]]))
  {
    var start, w := Initial(true, maxAttempts, 1), Initial(true, maxAttempts, 1);
    trace := [];
    assert w.logs == [[]];
    trace, w := Extend(start, trace, w, Append(0, m));
    assert w.logs[0] == [m];
    trace, w := Extend(start, trace, w, Append(0, n));
    assert w.logs[0] == [m, n];
    assert w.logs == [[m, n]];
  }

  /** The first reader has claimed the first message. */
  ghost function Claimed(maxAttempts: int, m: Message, n: Message): World {
    Initial(true, maxAttempts, 1).(
      logs := [[m, n]], consumers := map[0 := Consumer(0, 1, Unwrapping(m))],
      claims := {m.eventId}, everClaimed := {m.eventId})
  }

  lemma FirstReaderClaims(maxAttempts: int, m: Message, n: Message) returns (trace: seq<Action>)
    ensures Leads(Initial(true, maxAttempts, 1), trace, Claimed(maxAttempts, m, n))
  {
    var start, w := Initial(true, maxAttempts, 1), Initial(true, maxAttempts, 1).(logs := [[m, n]]);
    trace := TwoMessages(maxAttempts, m, n);
    trace, w := Extend(start, trace, w, Assign(0, 0));
    trace, w := Extend(start, trace, w, Fetch(0));
    trace, w := Extend(start, trace, w, Claim(0, NoFault));
    assert w.consumers == map[0 := Consumer(0, 1, Unwrapping(m))];
    assert w == Claimed(maxAttempts, m, n);
  }

  lemma FirstReaderPauses(maxAttempts: int, m: Message, n: Message) returns (trace: seq<Action>)
    requires m.wellFormed
    ensures Leads(Initial(true, maxAttempts, 1), trace, Paused(maxAttempts, m, n))
  {
    var start, w := Initial(true, maxAttempts, 1), Claimed(maxAttempts, m, n);
    trace := FirstReaderClaims(maxAttempts, m, n);
    trace, w := Extend(start, trace, w, Unwrap(0));
    trace, w := Extend(start, trace, w, Reply(0, true, false));
    assert w.consumers == map[0 := Consumer(0, 1, Committing(m))];
    assert w == Paused(maxAttempts, m, n);
  }

  /** A second reader starts over and skips the first message. */
  ghost function Skipping(maxAttempts: int, m: Message, n: Message): World {
    Paused(maxAttempts, m, n).(
      consumers := map[0 := Consumer(0, 1, Committing(m)), 1 := Consumer(0, 1, Fetching)],
      settled := {Settled(0, 0, Handled), Settled(0, 0, Skipped)})
  }

  lemma SecondReaderSkips(maxAttempts: int, m: Message, n: Message) returns (trace: seq<Action>)
    requires m.wellFormed
    ensures Leads(Initial(true, maxAttempts, 1), trace, Skipping(maxAttempts, m, n))
  {
    var start, w := Initial(true, maxAttempts, 1), Paused(maxAttempts, m, n);
    trace := FirstReaderPauses(maxAttempts, m, n);
    trace, w := Extend(start, trace, w, Assign(1, 0));
    trace, w := Extend(start, trace, w, Fetch(1));
    trace, w := Extend(start, trace, w, Claim(1, NoFault));
    assert w.consumers == Skipping(maxAttempts, m, n).consumers;
    assert w.settled == Skipping(maxAttempts, m, n).settled;
  }

  lemma SecondReaderClaims(maxAttempts: int, m: Message, n: Message) returns (trace: seq<Action>, w: World)
    requires m.wellFormed && m.eventId != n.eventId
    ensures Leads(Initial(true, maxAttempts, 1), trace, w) && w.committed == [0]
    ensures w.consumers == map[0 := Consumer(0, 1, Committing(m)), 1 := Consumer(0, 2, Unwrapping(n))]
  {
    var start := Initial(true, maxAttempts, 1);
    trace := SecondReaderSkips(maxAttempts, m, n);
    w := Skipping(maxAttempts, m, n);
    trace, w := Extend(start, trace, w, Fetch(1));
    trace, w := Extend(start, trace, w, Claim(1, NoFault));
  }

  /** It goes on to handle the second message. */
  lemma SecondReaderOvertakes(maxAttempts: int, m: Message, n: Message) returns (trace: seq<Action>, w: World)
    requires m.wellFormed && n.wellFormed && m.eventId != n.eventId
    ensures Leads(Initial(true, maxAttempts, 1), trace, w) && w.committed == [0]
    ensures w.consumers == map[0 := Consumer(0, 1, Committing(m)), 1 := Consumer(0, 2, Committing(n))]
  {
    var start := Initial(true, maxAttempts, 1);
    trace, w := SecondReaderClaims(maxAttempts, m, n);
    trace, w := Extend(start, trace, w, Unwrap(1));
    trace, w := Extend(start, trace, w, Reply(1, true, false));
  }

  /** With two readers on one partition a late commit can take the committed offset back. */
  lemma TwoReadersCanRecede(maxAttempts: int, m: Message, n: Message) returns (trace: seq<Action>, w: World, a: Action)
    requires m.wellFormed && n.wellFormed && m.eventId != n.eventId
    ensures Leads(Initial(true, maxAttempts, 1), trace, w) && Enabled(w, a)
    ensures w.committed == [2] && Step(w, a).committed == [1]
  {
    trace, w := SecondReaderOvertakes(maxAttempts, m, n);
    trace, w := Extend(Initial(true, maxAttempts, 1), trace, w, Commit(1, NoFault));
    a := Commit(0, NoFault);
  }

  // -------------------------------------------------------------- retry topic

  /** Every queued copy is a later attempt within the limit. */
  ghost predicate RetriesWithinLimit(w: World) {
    forall i :: 0 <= i < |w.retryTopic| ==> 2 <= RetryAttempt(w.retryTopic[i].headers) <= w.maxAttempts
  }

  /** The copy of a message that may be retried is one attempt further, and within the limit. */
  lemma RetryCopyIsNextAttempt(w: World, m: Message)
    requires RetryAttempt(m.headers) < w.maxAttempts <= MAX_INT
    ensures RetryCopy(m).eventId == m.eventId
    ensures RetryAttempt(RetryCopy(m).headers) == RetryAttempt(m.headers) + 1 <= w.maxAttempts
  {
    StampReadsBack(m.headers, RetryAttempt(m.headers) + 1);
  }

  /** A step changes the retry topic only by queuing the copy of a message whose handler failed. */
  lemma RetryTopicByStep(w: World, a: Action)
    requires Enabled(w, a)
    ensures var v := Step(w, a);
            if a.Enqueue? && a.f.Applies() then
              && Retries(w, w.consumers[a.c].phase)
              && v.retryTopic == w.retryTopic + [RetryCopy(w.consumers[a.c].phase.m)]
            else v.retryTopic == w.retryTopic
    ensures Step(w, a).maxAttempts == w.maxAttempts
  {
  }

  lemma RetriesByStep(w: World, a: Action)
    requires RetriesWithinLimit(w) && w.maxAttempts <= MAX_INT && Enabled(w, a)
    ensures RetriesWithinLimit(Step(w, a))
  {
    RetryTopicByStep(w, a);
    if a.Enqueue? { RetryCopyIsNextAttempt(w, w.consumers[a.c].phase.m); }
  }

  /** Over every run, no message on the retry topic carries more attempts than the limit, or fewer than two. */
  lemma {:induction false} RetriesStayWithinLimit(from: World, trace: seq<Action>, to: World)
    requires RetriesWithinLimit(from) && from.maxAttempts <= MAX_INT && Leads(from, trace, to)
    ensures RetriesWithinLimit(to) && to.maxAttempts == from.maxAttempts
    decreases |trace|
  {
    if trace != [] {
      RetriesByStep(from, trace[0]);
      RetryTopicByStep(from, trace[0]);
      RetriesStayWithinLimit(Step(from, trace[0]), trace[1..], to);
    }
  }
}
