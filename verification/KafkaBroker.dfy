/**
 * The consume loop as the broker runs it: one consumer from its start at the committed
 * offset to its return. Every pass of the loop is a run of the consumer step system.
 */
module KafkaBroker {
  import opened Wrappers
  import opened Domain
  import opened RetryHeaders
  import opened KafkaConsumers

  /** The fate of each outgoing call, and the handler's verdict, in one pass of the loop. */
  datatype Round = Round(
    fetched: bool, claim: Fault, ok: bool, permanent: bool,
    release: Fault, enqueue: Fault, deadLetter: Fault, commit: Fault)

  /** The call that a consumer makes next, with the fate that the round holds for it. */
  function NextCall(w: World, c: nat, round: Round): Action
    requires Running(w, c)
  {
    match w.consumers[c].phase
    case Fetching => if round.fetched && NextMessage(w, w.consumers[c]).Some? then Fetch(c) else FetchFail(c)
    case Claiming(_) => Claim(c, round.claim)
    case Unwrapping(_) => Unwrap(c)
    case Handling(_) => Reply(c, round.ok, round.permanent)
    case Releasing(_, _) => Release(c, round.release)
    case Routing(_, _) =>
      if Retries(w, w.consumers[c].phase) then Enqueue(c, round.enqueue) else DeadLetter(c, round.deadLetter)
    case DeadLettering(_) => DeadLetter(c, round.deadLetter)
    case Committing(_) => Commit(c, round.commit)
  }

  function CallsLeft(p: Phase): nat {
    match p
    case Fetching => 7 case Claiming(_) => 6 case Unwrapping(_) => 5 case Handling(_) => 4
    case Releasing(_, _) => 3 case Routing(_, _) => 2 case DeadLettering(_) => 1 case Committing(_) => 1
    case Stopped => 0
  }

  /** A consumer that runs on a partition whose offset is kept. */
  predicate Ready(w: World, c: nat) {
    Running(w, c) && w.consumers[c].partition < |w.committed|
  }

  /** The consumer has finished its message: it fetches again or has returned. */
  predicate Rests(w: World, c: nat) {
    c in w.consumers && !InWork(w.consumers[c].phase)
  }

  /** The rest of a pass of the loop, call after call, until the consumer rests. */
  function Finish(w: World, c: nat, round: Round): (v: World)
    requires Ready(w, c)
    ensures Rests(v, c) && |v.committed| == |w.committed| && v.consumers[c].partition == w.consumers[c].partition
    decreases CallsLeft(w.consumers[c].phase)
  {
    var v := Step(w, NextCall(w, c, round));
    if InWork(v.consumers[c].phase) then Finish(v, c, round) else v
  }

  /** The passes of the loop until it returns or the rounds are used up. */
  function Loop(w: World, c: nat, rounds: seq<Round>): (v: World)
    requires Rests(w, c) && w.consumers[c].partition < |w.committed|
    ensures Rests(v, c)
    decreases |rounds|
  {
    if rounds == [] || w.consumers[c].phase.Stopped? then w
    else Loop(Finish(w, c, rounds[0]), c, rounds[1..])
  }

  class Broker {
    const useDb: bool
    const maxAttempts: int
    var logs: seq<seq<Message>>
    var committed: seq<nat>
    var consumers: map<nat, Consumer>
    var claims: set<string>
    var retryTopic: seq<Message>
    var deadLetters: seq<Message>
    ghost var everClaimed: set<string>
    ghost var succeeded: seq<string>
    ghost var settled: set<Settled>

    ghost function View(): World
      reads this
    {
      World(useDb, maxAttempts, logs, committed, consumers, claims, retryTopic, deadLetters,
            everClaimed, succeeded, settled)
    }

    constructor (useDb: bool, maxAttempts: int, partitions: nat)
      ensures View() == Initial(useDb, maxAttempts, partitions)
    {
      this.useDb, this.maxAttempts := useDb, maxAttempts;
      logs, committed, consumers := seq(partitions, _ => []), seq(partitions, _ => 0), map[];
      claims, retryTopic, deadLetters := {}, [], [];
      everClaimed, succeeded, settled := {}, [], {};
    }

    // Each call of the loop body is one step of the consumer.

    method Stop(c: nat)
      requires Enabled(View(), FetchFail(c))
      modifies this`consumers
      ensures View() == Step(old(View()), FetchFail(c))
    {
      consumers := consumers[c := consumers[c].(phase := Stopped)];
    }

    method FetchMessage(c: nat) returns (m: Message)
      requires Enabled(View(), Fetch(c))
      modifies this`consumers
      ensures View() == Step(old(View()), Fetch(c))
      ensures m == NextMessage(old(View()), old(consumers[c])).value
    {
      var k := consumers[c];
      m := logs[k.partition][k.position];
      consumers := consumers[c := Consumer(k.partition, k.position + 1, if useDb then Claiming(m) else Unwrapping(m))];
    }

    /** Insert the event's row unless it is there; `err` when the answer did not arrive. */
    method ClaimEvent(c: nat, f: Fault) returns (claimed: bool, err: bool)
      requires Enabled(View(), Claim(c, f))
      modifies this`consumers, this`claims, this`everClaimed, this`settled
      ensures View() == Step(old(View()), Claim(c, f))
      ensures err == !f.NoFault? && (!err ==> claimed == (old(consumers[c]).phase.m.eventId !in old(claims)))
    {
      var k := consumers[c];
      var e := k.phase.m.eventId;
      claimed := e !in claims;
      err := !f.NoFault?;
      if f.Applies() && (claimed || err) {
        claims := claims + {e};
        everClaimed := everClaimed + {e};
      }
      if !err && !claimed && k.position > 0 {
        settled := settled + {Settled(k.partition, k.position - 1, Skipped)};
      }
      consumers := consumers[c := k.(phase :=
        if err then Stopped else if claimed then Unwrapping(k.phase.m) else Fetching)];
    }

    method UnwrapEnvelope(c: nat) returns (wellFormed: bool)
      requires Enabled(View(), Unwrap(c))
      modifies this`consumers
      ensures View() == Step(old(View()), Unwrap(c)) && wellFormed == old(consumers[c]).phase.m.wellFormed
    {
      var k := consumers[c];
      wellFormed := k.phase.m.wellFormed;
      consumers := consumers[c := k.(phase := if wellFormed then Handling(k.phase.m) else DeadLettering(k.phase.m))];
    }

    method CallHandler(c: nat, ok: bool, permanent: bool)
      requires Enabled(View(), Reply(c, ok, permanent))
      modifies this`consumers, this`succeeded, this`settled
      ensures View() == Step(old(View()), Reply(c, ok, permanent))
    {
      var k := consumers[c];
      var m := k.phase.m;
      if ok {
        succeeded := succeeded + [m.eventId];
        if k.position > 0 {
          settled := settled + {Settled(k.partition, k.position - 1, Handled)};
        }
        consumers := consumers[c := k.(phase := Committing(m))];
      } else {
        consumers := consumers[c := k.(phase := if useDb then Releasing(m, permanent) else Routing(m, permanent))];
      }
    }

    method ReleaseEvent(c: nat, f: Fault)
      requires Enabled(View(), Release(c, f))
      modifies this`consumers, this`claims
      ensures View() == Step(old(View()), Release(c, f))
    {
      var k := consumers[c];
      if f.Applies() {
        claims := claims - {k.phase.m.eventId};
      }
      consumers := consumers[c := k.(phase := Routing(k.phase.m, k.phase.permanent))];
    }

    method EnqueueRetry(c: nat, attempt: nat, f: Fault) returns (ok: bool)
      requires Enabled(View(), Enqueue(c, f)) && attempt == RetryAttempt(consumers[c].phase.m.headers) + 1
      modifies this`consumers, this`retryTopic, this`settled
      ensures View() == Step(old(View()), Enqueue(c, f)) && ok == f.NoFault?
    {
      var k := consumers[c];
      var m := k.phase.m;
      ok := f.NoFault?;
      if f.Applies() {
        retryTopic := retryTopic + [m.(headers := Stamp(m.headers, attempt))];
      }
      if ok && k.position > 0 {
        settled := settled + {Settled(k.partition, k.position - 1, Retried)};
      }
      consumers := consumers[c := k.(phase := if ok then Fetching else Stopped)];
    }

    method DeadLetterMessage(c: nat, f: Fault)
      requires Enabled(View(), DeadLetter(c, f))
      modifies this`consumers, this`deadLetters
      ensures View() == Step(old(View()), DeadLetter(c, f))
    {
      var k := consumers[c];
      if f.Applies() {
        deadLetters := deadLetters + [k.phase.m];
      }
      consumers := consumers[c := k.(phase := Stopped)];
    }

    method CommitMessage(c: nat, f: Fault) returns (ok: bool)
      requires Enabled(View(), Commit(c, f))
      modifies this`consumers, this`committed
      ensures View() == Step(old(View()), Commit(c, f)) && ok == f.NoFault?
    {
      var k := consumers[c];
      ok := f.NoFault?;
      if f.Applies() {
        committed := committed[k.partition := k.position];
      }
      consumers := consumers[c := k.(phase := if ok then Fetching else Stopped)];
    }

    /** What follows a failed handler call: release the claim, then retry or give up. */
    method HandleFailure(c: nat, attempts: nat, permanent: bool, round: Round) returns (again: bool)
      requires Ready(View(), c) && (consumers[c].phase.Releasing? || consumers[c].phase.Routing?)
      requires permanent == consumers[c].phase.permanent && useDb == consumers[c].phase.Releasing?
      requires attempts == RetryAttempt(consumers[c].phase.m.headers)
      modifies this
      ensures View() == Finish(old(View()), c, round) && again == consumers[c].phase.Fetching?
    {
      if useDb {
        ReleaseEvent(c, round.release);
      }
      if !permanent && attempts < maxAttempts {
        again := EnqueueRetry(c, attempts + 1, round.enqueue);
      } else {
        DeadLetterMessage(c, round.deadLetter);
        again := false;
      }
    }

    /** The handler call and what its verdict leads to. */
    method HandleMessage(c: nat, attempts: nat, round: Round) returns (again: bool)
      requires Ready(View(), c) && consumers[c].phase.Handling?
      requires attempts == RetryAttempt(consumers[c].phase.m.headers)
      modifies this
      ensures View() == Finish(old(View()), c, round) && again == consumers[c].phase.Fetching?
    {
      CallHandler(c, round.ok, round.permanent);
      if !round.ok {
        again := HandleFailure(c, attempts, round.permanent, round);
        return;
      }
      again := CommitMessage(c, round.commit);
    }

    /** From a claimed message to its commit, its retry or its dead letter. */
    method Deliver(c: nat, attempts: nat, round: Round) returns (again: bool)
      requires Ready(View(), c) && consumers[c].phase.Unwrapping?
      requires attempts == RetryAttempt(consumers[c].phase.m.headers)
      modifies this
      ensures View() == Finish(old(View()), c, round) && again == consumers[c].phase.Fetching?
    {
      var wellFormed := UnwrapEnvelope(c);
      if !wellFormed {
        DeadLetterMessage(c, round.deadLetter);
        return false;
      }
      again := HandleMessage(c, attempts, round);
    }

    /** One pass of the loop; `again` tells whether the loop goes on or returns. */
    method ConsumeOne(c: nat, round: Round) returns (again: bool)
      requires Ready(View(), c) && consumers[c].phase.Fetching?
      modifies this
      ensures View() == Finish(old(View()), c, round) && again == consumers[c].phase.Fetching?
    {
      var k := consumers[c];
      if !round.fetched || k.partition >= |logs| || k.position >= |logs[k.partition]| {
        Stop(c);
        return false;
      }
      var m := FetchMessage(c);
      var attempts := ScanRetryAttempt(m.headers);
      if useDb {
        var claimed, err := ClaimEvent(c, round.claim);
        if err {
          return false;
        }
        if !claimed {
          return true;
        }
      }
      again := Deliver(c, attempts, round);
    }

    /** The loop does, call by call, what the consumer system allows under the given fates. */
    method RunPullConsumer(c: nat, p: nat, rounds: seq<Round>)
      requires !Running(View(), c) && p < |logs| && p < |committed|
      modifies this
      ensures View() == Loop(Step(old(View()), Assign(c, p)), c, rounds)
    {
      consumers := consumers[c := Consumer(p, committed[p], Fetching)];
      ghost var start := View();
      for i := 0 to |rounds|
        invariant Ready(View(), c) && consumers[c].phase.Fetching?
        invariant Loop(start, c, rounds) == Loop(View(), c, rounds[i..])
      {
        var again := ConsumeOne(c, rounds[i]);
        assert rounds[i..][1..] == rounds[i + 1..];
        if !again {
          return;
        }
      }
    }
  }

  // ------------------------------------------------- the loop is a system run

  lemma {:induction false} FinishIsRun(w: World, c: nat, round: Round) returns (trace: seq<Action>)
    requires Ready(w, c)
    ensures Leads(w, trace, Finish(w, c, round)) && OnlyBy(trace, c)
    decreases CallsLeft(w.consumers[c].phase)
  {
    var a := NextCall(w, c, round);
    var v := Step(w, a);
    var rest := [];
    if InWork(v.consumers[c].phase) { rest := FinishIsRun(v, c, round); }
    trace := [a] + rest;
    assert trace[1..] == rest;
  }

  /** A whole session of the loop is a run of the consumer system in which only this consumer moves. */
  lemma {:induction false} LoopIsRun(w: World, c: nat, rounds: seq<Round>) returns (trace: seq<Action>)
    requires Rests(w, c) && w.consumers[c].partition < |w.committed|
    ensures Leads(w, trace, Loop(w, c, rounds)) && OnlyBy(trace, c)
    decreases |rounds|
  {
    trace := [];
    if rounds != [] && !w.consumers[c].phase.Stopped? {
      var v := Finish(w, c, rounds[0]);
      var first := FinishIsRun(w, c, rounds[0]);
      var rest := LoopIsRun(v, c, rounds[1..]);
      LeadsFurther(w, first, v, rest, Loop(v, c, rounds[1..]));
      trace := first + rest;
    }
  }

  lemma StepKeepsLogs(w: World, a: Action)
    requires Enabled(w, a) && !a.Append?
    ensures var v := Step(w, a); v.logs == w.logs && v.useDb == w.useDb && v.maxAttempts == w.maxAttempts
  {
  }

  lemma {:induction false} FinishKeepsLogs(w: World, c: nat, round: Round)
    requires Ready(w, c)
    ensures var v := Finish(w, c, round); v.logs == w.logs && v.useDb == w.useDb && v.maxAttempts == w.maxAttempts
    decreases CallsLeft(w.consumers[c].phase)
  {
    var a := NextCall(w, c, round);
    var v := Step(w, a);
    StepKeepsLogs(w, a);
    if InWork(v.consumers[c].phase) {
      assert Finish(w, c, round) == Finish(v, c, round);
      FinishKeepsLogs(v, c, round);
    } else {
      assert Finish(w, c, round) == v;
    }
  }

  // ------------------------------------------------------ the outcome of a pass

  /** A pass that gets no message, or no answer to its claim, ends the session; a claim may stay behind. */
  lemma PassWithoutMessage(w: World, c: nat, round: Round)
    requires Ready(w, c) && w.consumers[c].phase.Fetching?
    requires var next := NextMessage(w, w.consumers[c]);
             !round.fetched || next.None? || (w.useDb && !round.claim.NoFault?)
    ensures var v, next := Finish(w, c, round), NextMessage(w, w.consumers[c]);
            && v.consumers[c].phase == Stopped
            && v.claims == (if round.fetched && next.Some? && round.claim.ReplyLost?
                            then w.claims + (if w.useDb then {next.value.eventId} else {}) else w.claims)
            && v.committed == w.committed && v.succeeded == w.succeeded && v.logs == w.logs
            && v.retryTopic == w.retryTopic && v.deadLetters == w.deadLetters
  {
    if round.fetched && NextMessage(w, w.consumers[c]).Some? {
      var w1 := Step(w, Fetch(c));
      assert Finish(w, c, round) == Finish(w1, c, round);
      assert Finish(w1, c, round) == Step(w1, Claim(c, round.claim));
    }
  }

  /** The consumer gets a message that it may work on. */
  predicate Receives(w: World, c: nat, round: Round) {
    && Ready(w, c) && w.consumers[c].phase.Fetching? && round.fetched && NextMessage(w, w.consumers[c]).Some?
    && (w.useDb ==> round.claim.NoFault? && NextMessage(w, w.consumers[c]).value.eventId !in w.claims)
  }

  /** The state in which the consumer opens the message that it received. */
  ghost function Received(w: World, c: nat): World
    requires c in w.consumers && NextMessage(w, w.consumers[c]).Some?
  {
    var k, m := w.consumers[c], NextMessage(w, w.consumers[c]).value;
    w.(consumers := w.consumers[c := Consumer(k.partition, k.position + 1, Unwrapping(m))],
       claims := if w.useDb then w.claims + {m.eventId} else w.claims,
       everClaimed := if w.useDb then w.everClaimed + {m.eventId} else w.everClaimed)
  }

  lemma ReceivingLeadsTo(w: World, c: nat, round: Round)
    requires Receives(w, c, round)
    ensures Finish(w, c, round) == Finish(Received(w, c), c, round)
  {
    var w1 := Step(w, Fetch(c));
    assert Finish(w, c, round) == Finish(w1, c, round);
    if w.useDb {
      assert Finish(w1, c, round) == Finish(Step(w1, Claim(c, round.claim)), c, round);
      assert Step(w1, Claim(c, round.claim)).consumers == Received(w, c).consumers;
    }
    assert (if w.useDb then Step(w1, Claim(c, round.claim)) else w1) == Received(w, c);
  }

  lemma OpenedMessageIsHandled(w: World, c: nat, round: Round)
    requires Ready(w, c) && w.consumers[c].phase.Unwrapping? && w.consumers[c].phase.m.wellFormed && round.ok
    ensures var k, v := w.consumers[c], Finish(w, c, round);
            && v.succeeded == w.succeeded + [k.phase.m.eventId]
            && v.committed == (if round.commit.Applies() then w.committed[k.partition := k.position] else w.committed)
            && v.claims == w.claims && v.retryTopic == w.retryTopic && v.deadLetters == w.deadLetters
            && v.consumers[c] == k.(phase := if round.commit.NoFault? then Fetching else Stopped)
  {
    var w1 := Step(w, Unwrap(c));
    var w2 := Step(w1, Reply(c, true, round.permanent));
    assert Finish(w, c, round) == Finish(w1, c, round);
    assert Finish(w1, c, round) == Finish(w2, c, round);
    assert Finish(w2, c, round) == Step(w2, Commit(c, round.commit));
  }

  /** A handled message is committed if the commit arrives, and the loop goes on if it is answered. */
  lemma HandledPass(w: World, c: nat, round: Round)
    requires Receives(w, c, round) && NextMessage(w, w.consumers[c]).value.wellFormed && round.ok
    ensures var k, v, m := w.consumers[c], Finish(w, c, round), NextMessage(w, w.consumers[c]).value;
            && v.succeeded == w.succeeded + [m.eventId]
            && v.committed
               == (if round.commit.Applies() then w.committed[k.partition := k.position + 1] else w.committed)
            && v.claims == (if w.useDb then w.claims + {m.eventId} else w.claims)
            && v.retryTopic == w.retryTopic && v.deadLetters == w.deadLetters
            && v.consumers[c]
               == Consumer(k.partition, k.position + 1, if round.commit.NoFault? then Fetching else Stopped)
  {
    ReceivingLeadsTo(w, c, round);
    OpenedMessageIsHandled(Received(w, c), c, round);
  }

  /** The message is refused for good or has no attempt left, or cannot even be opened. */
  predicate GivenUp(w: World, m: Message, round: Round) {
    !m.wellFormed || (!round.ok && (round.permanent || RetryAttempt(m.headers) >= w.maxAttempts))
  }

  lemma FailedMessageIsRouted(w: World, c: nat, m: Message, round: Round)
    requires Ready(w, c) && w.consumers[c].phase == Routing(m, round.permanent) && !round.ok && m.wellFormed
    ensures var v, k := Finish(w, c, round), w.consumers[c];
            && v.claims == w.claims && v.committed == w.committed && v.succeeded == w.succeeded
            && if GivenUp(w, m, round) then
                 && v.deadLetters == (if round.deadLetter.Applies() then w.deadLetters + [m] else w.deadLetters)
                 && v.retryTopic == w.retryTopic && v.consumers[c] == k.(phase := Stopped)
               else
                 && v.retryTopic == (if round.enqueue.Applies() then w.retryTopic + [RetryCopy(m)] else w.retryTopic)
                 && v.deadLetters == w.deadLetters
                 && v.consumers[c] == k.(phase := if round.enqueue.NoFault? then Fetching else Stopped)
  {
    if GivenUp(w, m, round) {
      assert Finish(w, c, round) == Step(w, DeadLetter(c, round.deadLetter));
    } else {
      assert Finish(w, c, round) == Step(w, Enqueue(c, round.enqueue));
    }
  }

  lemma OpenedMessageFails(w: World, c: nat, m: Message, round: Round)
    requires Ready(w, c) && w.consumers[c].phase == Unwrapping(m) && m.wellFormed && !round.ok
    ensures var k := w.consumers[c];
            Finish(w, c, round)
            == Finish(w.(consumers := w.consumers[c := k.(phase := Routing(m, round.permanent))],
                         claims := if w.useDb && round.release.Applies() then w.claims - {m.eventId} else w.claims),
                      c, round)
  {
    var w1 := Step(w, Unwrap(c));
    var w2 := Step(w1, Reply(c, false, round.permanent));
    assert Finish(w, c, round) == Finish(w1, c, round);
    assert Finish(w1, c, round) == Finish(w2, c, round);
    var w3 := if w.useDb then Step(w2, Release(c, round.release)) else w2;
    assert Finish(w2, c, round) == Finish(w3, c, round);
    assert w3.consumers == w.consumers[c := w.consumers[c].(phase := Routing(m, round.permanent))];
  }

  /**
   * A failed handler call, whatever the fate of the calls after it: nothing is committed;
   * the claim is gone if its release arrives. The message goes to the dead letters, and the
   * session ends, exactly if it is given up; otherwise its next attempt goes to the retry
   * topic, and the loop goes on if that is answered.
   */
  lemma FailedPass(w: World, c: nat, round: Round)
    requires Receives(w, c, round) && NextMessage(w, w.consumers[c]).value.wellFormed && !round.ok
    ensures var k, v, m := w.consumers[c], Finish(w, c, round), NextMessage(w, w.consumers[c]).value;
            && v.committed == w.committed && v.succeeded == w.succeeded
            && v.claims == (if w.useDb && !round.release.Applies() then w.claims + {m.eventId} else w.claims)
            && if round.permanent || RetryAttempt(m.headers) >= w.maxAttempts then
                 && v.deadLetters == (if round.deadLetter.Applies() then w.deadLetters + [m] else w.deadLetters)
                 && v.retryTopic == w.retryTopic && v.consumers[c] == Consumer(k.partition, k.position + 1, Stopped)
               else
                 && v.retryTopic == (if round.enqueue.Applies() then w.retryTopic + [RetryCopy(m)] else w.retryTopic)
                 && v.deadLetters == w.deadLetters
                 && v.consumers[c]
                    == Consumer(k.partition, k.position + 1, if round.enqueue.NoFault? then Fetching else Stopped)
  {
    var m, u := NextMessage(w, w.consumers[c]).value, Received(w, c);
    ReceivingLeadsTo(w, c, round);
    OpenedMessageFails(u, c, m, round);
    var failed := u.(consumers := u.consumers[c := u.consumers[c].(phase := Routing(m, round.permanent))],
                     claims := if w.useDb && round.release.Applies() then u.claims - {m.eventId} else u.claims);
    FailedMessageIsRouted(failed, c, m, round);
    assert m.eventId !in w.claims ==> w.claims + {m.eventId} - {m.eventId} == w.claims;
  }

  /** A failure worth retrying is retried: with these calls answered the copy is queued and the loop goes on. */
  lemma RetriedPass(w: World, c: nat, round: Round)
    requires Receives(w, c, round) && NextMessage(w, w.consumers[c]).value.wellFormed && !round.ok
    requires (w.useDb ==> round.release.Applies()) && round.enqueue.NoFault? && round.deadLetter.NoFault?
    ensures var k, v, m := w.consumers[c], Finish(w, c, round), NextMessage(w, w.consumers[c]).value;
            && (v.deadLetters == w.deadLetters + [m] <==> GivenUp(w, m, round))
            && (v.retryTopic == w.retryTopic + [RetryCopy(m)] <==> !GivenUp(w, m, round))
            && (v.consumers[c] == Consumer(k.partition, k.position + 1, Fetching) <==> !GivenUp(w, m, round))
            && v.claims == w.claims && v.committed == w.committed && v.succeeded == w.succeeded
  {
    FailedPass(w, c, round);
    var m := NextMessage(w, w.consumers[c]).value;
    assert |w.deadLetters + [m]| != |w.deadLetters| && |w.retryTopic + [RetryCopy(m)]| != |w.retryTopic|;
  }

  /** A message whose envelope does not open goes to the dead letters, ends the session and keeps its claim. */
  lemma MalformedPass(w: World, c: nat, round: Round)
    requires Receives(w, c, round) && !NextMessage(w, w.consumers[c]).value.wellFormed
    ensures var k, v, m := w.consumers[c], Finish(w, c, round), NextMessage(w, w.consumers[c]).value;
            && v.deadLetters == (if round.deadLetter.Applies() then w.deadLetters + [m] else w.deadLetters)
            && v.claims == (if w.useDb then w.claims + {m.eventId} else w.claims)
            && v.committed == w.committed && v.succeeded == w.succeeded && v.retryTopic == w.retryTopic
            && v.consumers[c] == Consumer(k.partition, k.position + 1, Stopped)
  {
    var u := Received(w, c);
    ReceivingLeadsTo(w, c, round);
    assert Finish(u, c, round) == Finish(Step(u, Unwrap(c)), c, round);
    assert Finish(Step(u, Unwrap(c)), c, round) == Step(Step(u, Unwrap(c)), DeadLetter(c, round.deadLetter));
  }

  /** A message whose event is claimed already is passed over without a commit. */
  lemma ClaimedMessageIsSkipped(w: World, c: nat, round: Round)
    requires Ready(w, c) && w.consumers[c].phase.Fetching? && w.useDb && round.fetched && round.claim.NoFault?
    requires var next := NextMessage(w, w.consumers[c]); next.Some? && next.value.eventId in w.claims
    ensures var k, v := w.consumers[c], Finish(w, c, round);
            && v.committed == w.committed && v.logs == w.logs && v.useDb == w.useDb && v.claims == w.claims
            && v.deadLetters == w.deadLetters && v.succeeded == w.succeeded
            && v.consumers[c] == Consumer(k.partition, k.position + 1, Fetching)
  {
    var w1 := Step(w, Fetch(c));
    assert Finish(w, c, round) == Finish(w1, c, round);
    assert Finish(w1, c, round) == Step(w1, Claim(c, round.claim));
  }

  // ------------------------------------------------------------ good messages

  predicate AllGoes(round: Round) {
    round.fetched && round.ok && round.claim.NoFault? && round.commit.NoFault?
  }

  /**
   * A pass in which nothing fails handles a new event once and commits the offset behind
   * its message, so that a later session starts with the next one.
   */
  lemma GoodPassCommits(w: World, c: nat, round: Round)
    requires Ready(w, c) && w.consumers[c].phase.Fetching? && AllGoes(round)
    requires var next := NextMessage(w, w.consumers[c]);
             next.Some? && next.value.wellFormed && (w.useDb ==> next.value.eventId !in w.claims)
    ensures var k, v := w.consumers[c], Finish(w, c, round);
            var e := NextMessage(w, k).value.eventId;
            && v.committed == w.committed[k.partition := k.position + 1]
            && v.succeeded == w.succeeded + [e]
            && v.claims == w.claims + (if w.useDb then {e} else {})
            && v.retryTopic == w.retryTopic && v.deadLetters == w.deadLetters
            && v.logs == w.logs && v.useDb == w.useDb
            && v.consumers[c] == Consumer(k.partition, k.position + 1, Fetching)
  {
    HandledPass(w, c, round);
    FinishKeepsLogs(w, c, round);
    assert w.claims + {} == w.claims;
  }

  function EventIds(ms: seq<Message>): seq<string> {
    seq(|ms|, i requires 0 <= i < |ms| => ms[i].eventId)
  }

  /** Well-formed messages of different events, none of which is claimed. */
  predicate Fresh(w: World, ms: seq<Message>) {
    && (forall i :: 0 <= i < |ms| ==> ms[i].wellFormed && (w.useDb ==> ms[i].eventId !in w.claims))
    && (w.useDb ==> forall i, j :: 0 <= i < j < |ms| ==> ms[i].eventId != ms[j].eventId)
  }

  lemma RestStaysFresh(w: World, v: World, ms: seq<Message>)
    requires ms != [] && Fresh(w, ms) && v.useDb == w.useDb
    requires v.claims == w.claims + (if w.useDb then {ms[0].eventId} else {})
    ensures Fresh(v, ms[1..])
  {
  }

  predicate CanRead(w: World, c: nat, n: nat) {
    && Ready(w, c) && w.consumers[c].phase.Fetching?
    && var k := w.consumers[c]; k.partition < |w.logs| && k.position + n <= |w.logs[k.partition]|
  }

  /** The next `n` messages that the consumer fetches. */
  function Upcoming(w: World, c: nat, n: nat): (ms: seq<Message>)
    requires CanRead(w, c, n)
    ensures |ms| == n && (n > 0 ==> NextMessage(w, w.consumers[c]) == Some(ms[0]))
  {
    var k := w.consumers[c];
    w.logs[k.partition][k.position..k.position + n]
  }

  /** From `w` to `v` the consumer handled and committed these messages, and nothing else happened. */
  ghost predicate HandledInOrder(w: World, v: World, c: nat, ms: seq<Message>)
    requires CanRead(w, c, |ms|)
  {
    var k := w.consumers[c];
    && v.succeeded == w.succeeded + EventIds(ms)
    && v.committed == (if ms == [] then w.committed else w.committed[k.partition := k.position + |ms|])
    && v.deadLetters == w.deadLetters && v.retryTopic == w.retryTopic
    && c in v.consumers && v.consumers[c] == Consumer(k.partition, k.position + |ms|, Fetching)
  }

  lemma FirstPassCommits(w: World, c: nat, round: Round, n: nat)
    requires n > 0 && CanRead(w, c, n) && Fresh(w, Upcoming(w, c, n)) && AllGoes(round)
    ensures var v, ms := Finish(w, c, round), Upcoming(w, c, n);
            && CanRead(v, c, n - 1) && Upcoming(v, c, n - 1) == ms[1..] && Fresh(v, ms[1..])
            && HandledInOrder(w, v, c, [ms[0]])
  {
    var ms := Upcoming(w, c, n);
    GoodPassCommits(w, c, round);
    RestStaysFresh(w, Finish(w, c, round), ms);
  }

  lemma HandledFurther(w: World, u: World, v: World, c: nat, ms: seq<Message>)
    requires ms != [] && CanRead(w, c, |ms|) && CanRead(u, c, |ms| - 1)
    requires HandledInOrder(w, u, c, [ms[0]]) && HandledInOrder(u, v, c, ms[1..])
    ensures HandledInOrder(w, v, c, ms)
  {
    assert EventIds(ms) == EventIds([ms[0]]) + EventIds(ms[1..]);
  }

  /**
   * A session of passes in which nothing fails handles the next messages of the
   * partition, each once and in their order, and commits the offset behind the last.
   */
  lemma {:induction false} GoodSessionCommits(w: World, c: nat, rounds: seq<Round>)
    requires CanRead(w, c, |rounds|) && Fresh(w, Upcoming(w, c, |rounds|))
    requires forall i :: 0 <= i < |rounds| ==> AllGoes(rounds[i])
    ensures HandledInOrder(w, Loop(w, c, rounds), c, Upcoming(w, c, |rounds|))
    decreases |rounds|
  {
    var ms := Upcoming(w, c, |rounds|);
    if rounds != [] {
      var u := Finish(w, c, rounds[0]);
      FirstPassCommits(w, c, rounds[0], |rounds|);
      GoodSessionCommits(u, c, rounds[1..]);
      HandledFurther(w, u, Loop(u, c, rounds[1..]), c, ms);
    }
  }

  // ---------------------------------------------------------- poison messages

  /** One session of consumer `c` on partition `p` that makes one pass. */
  function Session(w: World, c: nat, p: nat, round: Round): World
    requires Rests(w, c) && !Running(w, c) && p < |w.logs| && p < |w.committed|
  {
    Finish(Step(w, Assign(c, p)), c, round)
  }

  /** Sessions of the same consumer, each started after the last one returned. */
  function Sessions(w: World, c: nat, p: nat, rounds: seq<Round>): (v: World)
    requires Rests(w, c) && p < |w.logs| && p < |w.committed|
    decreases |rounds|
  {
    if rounds == [] || Running(w, c) then w
    else
      var v := Session(w, c, p, rounds[0]);
      if p < |v.logs| then Sessions(v, c, p, rounds[1..]) else v
  }

  /** The pass gives the message up, and what it does about claim and dead letter goes through. */
  predicate Refuses(w: World, m: Message, round: Round) {
    && round.fetched && round.deadLetter.Applies() && GivenUp(w, m, round)
    && (w.useDb ==> m.eventId !in w.claims && round.claim.NoFault? && round.release.Applies())
  }

  /** A message that is given up is dead-lettered and not committed; only a malformed one keeps its claim. */
  lemma RefusedMessageStays(w: World, c: nat, p: nat, round: Round)
    requires Rests(w, c) && !Running(w, c) && p < |w.logs| && p < |w.committed|
    requires w.committed[p] < |w.logs[p]| && Refuses(w, w.logs[p][w.committed[p]], round)
    ensures var m := w.logs[p][w.committed[p]];
            var v := Session(w, c, p, round);
            && v.committed == w.committed && v.logs == w.logs && v.useDb == w.useDb && v.maxAttempts == w.maxAttempts
            && v.claims == (if w.useDb && !m.wellFormed then w.claims + {m.eventId} else w.claims)
            && v.deadLetters == w.deadLetters + [m] && v.succeeded == w.succeeded && !Running(v, c)
  {
    var started := Step(w, Assign(c, p));
    assert NextMessage(started, started.consumers[c]) == Some(w.logs[p][w.committed[p]]);
    FinishKeepsLogs(started, c, round);
    if w.logs[p][w.committed[p]].wellFormed {
      FailedPass(started, c, round);
    } else {
      MalformedPass(started, c, round);
    }
  }

  /**
   * Dead-lettering does not commit: a message at the committed offset that every session
   * gives up, because it is refused for good or out of attempts, or is malformed and there
   * is no claim table, is dead-lettered once per session and stays where it is.
   */
  lemma {:induction false} PoisonMessageRepeats(w: World, c: nat, p: nat, rounds: seq<Round>)
    requires Rests(w, c) && !Running(w, c) && p < |w.logs| && p < |w.committed|
    requires w.committed[p] < |w.logs[p]|
    requires var m := w.logs[p][w.committed[p]];
             && (m.wellFormed || !w.useDb)
             && forall i :: 0 <= i < |rounds| ==> Refuses(w, m, rounds[i])
    ensures var m, v := w.logs[p][w.committed[p]], Sessions(w, c, p, rounds);
            v.committed == w.committed && v.deadLetters == w.deadLetters + seq(|rounds|, _ => m)
    decreases |rounds|
  {
    if rounds != [] {
      RefusedMessageStays(w, c, p, rounds[0]);
      PoisonMessageRepeats(Session(w, c, p, rounds[0]), c, p, rounds[1..]);
    }
  }

  /**
   * A malformed message is different when there is a claim table: its claim is not
   * released, so the next session skips it as a duplicate, and the first commit after
   * that passes it for good.
   */
  lemma MalformedMessageIsPassed(w: World, c: nat, p: nat, first: Round, second: Round, third: Round)
    returns (v: World)
    requires Rests(w, c) && !Running(w, c) && p < |w.logs| && p < |w.committed| && w.useDb
    requires w.committed[p] + 1 < |w.logs[p]|
    requires var m, n := w.logs[p][w.committed[p]], w.logs[p][w.committed[p] + 1];
             && !m.wellFormed && Refuses(w, m, first)
             && n.wellFormed && n.eventId != m.eventId && n.eventId !in w.claims
    requires second.fetched && second.claim.NoFault? && AllGoes(third)
    ensures var m, n := w.logs[p][w.committed[p]], w.logs[p][w.committed[p] + 1];
            && Enabled(Session(w, c, p, first), Assign(c, p))
            && v == Loop(Step(Session(w, c, p, first), Assign(c, p)), c, [second, third])
            && v.committed == w.committed[p := w.committed[p] + 2]
            && v.deadLetters == w.deadLetters + [m] && v.succeeded == w.succeeded + [n.eventId]
  {
    var m := w.logs[p][w.committed[p]];
    RefusedMessageStays(w, c, p, first);
    var w1 := Step(Session(w, c, p, first), Assign(c, p));
    assert NextMessage(w1, w1.consumers[c]) == Some(m);
    ClaimedMessageIsSkipped(w1, c, second);
    var w2 := Finish(w1, c, second);
    GoodPassCommits(w2, c, third);
    v := Loop(w1, c, [second, third]);
    assert [second, third][1..] == [third] && [third][1..] == [];
    assert Loop(w1, c, [second, third]) == Loop(w2, c, [third]);
    assert Loop(w2, c, [third]) == Loop(Finish(w2, c, third), c, []);
  }

  /** Every action is one of consumer `c`. */
  ghost predicate OnlyBy(trace: seq<Action>, c: nat) {
    forall i :: 0 <= i < |trace| ==> !trace[i].Append? && trace[i].c == c
  }
}
