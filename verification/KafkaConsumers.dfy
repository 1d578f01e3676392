/**
 * Kafka consumers that share one claim table. Any number of consumers read any
 * partitions; each works through the steps of the consume loop, may fail or crash at
 * every one of them, and starts again from the committed offset.
 */
module KafkaConsumers {
  import opened Wrappers
  import opened Domain
  import opened RetryHeaders

  /** A message, with the event id that its bytes decode or hash to, and whether its envelope opens. */
  datatype Message = Message(eventId: string, wellFormed: bool, headers: seq<Header>)

  datatype Phase =
    | Stopped | Fetching
    | Claiming(m: Message) | Unwrapping(m: Message) | Handling(m: Message)
    | Releasing(m: Message, permanent: bool) | Routing(m: Message, permanent: bool)
    | DeadLettering(m: Message) | Committing(m: Message)

  /** `position` is the offset of the next fetch, so a message in work has the offset before it. */
  datatype Consumer = Consumer(partition: nat, position: nat, phase: Phase)

  /** What became of a delivered offset when the consumer moved past it. */
  datatype How = Handled | Retried | Skipped

  datatype Settled = Settled(partition: nat, offset: nat, how: How)

  /** `everClaimed`, `succeeded` and `settled` are records of the run. */
  datatype World = World(
    useDb: bool, maxAttempts: int,
    logs: seq<seq<Message>>, committed: seq<nat>, consumers: map<nat, Consumer>,
    claims: set<string>, retryTopic: seq<Message>, deadLetters: seq<Message>,
    everClaimed: set<string>, succeeded: seq<string>, settled: set<Settled>)

  datatype Action =
    | Append(p: nat, m: Message)
    | Assign(c: nat, p: nat)
    | Crash(c: nat)
    | FetchFail(c: nat)
    | Fetch(c: nat)
    | Claim(c: nat, f: Fault)
    | Unwrap(c: nat)
    | Reply(c: nat, ok: bool, permanent: bool)
    | Release(c: nat, f: Fault)
    | Enqueue(c: nat, f: Fault)
    | DeadLetter(c: nat, f: Fault)
    | Commit(c: nat, f: Fault)

  function Initial(useDb: bool, maxAttempts: int, partitions: nat): World {
    World(useDb, maxAttempts, seq(partitions, _ => []), seq(partitions, _ => 0), map[],
          {}, [], [], {}, [], {})
  }

  predicate Running(w: World, c: nat) {
    c in w.consumers && !w.consumers[c].phase.Stopped?
  }

  predicate InWork(p: Phase) {
    !p.Stopped? && !p.Fetching?
  }

  /** The handler failed in a way that is worth another attempt, and attempts are left. */
  predicate Retries(w: World, p: Phase) {
    p.Routing? && !p.permanent && RetryAttempt(p.m.headers) < w.maxAttempts
  }

  predicate GivesUp(w: World, p: Phase) {
    p.DeadLettering? || (p.Routing? && !Retries(w, p))
  }

  function NextMessage(w: World, k: Consumer): Option<Message> {
    if k.partition < |w.logs| && k.position < |w.logs[k.partition]| then Some(w.logs[k.partition][k.position])
    else None
  }

  function RetryCopy(m: Message): Message {
    m.(headers := Stamp(m.headers, RetryAttempt(m.headers) + 1))
  }

  predicate Enabled(w: World, a: Action) {
    match a
    case Append(p, _) => p < |w.logs|
    case Assign(c, p) => !Running(w, c) && p < |w.logs| && p < |w.committed|
    case Crash(c) => Running(w, c)
    case FetchFail(c) => c in w.consumers && w.consumers[c].phase.Fetching?
    case Fetch(c) => c in w.consumers && w.consumers[c].phase.Fetching? && NextMessage(w, w.consumers[c]).Some?
    case Claim(c, _) => c in w.consumers && w.consumers[c].phase.Claiming?
    case Unwrap(c) => c in w.consumers && w.consumers[c].phase.Unwrapping?
    case Reply(c, _, _) => c in w.consumers && w.consumers[c].phase.Handling?
    case Release(c, _) => c in w.consumers && w.consumers[c].phase.Releasing?
    case Enqueue(c, _) => c in w.consumers && Retries(w, w.consumers[c].phase)
    case DeadLetter(c, _) => c in w.consumers && GivesUp(w, w.consumers[c].phase)
    case Commit(c, _) =>
      c in w.consumers && w.consumers[c].phase.Committing? && w.consumers[c].partition < |w.committed|
  }

  function Goto(w: World, c: nat, phase: Phase): World
    requires c in w.consumers
  {
    w.(consumers := w.consumers[c := w.consumers[c].(phase := phase)])
  }

  /** Record that consumer `c` moved past its current offset. */
  function Settle(w: World, c: nat, how: How): World
    requires c in w.consumers
  {
    var k := w.consumers[c];
    if k.position == 0 then w else w.(settled := w.settled + {Settled(k.partition, k.position - 1, how)})
  }

  function Step(w: World, a: Action): World
    requires Enabled(w, a)
  {
    match a
    case Append(p, m) => w.(logs := w.logs[p := w.logs[p] + [m]])
    case Assign(c, p) => w.(consumers := w.consumers[c := Consumer(p, w.committed[p], Fetching)])
    case Crash(c) => Goto(w, c, Stopped)
    case FetchFail(c) => Goto(w, c, Stopped)
    case Fetch(c) =>
      var k := w.consumers[c];
      var m := NextMessage(w, k).value;
      w.(consumers := w.consumers[c := Consumer(k.partition, k.position + 1,
                                                if w.useDb then Claiming(m) else Unwrapping(m))])
    case Claim(c, f) =>
      var m := w.consumers[c].phase.m;
      var claimed := w.(claims := w.claims + {m.eventId}, everClaimed := w.everClaimed + {m.eventId});
      (match f
       case Lost => Goto(w, c, Stopped)
       case ReplyLost => Goto(claimed, c, Stopped)
       case NoFault =>
         if m.eventId in w.claims then Goto(Settle(w, c, Skipped), c, Fetching)
         else Goto(claimed, c, Unwrapping(m)))
    case Unwrap(c) =>
      var m := w.consumers[c].phase.m;
      Goto(w, c, if m.wellFormed then Handling(m) else DeadLettering(m))
    case Reply(c, ok, permanent) =>
      var m := w.consumers[c].phase.m;
      if ok then Goto(Settle(w.(succeeded := w.succeeded + [m.eventId]), c, Handled), c, Committing(m))
      else Goto(w, c, if w.useDb then Releasing(m, permanent) else Routing(m, permanent))
    case Release(c, f) =>
      var ph := w.consumers[c].phase;
      Goto(if f.Applies() then w.(claims := w.claims - {ph.m.eventId}) else w, c, Routing(ph.m, ph.permanent))
    case Enqueue(c, f) =>
      var m := w.consumers[c].phase.m;
      var queued := if f.Applies() then w.(retryTopic := w.retryTopic + [RetryCopy(m)]) else w;
      if f.NoFault? then Goto(Settle(queued, c, Retried), c, Fetching) else Goto(queued, c, Stopped)
    case DeadLetter(c, f) =>
      var m := w.consumers[c].phase.m;
      Goto(if f.Applies() then w.(deadLetters := w.deadLetters + [m]) else w, c, Stopped)
    case Commit(c, f) =>
      var k := w.consumers[c];
      var done := if f.Applies() then w.(committed := w.committed[k.partition := k.position]) else w;
      Goto(done, c, if f.NoFault? then Fetching else Stopped)
  }

  /** A step moves one consumer at most. */
  lemma OnlyStepperMoves(w: World, a: Action, c: nat)
    requires Enabled(w, a) && (a.Append? || c != a.c)
    ensures c in Step(w, a).consumers <==> c in w.consumers
    ensures c in w.consumers ==> Step(w, a).consumers[c] == w.consumers[c]
  {
  }

  /** `trace` is a run from `from` to `to`. */
  ghost predicate Leads(from: World, trace: seq<Action>, to: World)
    decreases |trace|
  {
    if trace == [] then from == to
    else Enabled(from, trace[0]) && Leads(Step(from, trace[0]), trace[1..], to)
  }

  lemma {:induction false} LeadsOneMore(from: World, trace: seq<Action>, to: World, a: Action)
    requires Leads(from, trace, to) && Enabled(to, a)
    ensures Leads(from, trace + [a], Step(to, a))
    decreases |trace|
  {
    var more := trace + [a];
    if trace == [] {
      assert more[1..] == [];
    } else {
      assert more[1..] == trace[1..] + [a];
      LeadsOneMore(Step(from, trace[0]), trace[1..], to, a);
    }
  }

  lemma Extend(from: World, trace: seq<Action>, to: World, a: Action) returns (more: seq<Action>, next: World)
    requires Leads(from, trace, to) && Enabled(to, a)
    ensures more == trace + [a] && next == Step(to, a) && Leads(from, more, next)
  {
    more, next := trace + [a], Step(to, a);
    LeadsOneMore(from, trace, to, a);
  }

  lemma {:induction false} LeadsFurther(from: World, first: seq<Action>, mid: World, second: seq<Action>, to: World)
    requires Leads(from, first, mid) && Leads(mid, second, to)
    ensures Leads(from, first + second, to)
    decreases |first|
  {
    if first == [] {
      assert first + second == second;
    } else {
      assert (first + second)[1..] == first[1..] + second;
      LeadsFurther(Step(from, first[0]), first[1..], mid, second, to);
    }
  }
}
