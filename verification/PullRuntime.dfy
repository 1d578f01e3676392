/**
 * The NATS pull-consumer runtime: one fetcher, a bounded channel of jobs, N workers,
 * a wait group and a cancellation signal. Each goroutine advances by atomic steps and
 * the scheduler may interleave them in any way.
 */
module PullRuntime {
  import opened Wrappers
  import opened PullPlan

  datatype Message = Message(subject: string, data: string)

  /** Where a worker is; `k` counts the messages taken from the channel so far. */
  datatype Worker = Selecting | Handling(k: nat) | Settling(k: nat, ok: bool) | Returning | Done

  datatype Fetcher =
    | NotStarted | Checking | Planning | Fetching | BackingOff | Dispatching | Waiting | Closing | Exited

  /** The acknowledgement attempted for the k-th taken message: Ack or Nak. */
  datatype Settlement = Settlement(k: nat, ack: bool)

  /**
   * `rest` is the part of the fetched batch not yet sent, `fetched` and `taken` are all
   * messages fetched and received so far, `replies` what the handler answered for them.
   * `start` and `checks` are the clock at launch and the adaptive checks made since.
   */
  datatype State = State(
    cfg: Config, cancelled: bool, jobs: seq<Message>, closes: nat,
    fetcher: Fetcher, plan: Plan, lastCheck: int, start: int, checks: seq<Check>,
    rest: seq<Message>, fetched: seq<Message>, taken: seq<Message>,
    workers: seq<Worker>, waitGroup: int, replies: map<nat, bool>, settled: seq<Settlement>)

  datatype Action =
    | Cancel
    | Spawn | Launch(now: int)
    | CheckStop | PlanFetch(check: Check) | FetchOk(batch: seq<Message>) | FetchTimeout | FetchFail | Resume
    | Send | StopDispatch | EndDispatch | WaitDone | CloseJobs
    | Stop(w: nat) | Take(w: nat) | SeeClosed(w: nat) | Reply(w: nat, ok: bool) | Settle(w: nat) | Leave(w: nat)

  function Initial(cfg: Config): State {
    State(cfg, false, [], 0, NotStarted, BasePlan(cfg), 0, 0, [], [], [], [], [], 0, map[], [])
  }

  predicate IsWorkerAction(a: Action) {
    a.Stop? || a.Take? || a.SeeClosed? || a.Reply? || a.Settle? || a.Leave?
  }

  predicate Enabled(s: State, a: Action) {
    match a
    case Cancel => !s.cancelled
    case Spawn => s.fetcher.NotStarted? && |s.workers| < s.cfg.workers
    case Launch(_) => s.fetcher.NotStarted? && |s.workers| >= s.cfg.workers
    case CheckStop => s.fetcher.Checking?
    case PlanFetch(_) => s.fetcher.Planning?
    case FetchOk(batch) => s.fetcher.Fetching? && |batch| <= s.plan.batch
    case FetchTimeout => s.fetcher.Fetching?
    case FetchFail => s.fetcher.Fetching?
    case Resume => s.fetcher.BackingOff?
    case Send => s.fetcher.Dispatching? && s.rest != [] && |s.jobs| < s.cfg.queueSize
    case StopDispatch => s.fetcher.Dispatching? && s.rest != [] && s.cancelled
    case EndDispatch => s.fetcher.Dispatching? && s.rest == []
    case WaitDone => s.fetcher.Waiting? && s.waitGroup == 0
    case CloseJobs => s.fetcher.Closing?
    case Stop(w) => w < |s.workers| && s.workers[w].Selecting? && s.cancelled
    case Take(w) => w < |s.workers| && s.workers[w].Selecting? && s.jobs != []
    case SeeClosed(w) => w < |s.workers| && s.workers[w].Selecting? && s.jobs == [] && s.closes > 0
    case Reply(w, _) => w < |s.workers| && s.workers[w].Handling?
    case Settle(w) => w < |s.workers| && s.workers[w].Settling?
    case Leave(w) => w < |s.workers| && s.workers[w].Returning?
  }

  function Apply(s: State, a: Action): State
    requires Enabled(s, a)
  {
    match a
    case Cancel => s.(cancelled := true)
    case Spawn => s.(waitGroup := s.waitGroup + 1, workers := s.workers + [Selecting])
    case Launch(now) => s.(fetcher := Checking, plan := BasePlan(s.cfg), lastCheck := now, start := now)
    case CheckStop => s.(fetcher := if s.cancelled then Waiting else Planning)
    case PlanFetch(check) =>
      s.(fetcher := Fetching, plan := NextPlan(s.cfg, s.plan, s.lastCheck, check),
         lastCheck := CheckedAt(s.cfg, s.lastCheck, check), checks := s.checks + [check])
    case FetchOk(batch) => s.(fetcher := Dispatching, rest := batch, fetched := s.fetched + batch)
    case FetchTimeout => s.(fetcher := Checking)
    case FetchFail => s.(fetcher := BackingOff)
    case Resume => s.(fetcher := Checking)
    case Send => s.(jobs := s.jobs + [s.rest[0]], rest := s.rest[1..])
    case StopDispatch => s.(fetcher := Waiting)
    case EndDispatch => s.(fetcher := Checking)
    case WaitDone => s.(fetcher := Closing)
    case CloseJobs => s.(fetcher := Exited, closes := s.closes + 1)
    case Stop(w) => s.(workers := s.workers[w := Returning])
    case Take(w) =>
      s.(workers := s.workers[w := Handling(|s.taken|)], taken := s.taken + [s.jobs[0]], jobs := s.jobs[1..])
    case SeeClosed(w) => s.(workers := s.workers[w := Returning])
    case Reply(w, ok) =>
      s.(workers := s.workers[w := Settling(s.workers[w].k, ok)], replies := s.replies[s.workers[w].k := ok])
    case Settle(w) =>
      s.(workers := s.workers[w := Selecting],
         settled := s.settled + [Settlement(s.workers[w].k, s.workers[w].ok)])
    case Leave(w) => s.(workers := s.workers[w := Done], waitGroup := s.waitGroup - 1)
  }

  /** `trace` is a run from `from` to `to`. */
  ghost predicate Leads(from: State, trace: seq<Action>, to: State)
    decreases |trace|
  {
    if trace == [] then from == to
    else Enabled(from, trace[0]) && Leads(Apply(from, trace[0]), trace[1..], to)
  }

  ghost predicate Reachable(s: State) {
    exists trace :: Leads(Initial(s.cfg), trace, s)
  }

  // ------------------------------------------------- messages and settlements

  predicate IsBusy(w: Worker) {
    w.Handling? || w.Settling?
  }

  predicate Holds(w: Worker, k: nat) {
    IsBusy(w) && w.k == k
  }

  ghost predicate IsSettled(s: State, k: nat) {
    exists i :: 0 <= i < |s.settled| && s.settled[i].k == k
  }

  ghost predicate IsHeld(s: State, k: nat) {
    exists w :: 0 <= w < |s.workers| && Holds(s.workers[w], k)
  }

  /** Received, queued and undispatched messages are, in this order, all that was fetched. */
  ghost predicate Conserved(s: State) {
    && s.taken + s.jobs + s.rest == s.fetched
    && (s.rest != [] ==> s.fetcher.Dispatching? || s.fetcher.Waiting? || s.fetcher.Closing? || s.fetcher.Exited?)
  }

  /** A worker works on a message of its own that is still unsettled. */
  ghost predicate OwnWork(s: State) {
    && (forall w :: 0 <= w < |s.workers| && IsBusy(s.workers[w]) ==>
          s.workers[w].k < |s.taken| && !IsSettled(s, s.workers[w].k))
    && (forall v, w ::
          0 <= v < |s.workers| && 0 <= w < |s.workers| && v != w && IsBusy(s.workers[v]) ==>
            !Holds(s.workers[w], s.workers[v].k))
  }

  /** Settlements follow the replies, one each, and no received message is forgotten. */
  ghost predicate FairlySettled(s: State) {
    && (forall i, j :: 0 <= i < j < |s.settled| ==> s.settled[i].k != s.settled[j].k)
    && (forall i :: 0 <= i < |s.settled| ==>
          && s.settled[i].k < |s.taken|
          && s.settled[i].k in s.replies && s.settled[i].ack == s.replies[s.settled[i].k])
    && (forall w :: 0 <= w < |s.workers| && s.workers[w].Settling? ==>
          s.workers[w].k in s.replies && s.replies[s.workers[w].k] == s.workers[w].ok)
    && (forall k :: 0 <= k < |s.taken| ==> IsSettled(s, k) || IsHeld(s, k))
  }

  /** The step keeps the messages of the runtime in order, or adds a fetched batch at the end. */
  lemma MessagesByStep(s: State, a: Action)
    requires Enabled(s, a) && (a.FetchOk? ==> s.rest == [])
    ensures var t := Apply(s, a);
            t.taken + t.jobs + t.rest == s.taken + s.jobs + s.rest + if a.FetchOk? then a.batch else []
  {
    if a.Take? {
      assert s.taken + s.jobs == s.taken + [s.jobs[0]] + s.jobs[1..];
    } else if a.Send? {
      assert s.jobs + s.rest == s.jobs + [s.rest[0]] + s.rest[1..];
      assert s.taken + s.jobs + s.rest == s.taken + (s.jobs + s.rest);
      assert s.taken + (s.jobs + [s.rest[0]]) + s.rest[1..] == s.taken + (s.jobs + [s.rest[0]] + s.rest[1..]);
    }
  }

  lemma ConservedByStep(s: State, a: Action)
    requires Conserved(s) && Enabled(s, a)
    ensures Conserved(Apply(s, a))
  {
    MessagesByStep(s, a);
  }

  /** Settling is the only step that adds a settlement. */
  lemma SettledAfterStep(s: State, a: Action, k: nat)
    requires Enabled(s, a)
    ensures IsSettled(Apply(s, a), k) <==> IsSettled(s, k) || (a.Settle? && k == s.workers[a.w].k)
  {
    var t := Apply(s, a);
    if i :| 0 <= i < |s.settled| && s.settled[i].k == k { assert t.settled[i].k == k; }
    if a.Settle? { assert t.settled[|s.settled|].k == s.workers[a.w].k; }
    if i :| 0 <= i < |t.settled| && t.settled[i].k == k { assert i < |s.settled| ==> s.settled[i].k == k; }
  }

  /** Only receiving gives a worker a message that it did not have. */
  lemma HeldAfterStep(s: State, a: Action, w: nat)
    requires Enabled(s, a) && w < |Apply(s, a).workers| && IsBusy(Apply(s, a).workers[w])
    ensures if a.Take? && a.w == w then Apply(s, a).workers[w].k == |s.taken|
            else w < |s.workers| && IsBusy(s.workers[w]) && Apply(s, a).workers[w].k == s.workers[w].k
    ensures !(a.Settle? && a.w == w)
  {
  }

  lemma OwnWorkOf(s: State, a: Action, w: nat)
    requires OwnWork(s) && FairlySettled(s) && Enabled(s, a)
    requires w < |Apply(s, a).workers| && IsBusy(Apply(s, a).workers[w])
    ensures var t := Apply(s, a); t.workers[w].k < |t.taken| && !IsSettled(t, t.workers[w].k)
  {
    HeldAfterStep(s, a, w);
    SettledAfterStep(s, a, Apply(s, a).workers[w].k);
    if a.Take? && a.w == w {
      assert !IsSettled(s, |s.taken|);
    } else if a.Settle? {
      assert !Holds(s.workers[w], s.workers[a.w].k);
    }
  }

  lemma OwnWorkByStep(s: State, a: Action)
    requires OwnWork(s) && FairlySettled(s) && Enabled(s, a)
    ensures OwnWork(Apply(s, a))
  {
    var t := Apply(s, a);
    forall w | 0 <= w < |t.workers| && IsBusy(t.workers[w])
      ensures t.workers[w].k < |t.taken| && !IsSettled(t, t.workers[w].k)
    {
      OwnWorkOf(s, a, w);
    }
    forall v, w | 0 <= v < |t.workers| && 0 <= w < |t.workers| && v != w && IsBusy(t.workers[v])
      ensures !Holds(t.workers[w], t.workers[v].k)
    {
      HeldAfterStep(s, a, v);
      if IsBusy(t.workers[w]) {
        HeldAfterStep(s, a, w);
        assert v < |s.workers| && w < |s.workers| && IsBusy(s.workers[v]) ==> !Holds(s.workers[w], s.workers[v].k);
      }
    }
  }

  lemma NoneForgottenByStep(s: State, a: Action, k: nat)
    requires Enabled(s, a) && k < |Apply(s, a).taken|
    requires k < |s.taken| ==> IsSettled(s, k) || IsHeld(s, k)
    ensures IsSettled(Apply(s, a), k) || IsHeld(Apply(s, a), k)
  {
    var t := Apply(s, a);
    if k == |s.taken| {
      assert Holds(t.workers[a.w], k);
    } else if IsSettled(s, k) {
      var i :| 0 <= i < |s.settled| && s.settled[i].k == k;
      assert t.settled[i].k == k;
    } else {
      var w :| 0 <= w < |s.workers| && Holds(s.workers[w], k);
      if a.Settle? && a.w == w {
        assert t.settled[|s.settled|].k == k;
      } else {
        assert Holds(t.workers[w], k);
      }
    }
  }

  lemma SettlementsStayFair(s: State, a: Action)
    requires OwnWork(s) && FairlySettled(s) && Enabled(s, a)
    ensures var t := Apply(s, a);
            && (forall i, j :: 0 <= i < j < |t.settled| ==> t.settled[i].k != t.settled[j].k)
            && (forall i :: 0 <= i < |t.settled| ==>
                  && t.settled[i].k < |t.taken|
                  && t.settled[i].k in t.replies && t.settled[i].ack == t.replies[t.settled[i].k])
  {
    var t := Apply(s, a);
    match a
    case Settle(w) =>
      assert t.settled[..|s.settled|] == s.settled && !IsSettled(s, s.workers[w].k);
    case Reply(w, _) =>
      assert !IsSettled(s, s.workers[w].k);
    case _ =>
  }

  lemma RepliesStayKnown(s: State, a: Action, w: nat)
    requires OwnWork(s) && FairlySettled(s) && Enabled(s, a)
    requires w < |Apply(s, a).workers| && Apply(s, a).workers[w].Settling?
    ensures var t := Apply(s, a); t.workers[w].k in t.replies && t.replies[t.workers[w].k] == t.workers[w].ok
  {
    if a.Reply? && a.w != w { assert !Holds(s.workers[w], s.workers[a.w].k); }
  }

  lemma FairlySettledByStep(s: State, a: Action)
    requires OwnWork(s) && FairlySettled(s) && Enabled(s, a)
    ensures FairlySettled(Apply(s, a))
  {
    var t := Apply(s, a);
    SettlementsStayFair(s, a);
    forall w | 0 <= w < |t.workers| && t.workers[w].Settling?
      ensures t.workers[w].k in t.replies && t.replies[t.workers[w].k] == t.workers[w].ok
    {
      RepliesStayKnown(s, a, w);
    }
    forall k | 0 <= k < |t.taken| ensures IsSettled(t, k) || IsHeld(t, k) { NoneForgottenByStep(s, a, k); }
  }

  // --------------------------------------------------- wait group and channel

  function Sum(ws: seq<Worker>, f: Worker -> nat): nat {
    if ws == [] then 0 else Sum(ws[..|ws| - 1], f) + f(ws[|ws| - 1])
  }

  lemma {:induction false} SumAfterUpdate(ws: seq<Worker>, f: Worker -> nat, w: nat, p: Worker)
    requires w < |ws|
    ensures Sum(ws[w := p], f) == Sum(ws, f) - f(ws[w]) + f(p)
  {
    var last := |ws| - 1;
    if w == last {
      assert ws[w := p][..last] == ws[..last];
    } else {
      assert ws[w := p][..last] == ws[..last][w := p];
      SumAfterUpdate(ws[..last], f, w, p);
    }
  }

  lemma SumAfterSpawn(ws: seq<Worker>, f: Worker -> nat, w: Worker)
    ensures Sum(ws + [w], f) == Sum(ws, f) + f(w)
  {
    assert (ws + [w])[..|ws|] == ws;
  }

  function Alive(w: Worker): nat {
    if w.Done? then 0 else 1
  }

  function Live(ws: seq<Worker>): nat {
    Sum(ws, Alive)
  }

  lemma {:induction false} NoneLive(ws: seq<Worker>)
    ensures Live(ws) == 0 <==> forall w :: 0 <= w < |ws| ==> ws[w].Done?
  {
    if ws != [] {
      var init := ws[..|ws| - 1];
      NoneLive(init);
      assert forall w :: 0 <= w < |init| ==> init[w] == ws[w];
    }
  }

  predicate ShuttingDown(f: Fetcher) {
    f.Waiting? || f.Closing? || f.Exited?
  }

  /** The wait group counts the live workers, and it alone lets the channel be closed. */
  ghost predicate Coordinated(s: State) {
    && s.waitGroup == Live(s.workers)
    && (s.fetcher.NotStarted? ==> |s.workers| == 0 || |s.workers| <= s.cfg.workers)
    && (!s.fetcher.NotStarted? ==> |s.workers| == if s.cfg.workers > 0 then s.cfg.workers else 0)
    && |s.jobs| <= (if s.cfg.queueSize > 0 then s.cfg.queueSize else 0)
    && s.closes == (if s.fetcher.Exited? then 1 else 0)
    && (s.fetcher.Closing? || s.fetcher.Exited? ==> s.waitGroup == 0)
    && (ShuttingDown(s.fetcher) ==> s.cancelled)
    && (forall w :: 0 <= w < |s.workers| && (s.workers[w].Returning? || s.workers[w].Done?) ==> s.cancelled)
  }

  lemma CoordinatedByWorker(s: State, a: Action)
    requires Coordinated(s) && Enabled(s, a) && IsWorkerAction(a)
    ensures Coordinated(Apply(s, a))
  {
    var t := Apply(s, a);
    SumAfterUpdate(s.workers, Alive, a.w, t.workers[a.w]);
    NoneLive(s.workers);
    assert forall w :: 0 <= w < |s.workers| && w != a.w ==> t.workers[w] == s.workers[w];
  }

  lemma CoordinatedBySpawn(s: State)
    requires Coordinated(s) && Enabled(s, Spawn)
    ensures Coordinated(Apply(s, Spawn))
  {
    var t := Apply(s, Spawn);
    SumAfterSpawn(s.workers, Alive, Selecting);
    assert forall w :: 0 <= w < |s.workers| ==> t.workers[w] == s.workers[w];
  }

  lemma CoordinatedByStep(s: State, a: Action)
    requires Coordinated(s) && Enabled(s, a)
    ensures Coordinated(Apply(s, a))
  {
    if IsWorkerAction(a) {
      CoordinatedByWorker(s, a);
    } else if a.Spawn? {
      CoordinatedBySpawn(s);
    }
  }

  // ------------------------------------------------- plan and work in progress

  function Working(w: Worker): nat {
    if IsBusy(w) then 1 else 0
  }

  /** The plan is the one in force, and no batch is larger than it asks for. */
  ghost predicate Planned(s: State) {
    && (s.fetcher.NotStarted? ==> s.checks == [])
    && s.lastCheck == LastCheckAt(s.cfg, s.start, s.checks, |s.checks|)
    && InForce(s.cfg, s.start, s.checks, s.plan)
    && (s.rest != [] ==> |s.rest| <= s.plan.batch)
  }

  /** Received messages are settled or with a worker. */
  predicate Counted(s: State) {
    |s.taken| == |s.settled| + Sum(s.workers, Working)
  }

  lemma PlannedByStep(s: State, a: Action)
    requires Planned(s) && Conserved(s) && Enabled(s, a)
    ensures Planned(Apply(s, a))
  {
    if a.PlanFetch? { InForceExtends(s.cfg, s.start, s.checks, s.plan, a.check); }
  }

  lemma CountedByStep(s: State, a: Action)
    requires Counted(s) && Enabled(s, a)
    ensures Counted(Apply(s, a))
  {
    if IsWorkerAction(a) {
      SumAfterUpdate(s.workers, Working, a.w, Apply(s, a).workers[a.w]);
    } else if a.Spawn? {
      SumAfterSpawn(s.workers, Working, Selecting);
    }
  }

  ghost predicate Inv(s: State) {
    Conserved(s) && OwnWork(s) && FairlySettled(s) && Coordinated(s) && Planned(s) && Counted(s)
  }

  lemma {:induction false} RunKeepsInv(from: State, trace: seq<Action>, to: State)
    requires Inv(from) && Leads(from, trace, to)
    ensures Inv(to) && to.cfg == from.cfg
    decreases |trace|
  {
    if trace != [] {
      ConservedByStep(from, trace[0]);
      OwnWorkByStep(from, trace[0]);
      FairlySettledByStep(from, trace[0]);
      CoordinatedByStep(from, trace[0]);
      PlannedByStep(from, trace[0]);
      CountedByStep(from, trace[0]);
      RunKeepsInv(Apply(from, trace[0]), trace[1..], to);
    }
  }

  lemma InitialInv(cfg: Config)
    ensures Inv(Initial(cfg))
  {
    InForceInitially(cfg, 0);
    assert Planned(Initial(cfg));
    assert Coordinated(Initial(cfg)) && Counted(Initial(cfg));
    assert Conserved(Initial(cfg)) && OwnWork(Initial(cfg)) && FairlySettled(Initial(cfg));
  }

  lemma ReachableInv(s: State)
    requires Reachable(s)
    ensures Inv(s)
  {
    InitialInv(s.cfg);
    var trace :| Leads(Initial(s.cfg), trace, s);
    RunKeepsInv(Initial(s.cfg), trace, s);
  }

  lemma {:induction false} LeadsOneMore(from: State, trace: seq<Action>, to: State, a: Action)
    requires Leads(from, trace, to) && Enabled(to, a)
    ensures Leads(from, trace + [a], Apply(to, a))
    decreases |trace|
  {
    var more := trace + [a];
    if trace == [] {
      assert more[1..] == [];
    } else {
      assert more[1..] == trace[1..] + [a];
      LeadsOneMore(Apply(from, trace[0]), trace[1..], to, a);
    }
  }

  lemma Continue(s: State, a: Action) returns (t: State)
    requires Reachable(s) && Enabled(s, a)
    ensures t == Apply(s, a) && Reachable(t)
  {
    t := Apply(s, a);
    var trace :| Leads(Initial(s.cfg), trace, s);
    LeadsOneMore(Initial(s.cfg), trace, s, a);
  }

  // ------------------------------------------------------------- the runtime

  /**
   * The runtime itself, advanced one atomic step at a time. The fields from `start` on
   * are records of the run that the program does not keep.
   */
  class PullConsumerRuntime {
    const cfg: Config
    var cancelled: bool
    var jobs: seq<Message>
    var closes: nat
    var fetcher: Fetcher
    var state: FetchState
    var rest: seq<Message>
    var workers: seq<Worker>
    var waitGroup: int
    var start: int
    var checks: seq<Check>
    var fetched: seq<Message>
    var taken: seq<Message>
    var replies: map<nat, bool>
    var settled: seq<Settlement>

    function View(): State
      reads this, state
    {
      State(cfg, cancelled, jobs, closes, fetcher, state.Current(), state.lastAdaptiveCheck, start, checks,
            rest, fetched, taken, workers, waitGroup, replies, settled)
    }

    constructor (cfg: Config)
      ensures this.cfg == cfg && fresh(state) && View() == Initial(cfg)
    {
      this.cfg := cfg;
      state := new FetchState(cfg, 0);
      start, checks := 0, [];
      cancelled, jobs, closes, fetcher, rest := false, [], 0, NotStarted, [];
      workers, waitGroup, fetched, taken, replies, settled := [], 0, [], [], map[], [];
    }

    /** The starting loop: count a worker in and launch it, and after the last one the fetcher. */
    method Start(a: Action)
      requires (a.Spawn? || a.Launch?) && Enabled(View(), a)
      modifies this
      ensures View() == Apply(old(View()), a)
      ensures state == old(state) || fresh(state)
    {
      if |workers| < cfg.workers {
        waitGroup := waitGroup + 1;
        workers := workers + [Selecting];
      } else {
        state := new FetchState(cfg, a.now);
        start := a.now;
        fetcher := Checking;
      }
    }

    /** One step of worker `a.w`; the scheduler's choice decides a select and the handler's reply. */
    method RunWorker(a: Action)
      requires IsWorkerAction(a) && Enabled(View(), a)
      modifies this
      ensures View() == Apply(old(View()), a) && state == old(state)
    {
      match workers[a.w] {
        case Selecting =>
          if a.Take? {
            workers := workers[a.w := Handling(|taken|)];
            taken := taken + [jobs[0]];
            jobs := jobs[1..];
          } else {
            workers := workers[a.w := Returning];
          }
        case Handling(k) =>
          replies := replies[k := a.ok];
          workers := workers[a.w := Settling(k, a.ok)];
        case Settling(k, ok) =>
          settled := settled + [Settlement(k, ok)];
          workers := workers[a.w := Selecting];
        case Returning =>
          workers := workers[a.w := Done];
          waitGroup := waitGroup - 1;
      }
    }

    /** One step of the fetcher; the scheduler's choice decides a select and the outcome of a fetch. */
    method RunFetcher(a: Action)
      requires !IsWorkerAction(a) && !a.Cancel? && !a.Spawn? && !a.Launch? && Enabled(View(), a)
      modifies this, state
      ensures View() == Apply(old(View()), a) && state == old(state)
    {
      match fetcher {
        case Checking =>
          if cancelled { fetcher := Waiting; } else { fetcher := Planning; }
        case Planning =>
          state.MaybeUpdateAdaptivePlan(cfg, a.check);
          checks := checks + [a.check];
          fetcher := Fetching;
        case Fetching =>
          if a.FetchOk? {
            rest, fetched := a.batch, fetched + a.batch;
            fetcher := Dispatching;
          } else if a.FetchTimeout? {
            fetcher := Checking;
          } else {
            fetcher := BackingOff;
          }
        case BackingOff => fetcher := Checking;
        case Dispatching =>
          if rest == [] {
            fetcher := Checking;
          } else if a.Send? {
            jobs, rest := jobs + [rest[0]], rest[1..];
          } else {
            fetcher := Waiting;
          }
        case Waiting => fetcher := Closing;
        case Closing =>
          closes := closes + 1;
          fetcher := Exited;
      }
    }

    method StepOnce(a: Action)
      requires Enabled(View(), a)
      modifies this, state
      ensures View() == Apply(old(View()), a)
      ensures state == old(state) || fresh(state)
    {
      if a.Cancel? {
        cancelled := true;
      } else if IsWorkerAction(a) {
        RunWorker(a);
      } else if a.Spawn? || a.Launch? {
        Start(a);
      } else {
        RunFetcher(a);
      }
    }
  }

  /** The state that a schedule leads to; a choice that is not open when its turn comes is passed over. */
  function Follow(s: State, schedule: seq<Action>): State {
    if schedule == [] then s
    else
      var before, a := Follow(s, schedule[..|schedule| - 1]), schedule[|schedule| - 1];
      if Enabled(before, a) then Apply(before, a) else before
  }

  /** A new runtime under any schedule goes where the schedule leads, and stays among the reachable states. */
  method Execute(cfg: Config, schedule: seq<Action>) returns (r: PullConsumerRuntime)
    ensures fresh(r) && fresh(r.state) && r.cfg == cfg
    ensures r.View() == Follow(Initial(cfg), schedule) && Reachable(r.View())
  {
    r := new PullConsumerRuntime(cfg);
    assert Leads(Initial(cfg), [], r.View());
    for i := 0 to |schedule|
      invariant r.cfg == cfg && fresh(r) && fresh(r.state)
      invariant r.View() == Follow(Initial(cfg), schedule[..i]) && Reachable(r.View())
    {
      assert schedule[..i + 1][..i] == schedule[..i];
      if Enabled(r.View(), schedule[i]) {
        var _ := Continue(r.View(), schedule[i]);
        r.StepOnce(schedule[i]);
      }
    }
    assert schedule[..|schedule|] == schedule;
  }

  /** The messages that the step fetches, and the check that it makes. */
  function Batch(a: Action): seq<Message> {
    if a.FetchOk? then a.batch else []
  }

  function CheckOf(a: Action): seq<Check> {
    if a.PlanFetch? then [a.check] else []
  }

  /** The messages that the fetches of a run brought, in order. */
  function Batches(trace: seq<Action>): seq<Message> {
    if trace == [] then [] else Batch(trace[0]) + Batches(trace[1..])
  }

  function ChecksOf(trace: seq<Action>): seq<Check> {
    if trace == [] then [] else CheckOf(trace[0]) + ChecksOf(trace[1..])
  }

  /** How many messages a run received, and how many it settled. */
  function Takes(trace: seq<Action>): nat {
    if trace == [] then 0 else (if trace[0].Take? then 1 else 0) + Takes(trace[1..])
  }

  function Settles(trace: seq<Action>): nat {
    if trace == [] then 0 else (if trace[0].Settle? then 1 else 0) + Settles(trace[1..])
  }

  lemma StepIsRecorded(s: State, a: Action)
    requires Enabled(s, a)
    ensures Apply(s, a).fetched == s.fetched + Batch(a) && Apply(s, a).checks == s.checks + CheckOf(a)
    ensures |Apply(s, a).taken| == |s.taken| + if a.Take? then 1 else 0
    ensures |Apply(s, a).settled| == |s.settled| + if a.Settle? then 1 else 0
  {
  }

  lemma {:induction false} RunIsRecorded(from: State, trace: seq<Action>, to: State)
    requires Leads(from, trace, to)
    ensures to.fetched == from.fetched + Batches(trace) && to.checks == from.checks + ChecksOf(trace)
    ensures |to.taken| == |from.taken| + Takes(trace) && |to.settled| == |from.settled| + Settles(trace)
    decreases |trace|
  {
    if trace != [] {
      var next := Apply(from, trace[0]);
      StepIsRecorded(from, trace[0]);
      RunIsRecorded(next, trace[1..], to);
      assert to.fetched == from.fetched + (Batch(trace[0]) + Batches(trace[1..]));
      assert to.checks == from.checks + (CheckOf(trace[0]) + ChecksOf(trace[1..]));
    }
  }

  // ------------------------------------------------------------ main results

  /** The records that the results below speak of are what happened in the run. */
  lemma RecordsTellRun(cfg: Config, trace: seq<Action>, s: State)
    requires Leads(Initial(cfg), trace, s)
    ensures s.fetched == Batches(trace) && s.checks == ChecksOf(trace)
    ensures |s.taken| == Takes(trace) && |s.settled| == Settles(trace)
  {
    RunIsRecorded(Initial(cfg), trace, s);
  }

  /** Messages reach the handler in fetch order and none is lost; what is left over is the end of the order. */
  lemma FetchOrderIsKept(s: State)
    requires Reachable(s)
    ensures s.taken <= s.fetched && s.fetched[|s.taken|..] == s.jobs + s.rest
  {
    ReachableInv(s);
    assert s.fetched == s.taken + (s.jobs + s.rest);
  }

  /** At most one settlement per message, and it is an Ack exactly when the handler succeeded. */
  lemma SettlementsFollowReplies(s: State)
    requires Reachable(s)
    ensures forall i, j :: 0 <= i < j < |s.settled| ==> s.settled[i].k != s.settled[j].k
    ensures forall i :: 0 <= i < |s.settled| ==>
              && s.settled[i].k < |s.taken| && s.settled[i].k in s.replies
              && (s.settled[i].ack <==> s.replies[s.settled[i].k])
    ensures forall k :: 0 <= k < |s.taken| ==> (IsSettled(s, k) <==> !IsHeld(s, k))
  {
    ReachableInv(s);
  }

  /** The handler has answered for the k-th message, and no worker will ask it again. */
  ghost predicate HasReply(s: State, k: nat, ok: bool) {
    && k < |s.taken| && k in s.replies && s.replies[k] == ok
    && forall w :: 0 <= w < |s.workers| ==> s.workers[w] != Handling(k)
  }

  lemma {:induction false} ReplyStands(from: State, trace: seq<Action>, to: State, k: nat, ok: bool)
    requires HasReply(from, k, ok) && Leads(from, trace, to)
    ensures HasReply(to, k, ok)
    decreases |trace|
  {
    if trace != [] { ReplyStands(Apply(from, trace[0]), trace[1..], to, k, ok); }
  }

  /**
   * What a worker's handler returned decides the settlement of its message: from that
   * step on, in any run, the message is acknowledged if at all exactly when it returned nil.
   */
  lemma ReplyDecidesSettlement(s: State, w: nat, ok: bool, trace: seq<Action>, t: State)
    requires Reachable(s) && Enabled(s, Reply(w, ok)) && Leads(Apply(s, Reply(w, ok)), trace, t)
    ensures forall i :: 0 <= i < |t.settled| && t.settled[i].k == s.workers[w].k ==> t.settled[i].ack == ok
  {
    var next, k := Apply(s, Reply(w, ok)), s.workers[w].k;
    ReachableInv(s);
    assert HasReply(next, k, ok) by {
      forall v | 0 <= v < |next.workers| ensures next.workers[v] != Handling(k) {
        if v != w { assert !Holds(s.workers[v], k); }
      }
    }
    ReplyStands(next, trace, t, k, ok);
    RunKeepsInv(s, [Reply(w, ok)], next);
    RunKeepsInv(next, trace, t);
  }

  /**
   * The wait group is the number of live workers; the channel is closed at most once,
   * after the last worker has left, with nothing sent afterwards; and no worker ever
   * sees the closed channel.
   */
  lemma ChannelIsClosedLast(s: State)
    requires Reachable(s)
    ensures s.waitGroup == Live(s.workers) && s.closes <= 1
    ensures s.closes > 0 ==> forall w :: 0 <= w < |s.workers| ==> s.workers[w].Done?
    ensures s.closes > 0 ==> !Enabled(s, Send) && !Enabled(s, CloseJobs)
    ensures forall w :: !Enabled(s, SeeClosed(w))
  {
    ReachableInv(s);
    NoneLive(s.workers);
  }

  /** Until cancellation every worker stays, the fetcher keeps going, and the channel is open. */
  lemma NothingStopsUncancelled(s: State)
    requires Reachable(s) && !s.cancelled
    ensures s.closes == 0 && !ShuttingDown(s.fetcher)
    ensures forall w :: 0 <= w < |s.workers| ==> s.workers[w].Selecting? || IsBusy(s.workers[w])
  {
    ReachableInv(s);
  }

  // -------------------------------------------------------------------- plans

  /**
   * At every moment of every run the next fetch asks for a positive batch within a
   * positive wait, under the plan of the last answered check, or the base plan before any.
   */
  lemma FetchesUsePlanInForce(s: State)
    requires Reachable(s)
    ensures InForce(s.cfg, s.start, s.checks, s.plan)
    ensures Usable(s.cfg) ==> s.plan.batch > 0 && s.plan.wait > 0
  {
    ReachableInv(s);
    if Usable(s.cfg) { InForceIsPositive(s.cfg, s.start, s.checks, s.plan); }
  }

  /**
   * What the next fetch asks for, by the backlog that the last answered due check reported:
   * the high settings exactly from the high threshold on, the medium ones from the medium
   * threshold, the low ones below; and the base settings before any answer or without checks.
   */
  lemma FetchesFollowBacklog(s: State)
    requires Reachable(s) && Usable(s.cfg)
    ensures forall k: nat :: LastAnswered(s.cfg, s.start, s.checks, k) ==>
              Fits(s.cfg, s.plan, ToInt(s.checks[k].info.value))
    ensures !s.cfg.adaptive.enabled || (forall k: nat :: !LastAnswered(s.cfg, s.start, s.checks, k)) ==>
              s.plan == Plan(Base, s.cfg.batchSize, s.cfg.maxWait)
  {
    ReachableInv(s);
    forall k: nat | LastAnswered(s.cfg, s.start, s.checks, k)
      ensures Fits(s.cfg, s.plan, ToInt(s.checks[k].info.value))
    {
      SettingsByBacklog(s.cfg, s.start, s.checks, s.plan, k);
    }
    if !s.cfg.adaptive.enabled || forall k: nat :: !LastAnswered(s.cfg, s.start, s.checks, k) {
      SettingsBeforeAnswer(s.cfg, s.start, s.checks, s.plan);
    }
  }

  /** A run that has left the base plan never fetches under it again. */
  lemma {:induction false} BaseIsNotReentered(from: State, trace: seq<Action>, to: State)
    requires Leads(from, trace, to) && !from.fetcher.NotStarted? && from.plan.tier != Base
    ensures to.plan.tier != Base
    decreases |trace|
  {
    if trace != [] { BaseIsNotReentered(Apply(from, trace[0]), trace[1..], to); }
  }

  // ------------------------------------------------ progress and back-pressure

  /** The uncancelled fetcher cannot send because the queue is full. */
  predicate Blocked(s: State) {
    s.fetcher.Dispatching? && s.rest != [] && |s.jobs| >= s.cfg.queueSize && !s.cancelled
  }

  lemma QueueIsBounded(s: State)
    requires Reachable(s) && Usable(s.cfg)
    ensures |s.jobs| <= s.cfg.queueSize
  {
    ReachableInv(s);
  }

  /** With a usable configuration a blocked fetcher is never stuck: some worker can step. */
  lemma BlockedFetcherHasWorker(s: State) returns (a: Action)
    requires Reachable(s) && Usable(s.cfg) && Blocked(s)
    ensures IsWorkerAction(a) && Enabled(s, a)
  {
    NothingStopsUncancelled(s);
    ReachableInv(s);
    var w := s.workers[0];
    a := if w.Selecting? then Take(0) else if w.Handling? then Reply(0, true) else Settle(0);
  }

  /** How many steps of its own a worker makes before it can receive again. */
  function ToTake(w: Worker): nat {
    match w case Handling(_) => 2 case Settling(_, _) => 1 case _ => 0
  }

  lemma {:induction false} SumIsBounded(ws: seq<Worker>, f: Worker -> nat, bound: nat)
    requires forall w :: f(w) <= bound
    ensures Sum(ws, f) <= bound * |ws|
  {
    if ws != [] { SumIsBounded(ws[..|ws| - 1], f, bound); }
  }

  /** While the fetcher is blocked and no message is received, the workers only come closer to receiving one. */
  lemma {:induction false} BlockedUntilTake(s: State, trace: seq<Action>, t: State)
    requires Inv(s) && Usable(s.cfg) && Blocked(s) && Leads(s, trace, t)
    requires forall i :: 0 <= i < |trace| ==> !trace[i].Cancel? && !trace[i].Take?
    ensures |trace| + Sum(t.workers, ToTake) == Sum(s.workers, ToTake)
    decreases |trace|
  {
    if trace != [] {
      var a := trace[0];
      assert IsWorkerAction(a);
      SumAfterUpdate(s.workers, ToTake, a.w, Apply(s, a).workers[a.w]);
      RunKeepsInv(s, [a], Apply(s, a));
      BlockedUntilTake(Apply(s, a), trace[1..], t);
    }
  }

  /**
   * Back-pressure is passing: however the workers are scheduled, an uncancelled run of more
   * than two steps per worker from a blocked send receives a message, which makes room.
   */
  lemma BlockedFetcherIsServed(s: State, trace: seq<Action>, t: State)
    requires Reachable(s) && Usable(s.cfg) && Blocked(s) && Leads(s, trace, t)
    requires |trace| > 2 * s.cfg.workers && forall i :: 0 <= i < |trace| ==> !trace[i].Cancel?
    ensures exists i :: 0 <= i < |trace| && trace[i].Take?
  {
    ReachableInv(s);
    if forall i :: 0 <= i < |trace| ==> !trace[i].Take? {
      BlockedUntilTake(s, trace, t);
      SumIsBounded(s.workers, ToTake, 2);
    }
  }

  /** The first message received from a full queue lets the fetcher send. */
  lemma TakeUnblocks(s: State, w: nat)
    requires Reachable(s) && Usable(s.cfg) && Blocked(s) && Enabled(s, Take(w))
    ensures Enabled(Apply(s, Take(w)), Send)
  {
    ReachableInv(s);
  }

  /** Back-pressure: what was fetched and is not settled fits in the workers, the queue and one batch. */
  lemma WorkInProgressIsBounded(s: State)
    requires Reachable(s) && Usable(s.cfg)
    ensures |s.settled| <= |s.fetched| <= |s.settled| + s.cfg.workers + s.cfg.queueSize + s.plan.batch
  {
    ReachableInv(s);
    SumIsBounded(s.workers, Working, 1);
    InForceIsPositive(s.cfg, s.start, s.checks, s.plan);
  }

  /** A usable configuration but for its workers. */
  predicate OnlyLacksWorkers(cfg: Config) {
    cfg.workers <= 0 && Usable(cfg.(workers := 1))
  }

  const NO_ANSWER := Check(0, 0, None)

  lemma {:induction false} QueueFills(cfg: Config, m: Message, n: nat) returns (s: State)
    requires OnlyLacksWorkers(cfg) && n <= cfg.queueSize
    ensures Reachable(s) && s.cfg == cfg && s.fetcher == Checking && !s.cancelled && s.plan == BasePlan(cfg)
    ensures |s.jobs| == n && s.workers == []
  {
    if n == 0 {
      s := Initial(cfg);
      assert Leads(Initial(cfg), [], s);
      s := Continue(s, Launch(0));
    } else {
      s := QueueFills(cfg, m, n - 1);
      s := Continue(s, CheckStop);
      s := Continue(s, PlanFetch(NO_ANSWER));
      s := Continue(s, FetchOk([m]));
      s := Continue(s, Send);
      s := Continue(s, EndDispatch);
    }
  }

  /** The validator's demand for workers is needed: without any, the fetcher can block for good. */
  lemma NoWorkersNoProgress(cfg: Config, m: Message) returns (s: State)
    requires OnlyLacksWorkers(cfg)
    ensures Reachable(s) && s.cfg == cfg && Blocked(s)
    ensures forall a :: Enabled(s, a) ==> a == Cancel
  {
    s := QueueFills(cfg, m, cfg.queueSize);
    s := Continue(s, CheckStop);
    s := Continue(s, PlanFetch(NO_ANSWER));
    s := Continue(s, FetchOk([m]));
    NoneLive(s.workers);
  }

  // ----------------------------------------------------------------- shutdown

  predicate Terminal(s: State) {
    s.fetcher.Exited? && forall w :: 0 <= w < |s.workers| ==> s.workers[w].Done?
  }

  function FetcherRank(f: Fetcher): nat {
    match f
    case NotStarted => 9 case Planning => 8 case Fetching => 7 case BackingOff => 6
    case Dispatching => 5 case Checking => 4 case Waiting => 3 case Closing => 2 case Exited => 1
  }

  function WorkerWeight(w: Worker): nat {
    match w
    case Handling(_) => 5 case Settling(_, _) => 4 case Selecting => 2 case Returning => 1 case Done => 0
  }

  function ToSpawn(s: State): nat {
    if |s.workers| < s.cfg.workers then s.cfg.workers - |s.workers| else 0
  }

  /** Undispatched messages weigh more than queued ones, and those more than the work they become. */
  function Weight(s: State): nat {
    5 * |s.rest| + 4 * |s.jobs| + Sum(s.workers, WorkerWeight)
  }

  ghost predicate Smaller(t: State, s: State) {
    || FetcherRank(t.fetcher) < FetcherRank(s.fetcher)
    || (t.fetcher == s.fetcher && ToSpawn(t) < ToSpawn(s))
    || (t.fetcher == s.fetcher && ToSpawn(t) == ToSpawn(s) && Weight(t) < Weight(s))
  }

  /** After cancellation every step of every goroutine brings the runtime closer to its end. */
  lemma StepsShrinkAfterCancel(s: State, a: Action)
    requires Coordinated(s) && s.cancelled && Enabled(s, a)
    ensures Smaller(Apply(s, a), s) && Apply(s, a).cancelled
  {
    if IsWorkerAction(a) {
      SumAfterUpdate(s.workers, WorkerWeight, a.w, Apply(s, a).workers[a.w]);
    }
  }

  /** After cancellation the runtime cannot get stuck before its end. */
  lemma CancelledRuntimeCanStep(s: State) returns (a: Action)
    requires Coordinated(s) && s.cancelled && !Terminal(s)
    ensures Enabled(s, a)
  {
    NoneLive(s.workers);
    if w :| 0 <= w < |s.workers| && !s.workers[w].Done? {
      a := match s.workers[w]
           case Selecting => Stop(w) case Handling(_) => Reply(w, true)
           case Settling(_, _) => Settle(w) case Returning => Leave(w);
    } else {
      a := match s.fetcher
           case NotStarted => if |s.workers| < s.cfg.workers then Spawn else Launch(0)
           case Checking => CheckStop case Planning => PlanFetch(NO_ANSWER) case Fetching => FetchTimeout
           case BackingOff => Resume
           case Dispatching => if s.rest == [] then EndDispatch else StopDispatch
           case Waiting => WaitDone case Closing => CloseJobs;
    }
  }

  ghost predicate StepsTo(s: State, t: State) {
    exists a :: Enabled(s, a) && t == Apply(s, a)
  }

  /** The runtime steps at time `i`, unless it has ended. */
  ghost predicate Moves(run: nat -> State, i: nat) {
    if Terminal(run(i)) then run(i + 1) == run(i) else StepsTo(run(i), run(i + 1))
  }

  lemma {:induction false} MovesReachEnd(run: nat -> State, i: nat) returns (n: nat)
    requires (forall j: nat :: Moves(run, j)) && Inv(run(i)) && run(i).cancelled
    ensures Terminal(run(n)) && Inv(run(n))
    decreases FetcherRank(run(i).fetcher), ToSpawn(run(i)), Weight(run(i))
  {
    if Terminal(run(i)) {
      n := i;
    } else {
      assert Moves(run, i);
      var a :| Enabled(run(i), a) && run(i + 1) == Apply(run(i), a);
      RunKeepsInv(run(i), [a], run(i + 1));
      StepsShrinkAfterCancel(run(i), a);
      n := MovesReachEnd(run, i + 1);
    }
  }

  /**
   * Every schedule ends after cancellation: as long as something steps while something
   * can, all workers return, the channel is closed once, every received message has
   * been settled exactly once, and the untouched messages are a suffix of fetch order.
   */
  lemma ShutdownCompletes(run: nat -> State) returns (n: nat)
    requires Reachable(run(0)) && run(0).cancelled && forall j: nat :: Moves(run, j)
    ensures var s := run(n);
            && Terminal(s) && s.closes == 1 && s.waitGroup == 0
            && s.taken <= s.fetched && s.fetched[|s.taken|..] == s.jobs + s.rest
            && forall k :: 0 <= k < |s.taken| ==> IsSettled(s, k)
  {
    ReachableInv(run(0));
    n := MovesReachEnd(run, 0);
    var s := run(n);
    NoneLive(s.workers);
    assert s.fetched == s.taken + (s.jobs + s.rest);
  }
}
