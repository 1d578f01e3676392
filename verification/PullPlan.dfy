/**
 * Pull-consumer configuration: its validation, the adaptive choice of batch size and
 * wait, and the fetch state that carries the plan from one fetch to the next.
 */
module PullPlan {
  import opened Wrappers

  datatype Adaptive = Adaptive(
    enabled: bool, checkInterval: int, mediumPending: int, highPending: int,
    lowBatchSize: int, lowMaxWait: int,
    mediumBatchSize: int, mediumMaxWait: int,
    highBatchSize: int, highMaxWait: int)

  datatype Config = Config(
    stream: string, subject: string, durable: string,
    batchSize: int, maxWait: int, workers: int, queueSize: int,
    ackWait: int, maxDeliver: int, adaptive: Adaptive)

  datatype ConfigError =
    | EmptyStreamName | EmptySubject | EmptyDurableName
    | InvalidBatchSize | InvalidMaxWait | InvalidWorkerCount | InvalidQueueSize
    | InvalidAckWait | InvalidMaxDeliver
    | InvalidAdaptiveCheckInterval | InvalidAdaptiveThresholds | InvalidAdaptivePlan

  /** What a runtime needs of its configuration. */
  predicate Usable(cfg: Config) {
    && cfg.stream != "" && cfg.subject != "" && cfg.durable != ""
    && cfg.batchSize > 0 && cfg.maxWait > 0 && cfg.workers > 0 && cfg.queueSize > 0
    && cfg.ackWait > 0 && cfg.maxDeliver > 0
    && (cfg.adaptive.enabled ==>
          && cfg.adaptive.checkInterval > 0
          && 0 <= cfg.adaptive.mediumPending < cfg.adaptive.highPending
          && cfg.adaptive.lowBatchSize > 0 && cfg.adaptive.lowMaxWait > 0
          && cfg.adaptive.mediumBatchSize > 0 && cfg.adaptive.mediumMaxWait > 0
          && cfg.adaptive.highBatchSize > 0 && cfg.adaptive.highMaxWait > 0)
  }

  /** The validator accepts the usable configurations and no others. */
  function Validate(cfg: Config): (r: Option<ConfigError>)
    ensures r == None <==> Usable(cfg)
  {
    if cfg.stream == "" then Some(EmptyStreamName)
    else if cfg.subject == "" then Some(EmptySubject)
    else if cfg.durable == "" then Some(EmptyDurableName)
    else if cfg.batchSize <= 0 then Some(InvalidBatchSize)
    else if cfg.maxWait <= 0 then Some(InvalidMaxWait)
    else if cfg.workers <= 0 then Some(InvalidWorkerCount)
    else if cfg.queueSize <= 0 then Some(InvalidQueueSize)
    else if cfg.ackWait <= 0 then Some(InvalidAckWait)
    else if cfg.maxDeliver <= 0 then Some(InvalidMaxDeliver)
    else if !cfg.adaptive.enabled then None
    else if cfg.adaptive.checkInterval <= 0 then Some(InvalidAdaptiveCheckInterval)
    else if cfg.adaptive.mediumPending < 0 || cfg.adaptive.highPending <= cfg.adaptive.mediumPending then
      Some(InvalidAdaptiveThresholds)
    else if || cfg.adaptive.lowBatchSize <= 0 || cfg.adaptive.lowMaxWait <= 0
            || cfg.adaptive.mediumBatchSize <= 0 || cfg.adaptive.mediumMaxWait <= 0
            || cfg.adaptive.highBatchSize <= 0 || cfg.adaptive.highMaxWait <= 0 then
      Some(InvalidAdaptivePlan)
    else None
  }

  datatype Tier = Base | Low | Medium | High

  function Rank(t: Tier): nat {
    match t case Base => 0 case Low => 1 case Medium => 2 case High => 3
  }

  datatype Plan = Plan(tier: Tier, batch: int, wait: int)

  function BasePlan(cfg: Config): Plan {
    Plan(Base, cfg.batchSize, cfg.maxWait)
  }

  function ResolvePullPlan(cfg: Config, pending: int): Plan {
    if !cfg.adaptive.enabled then BasePlan(cfg)
    else if pending >= cfg.adaptive.highPending then
      Plan(High, cfg.adaptive.highBatchSize, cfg.adaptive.highMaxWait)
    else if pending >= cfg.adaptive.mediumPending then
      Plan(Medium, cfg.adaptive.mediumBatchSize, cfg.adaptive.mediumMaxWait)
    else
      Plan(Low, cfg.adaptive.lowBatchSize, cfg.adaptive.lowMaxWait)
  }

  const TWO_63 := 0x8000_0000_0000_0000
  const TWO_64 := 0x1_0000_0000_0000_0000

  /** Go's conversion of an unsigned 64-bit count to `int`. */
  function ToInt(u: nat): int {
    var w := u % TWO_64;
    if w < TWO_63 then w else w - TWO_64
  }

  /**
   * A larger reported backlog never gets a lower tier, except that a count beyond the
   * range of `int` wraps to a negative number and is served as if nothing were pending.
   */
  lemma TierFollowsBacklog(cfg: Config, fewer: nat, more: nat)
    requires Usable(cfg) && cfg.adaptive.enabled
    requires fewer <= more < TWO_64
    ensures Rank(ResolvePullPlan(cfg, ToInt(fewer)).tier) <= Rank(ResolvePullPlan(cfg, ToInt(more)).tier)
            <==> more < TWO_63 || fewer >= TWO_63 || fewer < cfg.adaptive.mediumPending
  {
  }

  /** One pass of the adaptive check: two clock readings and the consumer-info reply, if any. */
  datatype Check = Check(sinceReading: int, nowReading: int, info: Option<nat>)

  predicate IsDue(cfg: Config, last: int, check: Check) {
    cfg.adaptive.enabled && check.sinceReading - last >= cfg.adaptive.checkInterval
  }

  /** A due check restarts the interval even if its query fails. */
  function CheckedAt(cfg: Config, last: int, check: Check): int {
    if IsDue(cfg, last, check) then check.nowReading else last
  }

  function NextPlan(cfg: Config, plan: Plan, last: int, check: Check): Plan {
    if IsDue(cfg, last, check) && check.info.Some? then ResolvePullPlan(cfg, ToInt(check.info.value)) else plan
  }

  class FetchState {
    var tier: Tier
    var batch: int
    var wait: int
    var lastAdaptiveCheck: int

    function Current(): Plan
      reads this
    {
      Plan(tier, batch, wait)
    }

    constructor (cfg: Config, now: int)
      ensures Current() == BasePlan(cfg) && lastAdaptiveCheck == now
    {
      tier, batch, wait, lastAdaptiveCheck := Base, cfg.batchSize, cfg.maxWait, now;
    }

    method MaybeUpdateAdaptivePlan(cfg: Config, check: Check)
      modifies this
      ensures lastAdaptiveCheck == CheckedAt(cfg, old(lastAdaptiveCheck), check)
      ensures Current() == NextPlan(cfg, old(Current()), old(lastAdaptiveCheck), check)
    {
      if !cfg.adaptive.enabled || check.sinceReading - lastAdaptiveCheck < cfg.adaptive.checkInterval {
        return;
      }
      lastAdaptiveCheck := check.nowReading;
      if check.info.None? {
        return;
      }
      var next := ResolvePullPlan(cfg, ToInt(check.info.value));
      if next.tier == tier && next.batch == batch && next.wait == wait {
        return;
      }
      tier := next.tier;
      batch := next.batch;
      wait := next.wait;
    }
  }

  /** When the last due one of the first `n` checks happened. */
  function LastCheckAt(cfg: Config, start: int, checks: seq<Check>, n: nat): int
    requires n <= |checks|
  {
    if n == 0 then start else CheckedAt(cfg, LastCheckAt(cfg, start, checks, n - 1), checks[n - 1])
  }

  /** The k-th check was due and got an answer. */
  predicate Answered(cfg: Config, start: int, checks: seq<Check>, k: nat)
    requires k < |checks|
  {
    IsDue(cfg, LastCheckAt(cfg, start, checks, k), checks[k]) && checks[k].info.Some?
  }

  /** The k-th check is the last answered one. */
  ghost predicate LastAnswered(cfg: Config, start: int, checks: seq<Check>, k: nat) {
    && k < |checks| && Answered(cfg, start, checks, k)
    && forall j :: k < j < |checks| ==> !Answered(cfg, start, checks, j)
  }

  /** The k-th check is the last answered one, and `plan` is what it asks for. */
  ghost predicate DecidedBy(cfg: Config, start: int, checks: seq<Check>, k: nat, plan: Plan) {
    LastAnswered(cfg, start, checks, k) && plan == ResolvePullPlan(cfg, ToInt(checks[k].info.value))
  }

  /** `plan` is the one resolved at the last answered check, or the base plan before any. */
  ghost predicate InForce(cfg: Config, start: int, checks: seq<Check>, plan: Plan) {
    || (plan == BasePlan(cfg) && forall k :: 0 <= k < |checks| ==> !Answered(cfg, start, checks, k))
    || exists k: nat :: DecidedBy(cfg, start, checks, k, plan)
  }

  lemma InForceInitially(cfg: Config, start: int)
    ensures InForce(cfg, start, [], BasePlan(cfg))
  {
  }

  /** At most one plan is in force. */
  lemma InForceIsUnique(cfg: Config, start: int, checks: seq<Check>, p: Plan, q: Plan)
    requires InForce(cfg, start, checks, p) && InForce(cfg, start, checks, q)
    ensures p == q
  {
    if j: nat, k: nat :| DecidedBy(cfg, start, checks, j, p) && DecidedBy(cfg, start, checks, k, q) {
      assert j == k;
    }
  }

  lemma InForceIsPositive(cfg: Config, start: int, checks: seq<Check>, plan: Plan)
    requires Usable(cfg) && InForce(cfg, start, checks, plan)
    ensures plan.batch > 0 && plan.wait > 0
  {
  }

  lemma {:induction false} LastCheckOfPrefix(cfg: Config, start: int, checks: seq<Check>, check: Check, n: nat)
    requires n <= |checks|
    ensures LastCheckAt(cfg, start, checks + [check], n) == LastCheckAt(cfg, start, checks, n)
  {
    if n > 0 { LastCheckOfPrefix(cfg, start, checks, check, n - 1); }
  }

  lemma AnsweredOfPrefix(cfg: Config, start: int, checks: seq<Check>, check: Check, k: nat)
    requires k < |checks|
    ensures Answered(cfg, start, checks + [check], k) == Answered(cfg, start, checks, k)
  {
    LastCheckOfPrefix(cfg, start, checks, check, k);
  }

  /** One more check leaves the plan in force that the fetch state moves to. */
  lemma InForceExtends(cfg: Config, start: int, checks: seq<Check>, plan: Plan, check: Check)
    requires InForce(cfg, start, checks, plan)
    ensures var last := LastCheckAt(cfg, start, checks, |checks|);
            && LastCheckAt(cfg, start, checks + [check], |checks| + 1) == CheckedAt(cfg, last, check)
            && InForce(cfg, start, checks + [check], NextPlan(cfg, plan, last, check))
  {
    var more := checks + [check];
    LastCheckOfPrefix(cfg, start, checks, check, |checks|);
    forall k | 0 <= k < |checks| ensures Answered(cfg, start, more, k) == Answered(cfg, start, checks, k) {
      AnsweredOfPrefix(cfg, start, checks, check, k);
    }
    if Answered(cfg, start, more, |checks|) {
      assert DecidedBy(cfg, start, more, |checks|, ResolvePullPlan(cfg, ToInt(check.info.value)));
    } else if k: nat :| DecidedBy(cfg, start, checks, k, plan) {
      assert DecidedBy(cfg, start, more, k, plan);
    }
  }

  /** High settings exactly from the high threshold on, medium ones from the medium threshold, low ones below. */
  predicate Fits(cfg: Config, plan: Plan, pending: int) {
    var a := cfg.adaptive;
    && (plan == Plan(High, a.highBatchSize, a.highMaxWait) <==> pending >= a.highPending)
    && (plan == Plan(Medium, a.mediumBatchSize, a.mediumMaxWait) <==> a.mediumPending <= pending < a.highPending)
    && (plan == Plan(Low, a.lowBatchSize, a.lowMaxWait) <==> pending < a.mediumPending)
  }

  /** The settings of the plan in force, by what the last answered check reported. */
  lemma SettingsByBacklog(cfg: Config, start: int, checks: seq<Check>, plan: Plan, k: nat)
    requires InForce(cfg, start, checks, plan) && LastAnswered(cfg, start, checks, k)
    requires cfg.adaptive.mediumPending < cfg.adaptive.highPending
    ensures Fits(cfg, plan, ToInt(checks[k].info.value))
  {
    if j: nat :| DecidedBy(cfg, start, checks, j, plan) { assert j == k; }
  }

  lemma SettingsBeforeAnswer(cfg: Config, start: int, checks: seq<Check>, plan: Plan)
    requires InForce(cfg, start, checks, plan)
    requires !cfg.adaptive.enabled || forall k: nat :: !LastAnswered(cfg, start, checks, k)
    ensures plan == Plan(Base, cfg.batchSize, cfg.maxWait)
  {
    if k: nat :| DecidedBy(cfg, start, checks, k, plan) { assert LastAnswered(cfg, start, checks, k); }
  }

  // -------------------------------------------------------- intervals of checks

  /** The k-th check was due. */
  predicate DueAt(cfg: Config, start: int, checks: seq<Check>, k: nat)
    requires k < |checks|
  {
    IsDue(cfg, LastCheckAt(cfg, start, checks, k), checks[k])
  }

  lemma {:induction false} LastCheckIsLastDue(cfg: Config, start: int, checks: seq<Check>, i: nat, n: nat)
    requires i < n <= |checks| && DueAt(cfg, start, checks, i)
    requires forall k :: i < k < n ==> !DueAt(cfg, start, checks, k)
    ensures LastCheckAt(cfg, start, checks, n) == checks[i].nowReading
  {
    if n > i + 1 {
      assert !DueAt(cfg, start, checks, n - 1);
      LastCheckIsLastDue(cfg, start, checks, i, n - 1);
    } else {
      assert DueAt(cfg, start, checks, n - 1);
    }
  }

  lemma {:induction false} LastCheckBeforeDue(cfg: Config, start: int, checks: seq<Check>, n: nat)
    requires n <= |checks| && forall k :: 0 <= k < n ==> !DueAt(cfg, start, checks, k)
    ensures LastCheckAt(cfg, start, checks, n) == start
  {
    if n > 0 {
      assert !DueAt(cfg, start, checks, n - 1);
      LastCheckBeforeDue(cfg, start, checks, n - 1);
    }
  }

  /** A check is due exactly a full interval after the due one before it, whether that was answered or not. */
  lemma DueChecksAreApart(cfg: Config, start: int, checks: seq<Check>, i: nat, j: nat)
    requires i < j < |checks| && DueAt(cfg, start, checks, i)
    requires forall k :: i < k < j ==> !DueAt(cfg, start, checks, k)
    ensures DueAt(cfg, start, checks, j)
            <==> checks[j].sinceReading - checks[i].nowReading >= cfg.adaptive.checkInterval
  {
    LastCheckIsLastDue(cfg, start, checks, i, j);
  }

  /** And the first one a full interval after the start, if checks are made at all. */
  lemma FirstDueCheck(cfg: Config, start: int, checks: seq<Check>, j: nat)
    requires j < |checks| && forall k :: 0 <= k < j ==> !DueAt(cfg, start, checks, k)
    ensures DueAt(cfg, start, checks, j)
            <==> cfg.adaptive.enabled && checks[j].sinceReading - start >= cfg.adaptive.checkInterval
  {
    LastCheckBeforeDue(cfg, start, checks, j);
  }

  // ---------------------------------------------------------------- validation

  /** What each error of the validator says about the configuration. */
  predicate Faulty(cfg: Config, error: ConfigError) {
    match error
    case EmptyStreamName => cfg.stream == ""
    case EmptySubject => cfg.subject == ""
    case EmptyDurableName => cfg.durable == ""
    case InvalidBatchSize => cfg.batchSize <= 0
    case InvalidMaxWait => cfg.maxWait <= 0
    case InvalidWorkerCount => cfg.workers <= 0
    case InvalidQueueSize => cfg.queueSize <= 0
    case InvalidAckWait => cfg.ackWait <= 0
    case InvalidMaxDeliver => cfg.maxDeliver <= 0
    case InvalidAdaptiveCheckInterval => cfg.adaptive.enabled && cfg.adaptive.checkInterval <= 0
    case InvalidAdaptiveThresholds =>
      cfg.adaptive.enabled
      && (cfg.adaptive.mediumPending < 0 || cfg.adaptive.highPending <= cfg.adaptive.mediumPending)
    case InvalidAdaptivePlan =>
      var a := cfg.adaptive;
      a.enabled && (|| a.lowBatchSize <= 0 || a.mediumBatchSize <= 0 || a.highBatchSize <= 0
                    || a.lowMaxWait <= 0 || a.mediumMaxWait <= 0 || a.highMaxWait <= 0)
  }

  /** The validator's error names a fault of the configuration. */
  lemma ErrorNamesFault(cfg: Config)
    ensures Validate(cfg).Some? ==> Faulty(cfg, Validate(cfg).value)
  {
  }
}
