/**
 * Automation runs: one row per correlation id, driven by deliveries of a job that may crash or fail anywhere,
 * and by the recovery of stale runs.
 */
module Automation {
  import opened Wrappers
  import opened RiskManager

  datatype RunStatus = PENDING | RUNNING | SUCCEEDED | SKIPPED | FAILED

  datatype CycleStep =
    | SAFETY_CHECK
    | ACCOUNT_SYNC
    | PORTFOLIO_SYNC
    | MARKET_DATA_SYNC
    | SIGNAL_ANALYSIS
    | PORTFOLIO_OPTIMIZATION
    | REBALANCE_PLANNING
    | EXECUTION_PLANNING
    | MODE_EXECUTION
    | FINAL_RECONCILIATION
    | COMPLETED

  /** The order of the steps in the source's enumeration. */
  function StepRank(step: CycleStep): nat {
    match step
    case SAFETY_CHECK => 0
    case ACCOUNT_SYNC => 1
    case PORTFOLIO_SYNC => 2
    case MARKET_DATA_SYNC => 3
    case SIGNAL_ANALYSIS => 4
    case PORTFOLIO_OPTIMIZATION => 5
    case REBALANCE_PLANNING => 6
    case EXECUTION_PLANNING => 7
    case MODE_EXECUTION => 8
    case FINAL_RECONCILIATION => 9
    case COMPLETED => 10
  }

  datatype Trigger = MANUAL | SCHEDULED | ACCOUNT_CHANGE | DEPOSIT_DETECTED | RECOVERY

  /**
   * Correlation ids as their parts: a caller's key, a hash of account, strategy and time bucket (taken as injective),
   * or the reconciliation row and trigger that queued the run. The three kinds have different prefixes.
   */
  datatype CorrelationId =
    | ManualId(key: string)
    | ScheduledId(account: string, strategy: string, bucket: int)
    | EventId(reconciliation: nat, trigger: Trigger)

  datatype AutomationRun = AutomationRun(correlation: CorrelationId, status: RunStatus, step: CycleStep, heartbeat: int)

  datatype Runs = Runs(rows: map<nat, AutomationRun>, nextId: nat)

  const NONE := Runs(map[], 0)

  predicate Terminal(status: RunStatus) {
    status in {SUCCEEDED, SKIPPED, FAILED}
  }

  // ------------------------------------------------------------- the commits of one cycle

  datatype Commit = Stepped(step: CycleStep) | MarkedRunning | OtherSaved | Finished(status: RunStatus)

  /** What decides the path of a cycle in which nothing goes wrong. */
  datatype Cycle = Cycle(mode: TradeMode, killSwitch: bool, lockFree: bool, marketOpen: bool)

  function Apply(row: AutomationRun, now: int, c: Commit): AutomationRun {
    match c
    case Stepped(step) => row.(step := step, heartbeat := now)
    case MarkedRunning => row.(status := RUNNING, heartbeat := now)
    case OtherSaved => row
    case Finished(status) => row.(status := status, heartbeat := now)
  }

  function ApplyAll(row: AutomationRun, now: int, commits: seq<Commit>): AutomationRun {
    if commits == [] then row
    else Apply(ApplyAll(row, now, commits[..|commits| - 1]), now, commits[|commits| - 1])
  }

  /** `_succeed` */
  const SUCCESS := [Stepped(COMPLETED), Finished(SUCCEEDED)]

  /** The modes the pipeline executes in; in any other it skips the run after planning. */
  predicate Plans(mode: TradeMode) {
    mode in {DRY_RUN, SANDBOX, REAL_MANUAL_CONFIRM}
  }

  const UP_TO_SIGNALS := [
    Stepped(PORTFOLIO_SYNC), OtherSaved, Stepped(MARKET_DATA_SYNC), Stepped(SIGNAL_ANALYSIS), Stepped(PORTFOLIO_OPTIMIZATION)]

  function ExecutionPart(c: Cycle): seq<Commit> {
    if !c.marketOpen then [OtherSaved] + SUCCESS
    else
      [Stepped(EXECUTION_PLANNING), Stepped(MODE_EXECUTION)]
      + if Plans(c.mode) then [Stepped(FINAL_RECONCILIATION)] + SUCCESS else [Finished(SKIPPED)]
  }

  /** `_run_pipeline` */
  function Pipeline(c: Cycle): seq<Commit> {
    UP_TO_SIGNALS + if c.mode.SIGNAL_ONLY? then SUCCESS else [Stepped(REBALANCE_PLANNING)] + ExecutionPart(c)
  }

  /** `_run_guarded` */
  function Script(c: Cycle): seq<Commit> {
    [Stepped(SAFETY_CHECK)]
    + if c.mode.OFF? then [Finished(SKIPPED)]
      else if c.killSwitch then [OtherSaved, Finished(SKIPPED)]
      else [Stepped(ACCOUNT_SYNC)]
           + if !c.lockFree then [OtherSaved, Finished(SKIPPED)] else [MarkedRunning] + Pipeline(c)
  }

  /**
   * `Crash(n)`: the worker dies after `n` commits. `Failure(n)`: an exception or the run timeout comes after `n`
   * commits, possibly after the last one, while the lock is released or a notification sent; `run` catches it and
   * marks the run failed.
   */
  datatype Fault = NoFault | Crash(commits: nat) | Failure(commits: nat)

  function First(commits: seq<Commit>, n: nat): seq<Commit> {
    if n <= |commits| then commits[..n] else commits
  }

  /** All commits a delivery makes once its run is resolved. */
  function Made(c: Cycle, fault: Fault): seq<Commit> {
    match fault
    case NoFault => Script(c)
    case Crash(n) => First(Script(c), n)
    case Failure(n) => First(Script(c), n) + [Finished(FAILED)]
  }

  // ------------------------------------------------------------- deliveries

  predicate Known(s: Runs, correlation: CorrelationId) {
    exists id :: id in s.rows && s.rows[id].correlation == correlation
  }

  function NewRun(correlation: CorrelationId, now: int): AutomationRun {
    AutomationRun(correlation, PENDING, SAFETY_CHECK, now)
  }

  function Create(s: Runs, correlation: CorrelationId, now: int): Runs {
    if Known(s, correlation) then s else Runs(s.rows[s.nextId := NewRun(correlation, now)], s.nextId + 1)
  }

  /** `_resolve_run`: the run to execute, or none for an unknown id and for duplicates. */
  function Resolve(s: Runs, correlation: CorrelationId, runId: Option<nat>): Option<nat> {
    match runId
    case Some(id) => if id in s.rows && s.rows[id].status.PENDING? then Some(id) else None
    case None => if Known(s, correlation) then None else Some(s.nextId)
  }

  datatype Action =
    | Deliver(correlation: CorrelationId, runId: Option<nat>, cycle: Cycle, now: int, fault: Fault)
    | Request(correlation: CorrelationId, now: int, queued: bool)
    | RecoverStale(threshold: int, now: int)

  function Recovered(row: AutomationRun, threshold: int, now: int): AutomationRun {
    if row.status.RUNNING? && row.heartbeat < threshold then row.(status := FAILED, heartbeat := now) else row
  }

  function Delivered(s: Runs, a: Action): Runs
    requires a.Deliver?
  {
    var id := Resolve(s, a.correlation, a.runId);
    if id.None? then s
    else
      var t := if a.runId.Some? then s else Create(s, a.correlation, a.now);
      var row := if id.value in t.rows then t.rows[id.value] else NewRun(a.correlation, a.now);
      t.(rows := t.rows[id.value := ApplyAll(row, a.now, Made(a.cycle, a.fault))])
  }

  function Step(s: Runs, a: Action): Runs {
    match a
    case Deliver(_, _, _, _, _) => Delivered(s, a)
    // The manual route fails a run it created but could not queue.
    case Request(correlation, now, queued) =>
      if Known(s, correlation) || queued then Create(s, correlation, now)
      else Runs(s.rows[s.nextId := NewRun(correlation, now).(status := FAILED)], s.nextId + 1)
    case RecoverStale(threshold, now) => s.(rows := map id | id in s.rows :: Recovered(s.rows[id], threshold, now))
  }

  function Run(s: Runs, actions: seq<Action>): Runs {
    if actions == [] then s else Step(Run(s, actions[..|actions| - 1]), actions[|actions| - 1])
  }
}
