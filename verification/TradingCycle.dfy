/**
 * Automation cycles together with the orders they place: the run table and the order desk in one state.
 *
 * A delivery is a list of moves: commits of the run row, and between them the calls of the execution service. A call
 * may be refused, which ends the cycle with an exception; a crash or another failure may come between any two moves,
 * or inside a call after its post to the broker.
 */
module TradingCycle {
  import opened Wrappers
  import opened RiskManager
  import opened ExecutionPlanner
  import opened OrderDesk
  import L = OrderLifecycle
  import A = Automation

  /** A stored rebalance plan: the actionable allocations, at the prices of the moment its orders are planned. */
  datatype Plan = Plan(id: int, account: string, allocations: seq<ExecutionAllocation>)

  /** The columns of a run row that say what it did; `skipped` is the mark `execution_skipped` in its metadata. */
  datatype Columns = Columns(mode: TradeMode, plan: Option<Plan>, skipped: bool)

  datatype World = World(runs: A.Runs, columns: map<nat, Columns>, desk: Desk)

  const NOTHING := World(A.NONE, map[], L.EMPTY)

  /** What one delivery meets: the path of its cycle, the plan it makes, and what each service call observes. */
  datatype Inputs = Inputs(
    cycle: A.Cycle,
    plan: Plan,
    planning: Environment,
    executing: seq<Environment>,
    risk: RiskProfile)

  function Observed(x: Inputs, i: nat): (env: Environment)
    ensures i < |x.executing| ==> env == x.executing[i]
  {
    if i < |x.executing| then x.executing[i] else x.planning
  }

  // ------------------------------------------------------------- moves

  /** The column assignments a commit carries along. */
  datatype Change = Keep | SetMode(mode: TradeMode) | SetPlan(plan: Plan) | MarkSkipped

  datatype Move = Save(commit: A.Commit, change: Change) | PlaceOrders | CheckWaiting | Trade(i: nat)

  function Plain(commits: seq<A.Commit>): (moves: seq<Move>)
    ensures |moves| == |commits| && forall i :: 0 <= i < |moves| ==> moves[i] == Save(commits[i], Keep)
  {
    seq(|commits|, i requires 0 <= i < |commits| => Save(commits[i], Keep))
  }

  function Trades(n: nat): (moves: seq<Move>)
    ensures |moves| == n && forall i :: 0 <= i < n ==> moves[i] == Trade(i)
  {
    seq(n, i requires 0 <= i < n => Trade(i))
  }

  /** The branch on the trade mode after MODE_EXECUTION. */
  function ModeMoves(x: Inputs): seq<Move> {
    match x.cycle.mode
    case DRY_RUN => Trades(|x.plan.allocations|)
    case SANDBOX => Trades(|x.plan.allocations|)
    case REAL_MANUAL_CONFIRM => [CheckWaiting]
    case _ => []
  }

  function Ending(c: A.Cycle): seq<A.Commit> {
    if A.Plans(c.mode) then [A.Stepped(A.FINAL_RECONCILIATION)] + A.SUCCESS else [A.Finished(A.SKIPPED)]
  }

  function ExecutionMoves(x: Inputs): seq<Move> {
    if !x.cycle.marketOpen then
      [Save(A.OtherSaved, SetPlan(x.plan)), Save(A.Stepped(A.COMPLETED), Keep), Save(A.Finished(A.SUCCEEDED), MarkSkipped)]
    else
      [Save(A.Stepped(A.EXECUTION_PLANNING), SetPlan(x.plan)), PlaceOrders, Save(A.Stepped(A.MODE_EXECUTION), Keep)]
      + ModeMoves(x) + Plain(Ending(x.cycle))
  }

  /** `_run_pipeline` */
  function PipelineMoves(x: Inputs): seq<Move> {
    Plain(A.UP_TO_SIGNALS)
    + if x.cycle.mode.SIGNAL_ONLY? then Plain(A.SUCCESS)
      else Plain([A.Stepped(A.REBALANCE_PLANNING)]) + ExecutionMoves(x)
  }

  /** `_run_guarded`: the mode assigned after the first commit is stored by the second. */
  function Moves(x: Inputs): seq<Move> {
    var c := x.cycle;
    Plain([A.Stepped(A.SAFETY_CHECK)])
    + if c.mode.OFF? then [Save(A.Finished(A.SKIPPED), SetMode(c.mode))]
      else if c.killSwitch then [Save(A.OtherSaved, SetMode(c.mode)), Save(A.Finished(A.SKIPPED), Keep)]
      else [Save(A.Stepped(A.ACCOUNT_SYNC), SetMode(c.mode))]
           + if c.lockFree then Plain([A.MarkedRunning]) + PipelineMoves(x)
             else Plain([A.OtherSaved, A.Finished(A.SKIPPED)])
  }

  // ------------------------------------------------------------- carrying them out

  /** A cycle on its way: its row, the desk, the calls made so far, and whether a call has raised. */
  datatype Progress = Progress(
    row: A.AutomationRun,
    columns: Columns,
    desk: Desk,
    calls: seq<L.Call>,
    saves: nat,
    raised: bool)

  function Changed(columns: Columns, change: Change): Columns {
    match change
    case Keep => columns
    case SetMode(mode) => columns.(mode := mode)
    case SetPlan(plan) => columns.(plan := Some(plan))
    case MarkSkipped => columns.(skipped := true)
  }

  function KeyOf(x: Inputs, i: nat): IdempotencyKey
    requires i < |x.plan.allocations|
  {
    IdempotencyKey(x.plan.id, x.plan.allocations[i].uid, x.plan.allocations[i].direction)
  }

  /** The stored order with a key, which the unique constraint makes the only one. */
  ghost function OrderWith(d: Desk, key: IdempotencyKey): Option<nat> {
    if KeyUsed(d, key) then
      var id: nat :| id in d.orders && d.orders[id].data.key == key;
      Some(id)
    else None
  }

  ghost predicate AllWaiting(d: Desk, x: Inputs) {
    forall i: nat :: i < |x.plan.allocations| ==>
      var id := OrderWith(d, KeyOf(x, i)); id.Some? && id.value in d.orders && d.orders[id.value].status == WAITING_CONFIRMATION
  }

  /** The call that executes an order; `crash` cuts it after its post to the broker. */
  function TradeCall(x: Inputs, i: nat, id: nat, crash: bool): L.Call {
    L.Call(if x.cycle.mode.SANDBOX? then L.ExecuteInSandbox(id, Observed(x, i), crash)
           else L.ExecuteDryRun(id, Observed(x, i)), x.risk)
  }

  /** `execute` and `execute_sandbox` return the order's trade, stored before or now, or raise. */
  predicate Traded(d: Desk, x: Inputs, i: nat, id: nat) {
    if x.cycle.mode.SANDBOX? then Observed(x, i).sandboxConfigured && HasExecution(d.executions, id)
    else HasTrade(d.trades, id)
  }

  ghost function Called(p: Progress, call: L.Call): Progress {
    p.(desk := L.Step(p.desk, call.action, call.risk), calls := p.calls + [call])
  }

  ghost function Do(p: Progress, x: Inputs, now: int, m: Move): Progress {
    if p.raised then p
    else
      match m
      case Save(commit, change) =>
        p.(row := A.Apply(p.row, now, commit), columns := Changed(p.columns, change), saves := p.saves + 1)
      case PlaceOrders =>
        Called(p, L.Call(L.PlanOrders(x.plan.id, x.plan.account, x.plan.allocations, x.planning), x.risk))
        .(raised := !CanPlan(p.desk, x.plan.id, x.plan.account, x.plan.allocations, x.planning, x.risk))
      case CheckWaiting => p.(raised := !AllWaiting(p.desk, x))
      case Trade(i) =>
        var id := if i < |x.plan.allocations| then OrderWith(p.desk, KeyOf(x, i)) else None;
        if id.None? then p.(raised := true)
        else
          var q := Called(p, TradeCall(x, i, id.value, false));
          q.(raised := !Traded(q.desk, x, i, id.value))
  }

  ghost function DoAll(p: Progress, x: Inputs, now: int, moves: seq<Move>): Progress {
    if moves == [] then p else Do(DoAll(p, x, now, moves[..|moves| - 1]), x, now, moves[|moves| - 1])
  }

  // ------------------------------------------------------------- interruptions

  /** After so many moves, and possibly inside the next one, between its post to the broker and the commit. */
  datatype Cut = NoCut | Crash(moves: nat, midPost: bool) | Failure(moves: nat, midPost: bool)

  function First(moves: seq<Move>, n: nat): seq<Move> {
    if n <= |moves| then moves[..n] else moves
  }

  /** The post that the interrupted call still makes. */
  ghost function LastPost(p: Progress, x: Inputs, moves: seq<Move>, cut: Cut): Progress {
    if cut.NoCut? || p.raised || !cut.midPost || cut.moves >= |moves| || !x.cycle.mode.SANDBOX? then p
    else
      match moves[cut.moves]
      case Trade(i) =>
        var id := if i < |x.plan.allocations| then OrderWith(p.desk, KeyOf(x, i)) else None;
        if id.None? then p else Called(p, TradeCall(x, i, id.value, true))
      case _ => p
  }

  /** Where the moves stop. */
  ghost function Stop(p: Progress, x: Inputs, now: int, cut: Cut): Progress {
    if cut.NoCut? then DoAll(p, x, now, Moves(x))
    else LastPost(DoAll(p, x, now, First(Moves(x), cut.moves)), x, Moves(x), cut)
  }

  /** `run` marks the run failed: after a failure, and after a call that raised unless the process died right then. */
  ghost predicate MarksFailed(p: Progress, x: Inputs, now: int, cut: Cut) {
    match cut
    case NoCut => DoAll(p, x, now, Moves(x)).raised
    case Crash(n, _) => n > 0 && DoAll(p, x, now, First(Moves(x), n - 1)).raised
    case Failure(_, _) => true
  }

  ghost function Finish(p: Progress, x: Inputs, now: int, cut: Cut): Progress {
    var q := Stop(p, x, now, cut);
    if MarksFailed(p, x, now, cut) then q.(row := A.Apply(q.row, now, A.Finished(A.FAILED))) else q
  }

  // ------------------------------------------------------------- histories

  datatype Action =
    | Deliver(correlation: A.CorrelationId, runId: Option<nat>, inputs: Inputs, now: int, cut: Cut)
    | Request(correlation: A.CorrelationId, mode: TradeMode, now: int, queued: bool)
    | RecoverStale(threshold: int, now: int)
    | DeskCall(call: L.Call)

  /** The row and columns a delivery starts from. */
  function Begin(w: World, a: Action, id: nat): Progress
    requires a.Deliver?
  {
    var stored := id in w.runs.rows && id in w.columns;
    Progress(if stored then w.runs.rows[id] else A.NewRun(a.correlation, a.now),
             if stored then w.columns[id] else Columns(a.inputs.cycle.mode, None, false),
             w.desk, [], 0, false)
  }

  ghost function Delivered(w: World, a: Action): World
    requires a.Deliver?
  {
    var id := A.Resolve(w.runs, a.correlation, a.runId);
    if id.None? then w
    else
      var runs := if a.runId.Some? then w.runs else A.Create(w.runs, a.correlation, a.now);
      var p := Finish(Begin(w, a, id.value), a.inputs, a.now, a.cut);
      World(runs.(rows := runs.rows[id.value := p.row]), w.columns[id.value := p.columns], p.desk)
  }

  ghost function Step(w: World, a: Action): World {
    match a
    case Deliver(_, _, _, _, _) => Delivered(w, a)
    case Request(correlation, mode, now, queued) =>
      var runs := A.Step(w.runs, A.Request(correlation, now, queued));
      if A.Known(w.runs, correlation) then w
      else w.(runs := runs, columns := w.columns[w.runs.nextId := Columns(mode, None, false)])
    case RecoverStale(threshold, now) => w.(runs := A.Step(w.runs, A.RecoverStale(threshold, now)))
    case DeskCall(call) => w.(desk := L.Step(w.desk, call.action, call.risk))
  }

  ghost function Run(w: World, history: seq<Action>): World {
    if history == [] then w else Step(Run(w, history[..|history| - 1]), history[|history| - 1])
  }
}
