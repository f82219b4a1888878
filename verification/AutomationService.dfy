/** The automation cycle service over its run table and the execution service, proved to take the steps of its cycles. */
module AutomationService {
  import opened Wrappers
  import opened RiskManager
  import A = Automation
  import D = OrderDesk
  import H = OrderHistory
  import L = OrderLifecycle
  import P = ExecutionPlanner
  import Q = AutomationProperties
  import T = TradingCycleProperties
  import X = ExecutionService
  import opened TradingCycle

  /** The row assignments `change` are those made since the last commit. */
  class AutomationRepository {
    var rows: map<nat, A.AutomationRun>
    var columns: map<nat, Columns>
    var nextId: nat

    constructor ()
      ensures State() == A.NONE && columns == map[]
    {
      rows, columns, nextId := map[], map[], 0;
    }

    function State(): A.Runs
      reads this
    {
      A.Runs(rows, nextId)
    }

    /** `create` */
    method Create(correlation: A.CorrelationId, mode: TradeMode, now: int) returns (id: nat, created: bool)
      modifies this
      ensures State() == A.Create(old(State()), correlation, now)
      ensures created <==> !A.Known(old(State()), correlation)
      ensures created ==> id == old(nextId) && columns == old(columns)[id := Columns(mode, None, false)]
      ensures !created ==> id in rows && rows[id].correlation == correlation && columns == old(columns)
    {
      var rest := rows.Keys;
      while rest != {}
        invariant rest <= rows.Keys && State() == old(State()) && columns == old(columns)
        invariant forall k :: k in rows && k !in rest ==> rows[k].correlation != correlation
        decreases |rest|
      {
        var k :| k in rest;
        if rows[k].correlation == correlation {
          return k, false;
        }
        rest := rest - {k};
      }
      id, created := nextId, true;
      rows := rows[id := A.AutomationRun(correlation, A.PENDING, A.SAFETY_CHECK, now)];
      columns := columns[id := Columns(mode, None, false)];
      nextId := nextId + 1;
    }

    method Commit(id: nat, row: A.AutomationRun, change: Change)
      requires id in columns
      modifies this`rows, this`columns
      ensures rows == old(rows)[id := row] && columns == old(columns)[id := Changed(old(columns)[id], change)]
    {
      rows := rows[id := row];
      match change
      case Keep =>
      case SetMode(mode) => columns := columns[id := columns[id].(mode := mode)];
      case SetPlan(plan) => columns := columns[id := columns[id].(plan := Some(plan))];
      case MarkSkipped => columns := columns[id := columns[id].(skipped := true)];
    }

    method UpdateStep(id: nat, step: A.CycleStep, now: int, change: Change)
      requires id in rows && id in columns
      modifies this`rows, this`columns
      ensures rows == old(rows)[id := A.Apply(old(rows)[id], now, A.Stepped(step))]
      ensures columns == old(columns)[id := Changed(old(columns)[id], change)]
    {
      Commit(id, rows[id].(step := step, heartbeat := now), change);
    }

    method MarkRunning(id: nat, now: int, change: Change)
      requires id in rows && id in columns
      modifies this`rows, this`columns
      ensures rows == old(rows)[id := A.Apply(old(rows)[id], now, A.MarkedRunning)]
      ensures columns == old(columns)[id := Changed(old(columns)[id], change)]
    {
      Commit(id, rows[id].(status := A.RUNNING, heartbeat := now), change);
    }

    method Finish(id: nat, status: A.RunStatus, now: int, change: Change)
      requires id in rows && id in columns
      modifies this`rows, this`columns
      ensures rows == old(rows)[id := A.Apply(old(rows)[id], now, A.Finished(status))]
      ensures columns == old(columns)[id := Changed(old(columns)[id], change)]
    {
      Commit(id, rows[id].(status := status, heartbeat := now), change);
    }

    /** A commit of other rows: an audit entry, or the broker's state. */
    method SaveOther(id: nat, now: int, change: Change)
      requires id in rows && id in columns
      modifies this`rows, this`columns
      ensures rows == old(rows)[id := A.Apply(old(rows)[id], now, A.OtherSaved)]
      ensures columns == old(columns)[id := Changed(old(columns)[id], change)]
    {
      Commit(id, rows[id], change);
    }

    /** `recover_stale` */
    method RecoverStale(threshold: int, now: int) returns (recovered: set<nat>)
      modifies this`rows
      ensures State() == A.Step(old(State()), A.RecoverStale(threshold, now))
      ensures recovered == set id | id in old(rows) && old(rows)[id].status.RUNNING? && old(rows)[id].heartbeat < threshold
    {
      recovered := {};
      var rest := rows.Keys;
      while rest != {}
        invariant rest <= rows.Keys == old(rows).Keys
        invariant forall id :: id in rows ==>
                    rows[id] == if id in rest then old(rows)[id] else A.Recovered(old(rows)[id], threshold, now)
        invariant forall id :: id in recovered <==>
                    id in rows && id !in rest && old(rows)[id].status.RUNNING? && old(rows)[id].heartbeat < threshold
        decreases |rest|
      {
        var id :| id in rest;
        if rows[id].status.RUNNING? && rows[id].heartbeat < threshold {
          rows := rows[id := rows[id].(status := A.FAILED, heartbeat := now)];
          recovered := recovered + {id};
        }
        rest := rest - {id};
      }
    }
  }

  // ------------------------------------------------------------- where the moves stand

  /** How a part of a cycle ended: it goes on, its worker died, or an exception is on its way to `run`. */
  datatype Outcome = Going | Died | Raised

  /** A cut before move `k`, to which no move had raised. */
  lemma StopsAtCut(p: Progress, x: Inputs, now: int, k: nat, cut: Cut)
    requires k < |Moves(x)| && !cut.NoCut? && cut.moves == k && !DoAll(p, x, now, Moves(x)[..k]).raised
    ensures Stop(p, x, now, cut) == LastPost(DoAll(p, x, now, Moves(x)[..k]), x, Moves(x), cut)
    ensures MarksFailed(p, x, now, cut) <==> cut.Failure?
  {
    hide Moves, DoAll, Do, LastPost;
    if k > 0 && DoAll(p, x, now, Moves(x)[..k - 1]).raised {
      T.RaisedAlong(p, x, now, k - 1, k);
    }
  }

  /** Move `k` raised. */
  lemma StopsAtRaise(p: Progress, x: Inputs, now: int, k: nat, cut: Cut)
    requires k < |Moves(x)| && (cut.NoCut? || k < cut.moves)
    requires !DoAll(p, x, now, Moves(x)[..k]).raised && DoAll(p, x, now, Moves(x)[..k + 1]).raised
    ensures Stop(p, x, now, cut) == DoAll(p, x, now, Moves(x)[..k + 1])
    ensures MarksFailed(p, x, now, cut) <==> !(cut.Crash? && cut.moves == k + 1)
  {
    hide Moves, DoAll, Do;
    var moves := Moves(x);
    assert moves[..|moves|] == moves;
    T.RaisedAlong(p, x, now, k + 1, |moves|);
    if !cut.NoCut? && cut.moves <= |moves| {
      T.RaisedAlong(p, x, now, k + 1, cut.moves);
    }
    if !cut.NoCut? && k + 1 <= cut.moves - 1 <= |moves| {
      T.RaisedAlong(p, x, now, k + 1, cut.moves - 1);
    }
  }

  /** All moves made. */
  lemma StopsAtEnd(p: Progress, x: Inputs, now: int, cut: Cut)
    requires cut.NoCut? || |Moves(x)| <= cut.moves
    requires !DoAll(p, x, now, Moves(x)[..|Moves(x)|]).raised
    ensures Stop(p, x, now, cut) == DoAll(p, x, now, Moves(x)[..|Moves(x)|])
    ensures MarksFailed(p, x, now, cut) <==> cut.Failure?
  {
    hide Moves, DoAll, Do;
    var moves := Moves(x);
    assert moves[..|moves|] == moves;
    if cut.Crash? && cut.moves == |moves| > 0 {
      assert First(moves, cut.moves - 1) == moves[..|moves| - 1];
      if DoAll(p, x, now, moves[..|moves| - 1]).raised {
        T.RaisedAlong(p, x, now, |moves| - 1, |moves|);
      }
    }
  }

  /** Keys are unique, so a stored order with a key is the one. */
  lemma OnlyOrderWith(d: D.Desk, key: IdempotencyKey, order: nat)
    requires L.Consistent(d) && order in d.orders && d.orders[order].data.key == key
    ensures OrderWith(d, key) == Some(order)
  {
    T.OrderWithIs(d, key);
  }

  /** What executing an order does to a cycle, its key's order being known. */
  lemma TradeIs(p: Progress, x: Inputs, now: int, i: nat, order: nat)
    requires !p.raised && L.Consistent(p.desk) && i < |x.plan.allocations|
    requires order in p.desk.orders && p.desk.orders[order].data.key == KeyOf(x, i)
    ensures var q, call := Do(p, x, now, Trade(i)), TradeCall(x, i, order, false);
            && q.row == p.row && q.columns == p.columns && q.desk == L.Step(p.desk, call.action, call.risk)
            && (q.raised <==> !Traded(q.desk, x, i, order))
  {
    hide L.Step, L.Consistent, Traded, TradeCall, OrderWith;
    OnlyOrderWith(p.desk, KeyOf(x, i), order);
  }

  /** A cut within the call that executes an order still posts it. */
  lemma LastPostIs(p: Progress, x: Inputs, moves: seq<Move>, cut: Cut, i: nat, order: nat)
    requires !p.raised && L.Consistent(p.desk) && i < |x.plan.allocations|
    requires order in p.desk.orders && p.desk.orders[order].data.key == KeyOf(x, i)
    requires !cut.NoCut? && cut.midPost && x.cycle.mode.SANDBOX? && cut.moves < |moves| && moves[cut.moves] == Trade(i)
    ensures var q := LastPost(p, x, moves, cut);
            && q.row == p.row && q.columns == p.columns
            && q.desk == D.ExecuteSandbox(p.desk, order, Observed(x, i), x.risk, true) && L.Consistent(q.desk)
  {
    hide L.Step, L.Consistent, OrderWith, D.ExecuteSandbox;
    OnlyOrderWith(p.desk, KeyOf(x, i), order);
    T.CallExtends(p.desk, TradeCall(x, i, order, true));
    StepIsSandbox(p.desk, order, Observed(x, i), true, x.risk);
  }

  lemma StepIsSandbox(d: D.Desk, order: nat, env: D.Environment, crash: bool, risk: D.RiskProfile)
    ensures L.Step(d, L.ExecuteInSandbox(order, env, crash), risk) == D.ExecuteSandbox(d, order, env, risk, crash)
  {
    hide D.ExecuteSandbox;
  }

  lemma StepIsPlanning(d: D.Desk, x: Inputs)
    ensures L.Step(d, L.PlanOrders(x.plan.id, x.plan.account, x.plan.allocations, x.planning), x.risk)
         == D.PlanPlaced(d, x.plan.id, x.plan.account, x.plan.allocations, x.planning, x.risk)
  {
    hide D.PlanPlaced;
  }

  lemma ConsistentIds(d: D.Desk)
    requires L.Consistent(d)
    ensures forall id :: id in d.orders ==> id < d.nextId
  {
  }

  // ------------------------------------------------------------- the service

  class AutomationCycleService {
    const repository: AutomationRepository
    const execution: X.Service

    /** The moves made by the delivery at work, and the interruption that awaits it. */
    var moved: nat
    var cut: Cut
    ghost var before: World
    ghost var start: Progress

    function State(): World
      reads this, repository, execution.repository, execution.broker
    {
      World(repository.State(), repository.columns, execution.State())
    }

    constructor ()
      ensures State() == NOTHING
      ensures fresh(repository) && fresh(execution.repository) && fresh(execution.broker)
    {
      repository := new AutomationRepository();
      execution := new X.Service();
      moved, cut := 0, NoCut;
    }

    ghost predicate Stands(q: Progress, id: nat)
      reads this, repository, execution.repository, execution.broker
    {
      && repository.State() == before.runs.(rows := before.runs.rows[id := q.row])
      && repository.columns == before.columns[id := q.columns]
      && execution.State() == q.desk && L.Consistent(q.desk)
    }

    /** Exactly the first moves have been made, none has raised, and the cut is still ahead. */
    ghost predicate Underway(id: nat, x: Inputs, now: int)
      reads this, repository, execution.repository, execution.broker
    {
      && moved <= |Moves(x)| && (cut.NoCut? || moved <= cut.moves)
      && !DoAll(start, x, now, Moves(x)[..moved]).raised
      && Stands(DoAll(start, x, now, Moves(x)[..moved]), id)
    }

    ghost predicate Halted(id: nat, x: Inputs, now: int, o: Outcome)
      reads this, repository, execution.repository, execution.broker
    {
      && Stands(Stop(start, x, now, cut), id)
      && (o.Raised? <==> MarksFailed(start, x, now, cut))
    }

    /** The cut comes before this move. */
    predicate CutHere()
      reads this
    {
      !cut.NoCut? && cut.moves <= moved
    }

    method Interrupt(id: nat, x: Inputs, now: int) returns (o: Outcome)
      requires Underway(id, x, now) && moved < |Moves(x)| && CutHere()
      requires Moves(x)[moved].Trade? ==> !cut.midPost || !x.cycle.mode.SANDBOX?
      ensures !o.Going? && Halted(id, x, now, o)
    {
      hide Moves, DoAll, L.Consistent;
      StopsAtCut(start, x, now, moved, cut);
      o := if cut.Failure? then Raised else Died;
    }

    method StoreRow(id: nat, now: int, commit: A.Commit, change: Change)
      requires id in repository.rows && id in repository.columns
      modifies repository
      ensures repository.rows == old(repository.rows[id := A.Apply(repository.rows[id], now, commit)])
      ensures repository.nextId == old(repository.nextId)
      ensures repository.columns == old(repository.columns[id := Changed(repository.columns[id], change)])
    {
      hide A.Apply;
      match commit
      case Stepped(step) => repository.UpdateStep(id, step, now, change);
      case MarkedRunning => repository.MarkRunning(id, now, change);
      case OtherSaved => repository.SaveOther(id, now, change);
      case Finished(status) => repository.Finish(id, status, now, change);
    }

    /** A commit of the run row. */
    method Save(id: nat, x: Inputs, now: int, commit: A.Commit, change: Change) returns (o: Outcome)
      requires Underway(id, x, now) && moved < |Moves(x)| && Moves(x)[moved] == TradingCycle.Save(commit, change)
      modifies repository, this`moved
      ensures o.Going? ==> Underway(id, x, now) && moved == old(moved) + 1
      ensures !o.Going? ==> Halted(id, x, now, o)
    {
      hide Moves, DoAll, L.Consistent, A.Apply, Changed, Stop, MarksFailed;
      if CutHere() {
        o := Interrupt(id, x, now);
        return;
      }
      T.DoAllNext(start, x, now, Moves(x), moved);
      StoreRow(id, now, commit, change);
      moved := moved + 1;
      o := Going;
    }

    /** How a cycle ends whose last call raised. */
    method Raise(id: nat, x: Inputs, now: int) returns (o: Outcome)
      requires 0 < moved <= |Moves(x)| && (cut.NoCut? || moved <= cut.moves)
      requires !DoAll(start, x, now, Moves(x)[..moved - 1]).raised && DoAll(start, x, now, Moves(x)[..moved]).raised
      requires Stands(DoAll(start, x, now, Moves(x)[..moved]), id)
      ensures !o.Going? && Halted(id, x, now, o)
    {
      hide Moves, DoAll, L.Consistent, Stop, MarksFailed;
      StopsAtRaise(start, x, now, moved - 1, cut);
      o := if cut.Crash? && cut.moves == moved then Died else Raised;
    }

    /** The ids are those of the plan's orders, in its order. */
    ghost predicate Planned(ids: seq<nat>, x: Inputs)
      reads execution.repository
    {
      && |ids| == |x.plan.allocations|
      && forall i :: 0 <= i < |ids| ==>
           ids[i] in execution.repository.orders && execution.repository.orders[ids[i]].data.key == KeyOf(x, i)
    }

    method PlaceOrders(id: nat, x: Inputs, now: int) returns (o: Outcome, ids: seq<nat>)
      requires Underway(id, x, now) && moved < |Moves(x)| && Moves(x)[moved] == TradingCycle.PlaceOrders
      modifies execution.repository, this`moved
      ensures o.Going? ==> Underway(id, x, now) && moved == old(moved) + 1 && Planned(ids, x)
      ensures !o.Going? ==> Halted(id, x, now, o)
    {
      hide Moves, DoAll, L.Consistent, L.Step, Stop, MarksFailed, D.PlanPlaced, D.CanPlan, Halted, P.OrdersFor;
      ids := [];
      if CutHere() {
        o := Interrupt(id, x, now);
        return;
      }
      ghost var q := DoAll(start, x, now, Moves(x)[..moved]);
      T.DoAllNext(start, x, now, Moves(x), moved);
      T.DoExtends(q, x, now, TradingCycle.PlaceOrders);
      StepIsPlanning(q.desk, x);
      ConsistentIds(q.desk);
      var r := execution.PlanOrders(x.plan.id, x.plan.account, x.plan.allocations, x.planning, x.risk);
      moved := moved + 1;
      if r.Failure? {
        o := Raise(id, x, now);
        return;
      }
      ids, o := r.value, Going;
    }

    /** The check of the manual mode. */
    method CheckWaiting(id: nat, x: Inputs, now: int, ids: seq<nat>) returns (o: Outcome)
      requires Underway(id, x, now) && moved < |Moves(x)| && Moves(x)[moved] == TradingCycle.CheckWaiting && Planned(ids, x)
      modifies this`moved
      ensures o.Going? ==> Underway(id, x, now) && moved == old(moved) + 1
      ensures !o.Going? ==> Halted(id, x, now, o)
    {
      hide Moves, DoAll, L.Consistent, Stop, MarksFailed, Halted, OrderWith;
      if CutHere() {
        o := Interrupt(id, x, now);
        return;
      }
      ghost var q := DoAll(start, x, now, Moves(x)[..moved]);
      T.DoAllNext(start, x, now, Moves(x), moved);
      var safe := forall i :: 0 <= i < |ids| ==> execution.repository.orders[ids[i]].status == D.WAITING_CONFIRMATION;
      forall i | 0 <= i < |ids| ensures OrderWith(q.desk, KeyOf(x, i)) == Some(ids[i]) {
        OnlyOrderWith(q.desk, KeyOf(x, i), ids[i]);
      }
      assert safe <==> AllWaiting(q.desk, x);
      moved := moved + 1;
      if !safe {
        o := Raise(id, x, now);
        return;
      }
      o := Going;
    }

    /** The interrupted call that executes an order: in SANDBOX it may have posted before. */
    method InterruptOrder(id: nat, x: Inputs, now: int, order: nat, i: nat) returns (o: Outcome)
      requires Underway(id, x, now) && moved < |Moves(x)| && CutHere() && Moves(x)[moved] == Trade(i)
      requires i < |x.plan.allocations| && order in execution.repository.orders
      requires execution.repository.orders[order].data.key == KeyOf(x, i)
      modifies execution.repository, execution.broker
      ensures !o.Going? && Halted(id, x, now, o)
    {
      hide Moves, DoAll, L.Consistent, MarksFailed, Stop, D.ExecuteSandbox, LastPost;
      if !cut.midPost || !x.cycle.mode.SANDBOX? {
        o := Interrupt(id, x, now);
        return;
      }
      StopsAtCut(start, x, now, moved, cut);
      LastPostIs(DoAll(start, x, now, Moves(x)[..moved]), x, Moves(x), cut, i, order);
      var _ := execution.ExecuteSandbox(order, Observed(x, i), x.risk, true);
      o := if cut.Failure? then Raised else Died;
    }

    /** The call of the mode's execution. */
    method TradeOrder(x: Inputs, i: nat, order: nat) returns (ok: bool)
      requires x.cycle.mode in {DRY_RUN, SANDBOX} && order in execution.repository.orders
      modifies execution.repository, execution.broker
      ensures var call := TradeCall(x, i, order, false); execution.State() == L.Step(old(execution.State()), call.action, call.risk)
      ensures ok <==> Traded(execution.State(), x, i, order)
    {
      hide D.Execute, D.ExecuteSandbox;
      if x.cycle.mode.DRY_RUN? {
        var r := execution.Execute(order, Observed(x, i), x.risk);
        ok := r.Success?;
      } else {
        var r := execution.ExecuteSandbox(order, Observed(x, i), x.risk, false);
        ok := r.Success?;
      }
    }

    /** One turn of the loop over the orders. */
    method ExecuteOrder(id: nat, x: Inputs, now: int, ids: seq<nat>, i: nat) returns (o: Outcome)
      requires Underway(id, x, now) && moved < |Moves(x)| && i < |ids| && Planned(ids, x)
      requires Moves(x)[moved] == Trade(i) && x.cycle.mode in {DRY_RUN, SANDBOX}
      modifies execution.repository, execution.broker, this`moved
      ensures o.Going? ==> Underway(id, x, now) && moved == old(moved) + 1 && Planned(ids, x)
      ensures !o.Going? ==> Halted(id, x, now, o)
    {
      hide Moves, DoAll, L.Consistent, L.Step, Stop, MarksFailed, Traded, TradeCall, Halted, H.Extends;
      if CutHere() {
        o := InterruptOrder(id, x, now, ids[i], i);
        return;
      }
      ghost var q := DoAll(start, x, now, Moves(x)[..moved]);
      T.DoAllNext(start, x, now, Moves(x), moved);
      T.DoExtends(q, x, now, Trade(i));
      TradeIs(q, x, now, i, ids[i]);
      var ok := TradeOrder(x, i, ids[i]);
      PlannedStays(ids, x, q.desk);
      moved := moved + 1;
      if !ok {
        o := Raise(id, x, now);
        return;
      }
      o := Going;
    }

    lemma PlannedStays(ids: seq<nat>, x: Inputs, before: D.Desk)
      requires H.Extends(before, execution.State()) && |ids| == |x.plan.allocations|
      requires forall i :: 0 <= i < |ids| ==> ids[i] in before.orders && before.orders[ids[i]].data.key == KeyOf(x, i)
      ensures Planned(ids, x)
    {
    }

    /** `_run_guarded` */
    method RunGuarded(id: nat, x: Inputs, now: int) returns (o: Outcome)
      requires Underway(id, x, now) && moved == 0
      modifies repository, execution.repository, execution.broker, this`moved
      ensures o.Going? ==> Underway(id, x, now) && moved == |Moves(x)|
      ensures !o.Going? ==> Halted(id, x, now, o)
    {
      hide Underway, Halted, PipelineMoves;
      var mode := x.cycle.mode;
      o := Save(id, x, now, A.Stepped(A.SAFETY_CHECK), Keep);
      if !o.Going? {
        return;
      }
      if mode.OFF? {
        o := Save(id, x, now, A.Finished(A.SKIPPED), SetMode(mode));
        return;
      }
      if x.cycle.killSwitch {
        o := Save(id, x, now, A.OtherSaved, SetMode(mode));
        if o.Going? {
          o := Save(id, x, now, A.Finished(A.SKIPPED), Keep);
        }
        return;
      }
      o := Save(id, x, now, A.Stepped(A.ACCOUNT_SYNC), SetMode(mode));
      if !o.Going? {
        return;
      }
      if !x.cycle.lockFree {
        o := Save(id, x, now, A.OtherSaved, Keep);
        if o.Going? {
          o := Save(id, x, now, A.Finished(A.SKIPPED), Keep);
        }
        return;
      }
      o := Save(id, x, now, A.MarkedRunning, Keep);
      if o.Going? {
        o := RunPipeline(id, x, now);
      }
    }

    /** `_run_pipeline` */
    method RunPipeline(id: nat, x: Inputs, now: int) returns (o: Outcome)
      requires !x.cycle.mode.OFF? && !x.cycle.killSwitch && x.cycle.lockFree
      requires Underway(id, x, now) && moved == 3
      modifies repository, execution.repository, execution.broker, this`moved
      ensures o.Going? ==> Underway(id, x, now) && moved == |Moves(x)|
      ensures !o.Going? ==> Halted(id, x, now, o)
    {
      hide Underway, Halted, Moves, ExecutionMoves;
      T.FromPipeline(x);
      T.SliceAt(Moves(x), 3, 8);
      T.SliceAt(Moves(x), 8, |Moves(x)|);
      o := Save(id, x, now, A.Stepped(A.PORTFOLIO_SYNC), Keep);
      if !o.Going? {
        return;
      }
      o := Save(id, x, now, A.OtherSaved, Keep);
      if !o.Going? {
        return;
      }
      o := Save(id, x, now, A.Stepped(A.MARKET_DATA_SYNC), Keep);
      if !o.Going? {
        return;
      }
      o := Save(id, x, now, A.Stepped(A.SIGNAL_ANALYSIS), Keep);
      if !o.Going? {
        return;
      }
      o := Save(id, x, now, A.Stepped(A.PORTFOLIO_OPTIMIZATION), Keep);
      if !o.Going? {
        return;
      }
      if x.cycle.mode.SIGNAL_ONLY? {
        o := Succeed(id, x, now, Keep);
        return;
      }
      o := Save(id, x, now, A.Stepped(A.REBALANCE_PLANNING), Keep);
      if !o.Going? {
        return;
      }
      if x.cycle.marketOpen {
        o := RunExecution(id, x, now);
        return;
      }
      T.ClosedAt(x);
      o := Save(id, x, now, A.OtherSaved, SetPlan(x.plan));
      if o.Going? {
        o := Succeed(id, x, now, MarkSkipped);
      }
    }

    /** `_succeed` */
    method Succeed(id: nat, x: Inputs, now: int, change: Change) returns (o: Outcome)
      requires Underway(id, x, now) && moved + 2 == |Moves(x)|
      requires Moves(x)[moved] == TradingCycle.Save(A.Stepped(A.COMPLETED), Keep)
      requires Moves(x)[moved + 1] == TradingCycle.Save(A.Finished(A.SUCCEEDED), change)
      modifies repository, this`moved
      ensures o.Going? ==> Underway(id, x, now) && moved == |Moves(x)|
      ensures !o.Going? ==> Halted(id, x, now, o)
    {
      hide Moves, Underway, Halted;
      o := Save(id, x, now, A.Stepped(A.COMPLETED), Keep);
      if o.Going? {
        o := Save(id, x, now, A.Finished(A.SUCCEEDED), change);
      }
    }

    /** The pipeline with the market open: plan the orders, execute them as the mode says, and succeed. */
    method RunExecution(id: nat, x: Inputs, now: int) returns (o: Outcome)
      requires !x.cycle.mode.OFF? && !x.cycle.killSwitch && x.cycle.lockFree && !x.cycle.mode.SIGNAL_ONLY?
      requires x.cycle.marketOpen && Underway(id, x, now) && moved == 9
      modifies repository, execution.repository, execution.broker, this`moved
      ensures o.Going? ==> Underway(id, x, now) && moved == |Moves(x)|
      ensures !o.Going? ==> Halted(id, x, now, o)
    {
      hide Underway, Halted, Moves;
      T.ExecutionAt(x);
      T.ModeMovesAt(x);
      o := Save(id, x, now, A.Stepped(A.EXECUTION_PLANNING), SetPlan(x.plan));
      if !o.Going? {
        return;
      }
      var ids;
      o, ids := PlaceOrders(id, x, now);
      if !o.Going? {
        return;
      }
      o := Save(id, x, now, A.Stepped(A.MODE_EXECUTION), Keep);
      if !o.Going? {
        return;
      }
      if x.cycle.mode in {DRY_RUN, SANDBOX} {
        o := ExecuteOrders(id, x, now, ids);
      } else if x.cycle.mode.REAL_MANUAL_CONFIRM? {
        o := CheckWaiting(id, x, now, ids);
      } else {
        o := Save(id, x, now, A.Finished(A.SKIPPED), Keep);
        return;
      }
      if !o.Going? {
        return;
      }
      o := Save(id, x, now, A.Stepped(A.FINAL_RECONCILIATION), Keep);
      if o.Going? {
        o := Succeed(id, x, now, Keep);
      }
    }

    /** The loop over the orders: it ends at the first that is refused. */
    method ExecuteOrders(id: nat, x: Inputs, now: int, ids: seq<nat>) returns (o: Outcome)
      requires Underway(id, x, now) && Planned(ids, x) && x.cycle.mode in {DRY_RUN, SANDBOX}
      requires moved + |ids| <= |Moves(x)| && forall i :: 0 <= i < |ids| ==> Moves(x)[moved + i] == Trade(i)
      modifies execution.repository, execution.broker, this`moved
      ensures o.Going? ==> Underway(id, x, now) && moved == old(moved) + |ids|
      ensures !o.Going? ==> Halted(id, x, now, o)
    {
      hide Underway, Halted, Moves, Planned;
      o := Going;
      for i := 0 to |ids|
        invariant o.Going? && Underway(id, x, now) && Planned(ids, x) && moved == old(moved) + i
      {
        assert Moves(x)[old(moved) + i] == Trade(i);
        o := ExecuteOrder(id, x, now, ids, i);
        if !o.Going? {
          return;
        }
      }
    }

    /** The guarded part of `run`: execute the run, and mark it failed if an exception or the timeout ended it. */
    method Execute(id: nat, x: Inputs, now: int, interruption: Cut)
      requires L.Consistent(execution.State()) && id in repository.rows && id in repository.columns
      modifies this, repository, execution.repository, execution.broker
      ensures var w := old(State());
              var e := TradingCycle.Finish(Progress(w.runs.rows[id], w.columns[id], w.desk, [], 0, false), x, now, interruption);
              State() == World(w.runs.(rows := w.runs.rows[id := e.row]), w.columns[id := e.columns], e.desk)
    {
      hide Underway, Halted, DoAll, Moves, L.Consistent, A.Apply, TradingCycle.Finish, Stands;
      moved, cut := 0, interruption;
      before := State();
      start := Progress(before.runs.rows[id], before.columns[id], before.desk, [], 0, false);
      NothingMoved(id, x, now);
      var o := RunGuarded(id, x, now);
      if o.Going? {
        AllMoved(id, x, now);
        o := if cut.Failure? then Raised else Died;
      }
      HaltedAt(id, x, now, o);
      if o.Raised? {
        repository.Finish(id, A.FAILED, now, Keep);
      }
    }

    /** `run` */
    method Run(correlation: A.CorrelationId, runId: Option<nat>, x: Inputs, now: int, interruption: Cut)
      requires T.Valid(State())
      modifies this, repository, execution.repository, execution.broker
      ensures State() == Step(old(State()), Deliver(correlation, runId, x, now, interruption))
      ensures T.Valid(State())
    {
      hide T.Valid, L.Consistent, Step, TradingCycle.Finish;
      ghost var w, delivery := State(), Deliver(correlation, runId, x, now, interruption);
      T.StepValid(w, delivery);
      ValidRows(w);
      var id;
      if runId.Some? {
        id := runId.value;
        if id !in repository.rows || repository.rows[id].status != A.PENDING {
          NotResolved(w, delivery);
          return;
        }
      } else {
        var created;
        id, created := repository.Create(correlation, x.cycle.mode, now);
        if !created {
          NotResolved(w, delivery);
          return;
        }
      }
      DeliveredIs(w, delivery, id);
      Execute(id, x, now, interruption);
    }

    lemma NothingMoved(id: nat, x: Inputs, now: int)
      requires moved == 0 && id in before.runs.rows && id in before.columns && L.Consistent(start.desk) && T.Fresh(start)
      requires State() == before && before.desk == start.desk
      requires start.row == before.runs.rows[id] && start.columns == before.columns[id]
      ensures Underway(id, x, now)
    {
      hide Moves, L.Consistent;
      assert Moves(x)[..0] == [];
      assert before.runs.rows[id := start.row] == before.runs.rows;
      assert before.columns[id := start.columns] == before.columns;
    }

    lemma AllMoved(id: nat, x: Inputs, now: int)
      requires Underway(id, x, now) && moved == |Moves(x)|
      ensures Halted(id, x, now, if cut.Failure? then Raised else Died)
    {
      hide Moves, L.Consistent, DoAll, Stop, MarksFailed;
      StopsAtEnd(start, x, now, cut);
    }

    /** Once the failed run is marked, the row stands as the specification's delivery ends. */
    lemma HaltedAt(id: nat, x: Inputs, now: int, o: Outcome)
      requires Halted(id, x, now, o)
      ensures var e := TradingCycle.Finish(start, x, now, cut);
              && repository.rows.Keys == before.runs.rows.Keys + {id} && id in repository.columns
              && repository.State()
                 == before.runs.(rows := before.runs.rows[id := Stop(start, x, now, cut).row])
              && e.row == (if o.Raised? then A.Apply(repository.rows[id], now, A.Finished(A.FAILED)) else repository.rows[id])
              && repository.columns == before.columns[id := e.columns] && execution.State() == e.desk
    {
      hide L.Consistent, Stop, MarksFailed, A.Apply;
    }
  }

  lemma ValidRows(w: World)
    requires T.Valid(w)
    ensures w.columns.Keys == w.runs.rows.Keys && L.Consistent(w.desk) && forall id :: id in w.runs.rows ==> id < w.runs.nextId
  {
    hide L.Consistent, Q.RowValid, T.ColumnsValid;
  }

  lemma NotResolved(w: World, a: Action)
    requires a.Deliver? && A.Resolve(w.runs, a.correlation, a.runId).None?
    ensures Step(w, a) == w
  {
  }

  lemma DeliveredIs(w: World, a: Action, id: nat)
    requires T.Valid(w) && a.Deliver? && A.Resolve(w.runs, a.correlation, a.runId) == Some(id)
    ensures var p, e := Begin(w, a, id), TradingCycle.Finish(Begin(w, a, id), a.inputs, a.now, a.cut);
            var runs := if a.runId.Some? then w.runs else A.Create(w.runs, a.correlation, a.now);
            && T.Fresh(p) && p.desk == w.desk && id in runs.rows && p.row == runs.rows[id]
            && p.columns == (if a.runId.Some? then w.columns[id] else Columns(a.inputs.cycle.mode, None, false))
            && Step(w, a) == World(runs.(rows := runs.rows[id := e.row]), w.columns[id := e.columns], e.desk)
  {
    hide TradingCycle.Finish, L.Consistent, Q.RowValid, T.ColumnsValid;
    ValidRows(w);
  }
}
