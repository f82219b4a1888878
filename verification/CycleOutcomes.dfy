/** When a cycle succeeds, in terms of its inputs and of what it leaves on the desk. */
module CycleOutcomes {
  import opened Wrappers
  import opened RiskManager
  import opened ExecutionPlanner
  import opened OrderDesk
  import L = OrderLifecycle
  import H = OrderHistory
  import A = Automation
  import Q = AutomationProperties
  import opened TradingCycle
  import opened TradingCycleProperties

  /** The mode, the kill switch, the lock and the market let the cycle trade its plan. */
  predicate Trades(c: A.Cycle) {
    && c.mode in {DRY_RUN, SANDBOX, REAL_MANUAL_CONFIRM}
    && !c.killSwitch && c.lockFree && c.marketOpen
  }

  /** The order is as the mode leaves it: traded, recorded with the broker configured, or waiting. */
  ghost predicate LeftBy(d: Desk, x: Inputs, i: nat, id: nat)
    requires id in d.orders
  {
    match x.cycle.mode
    case DRY_RUN => exists k :: 0 <= k < |d.trades| && d.trades[k].order == id
    case SANDBOX => Observed(x, i).sandboxConfigured && exists k :: 0 <= k < |d.executions| && d.executions[k].order == id
    case _ => d.orders[id].status == WAITING_CONFIRMATION
  }

  /** The order of an allocation, stored under its key, is as the mode leaves it. */
  ghost predicate Done(d: Desk, x: Inputs, i: nat) {
    i < |x.plan.allocations| && exists id :: id in d.orders && d.orders[id].data.key == KeyOf(x, i) && LeftBy(d, x, i, id)
  }

  ghost predicate AllDone(d: Desk, x: Inputs, n: nat) {
    forall i: nat :: i < n ==> Done(d, x, i)
  }

  /** What a move needs in order not to raise. */
  ghost predicate MoveDone(p: Desk, d: Desk, x: Inputs, m: Move) {
    match m
    case Save(_, _) => true
    case PlaceOrders => CanPlan(p, x.plan.id, x.plan.account, x.plan.allocations, x.planning, x.risk)
    case CheckWaiting => AllDone(d, x, |x.plan.allocations|)
    case Trade(i) => Done(d, x, i)
  }

  lemma OnlyOrder(d: Desk, key: IdempotencyKey, id: nat)
    requires L.Consistent(d) && id in d.orders && d.orders[id].data.key == key
    ensures OrderWith(d, key) == Some(id)
  {
    OrderWithIs(d, key);
  }

  lemma NoOrder(d: Desk, key: IdempotencyKey)
    ensures OrderWith(d, key).None? <==> forall id :: id in d.orders ==> d.orders[id].data.key != key
  {
  }

  lemma DoneIs(d: Desk, x: Inputs, i: nat)
    requires L.Consistent(d) && i < |x.plan.allocations|
    ensures x.cycle.mode in {DRY_RUN, SANDBOX} ==>
              (Done(d, x, i) <==> var id := OrderWith(d, KeyOf(x, i)); id.Some? && Traded(d, x, i, id.value))
    ensures x.cycle.mode == REAL_MANUAL_CONFIRM ==>
              (Done(d, x, i) <==>
                 var id := OrderWith(d, KeyOf(x, i));
                 id.Some? && id.value in d.orders && d.orders[id.value].status == WAITING_CONFIRMATION)
  {
    hide L.Consistent;
    var id := OrderWith(d, KeyOf(x, i));
    NoOrder(d, KeyOf(x, i));
    OrderWithIs(d, KeyOf(x, i));
    forall other | other in d.orders && d.orders[other].data.key == KeyOf(x, i) ensures id == Some(other) {
      OnlyOrder(d, KeyOf(x, i), other);
    }
  }

  /** A move raises exactly if what it needs is not there once it is made. */
  lemma RaisesExactly(p: Progress, x: Inputs, now: int, m: Move)
    requires L.Consistent(p.desk) && !p.raised
    requires m.Trade? ==> x.cycle.mode in {DRY_RUN, SANDBOX} && m.i < |x.plan.allocations|
    requires m.CheckWaiting? ==> x.cycle.mode == REAL_MANUAL_CONFIRM
    ensures Do(p, x, now, m).raised <==> !MoveDone(p.desk, Do(p, x, now, m).desk, x, m)
  {
    hide L.Step, L.Consistent, CanPlan, H.Extends, A.Apply, Changed, Done, Traded, OrderWith;
    var e := Do(p, x, now, m).desk;
    DoExtends(p, x, now, m);
    match m
    case Save(_, _) =>
    case PlaceOrders =>
    case CheckWaiting =>
      forall i: nat | i < |x.plan.allocations|
        ensures Done(p.desk, x, i) <==>
                  var id := OrderWith(p.desk, KeyOf(x, i));
                  id.Some? && id.value in p.desk.orders && p.desk.orders[id.value].status == WAITING_CONFIRMATION
      {
        DoneIs(p.desk, x, i);
      }
    case Trade(i) => TradeRaises(p, x, now, i);
  }

  lemma TradeRaises(p: Progress, x: Inputs, now: int, i: nat)
    requires L.Consistent(p.desk) && !p.raised && x.cycle.mode in {DRY_RUN, SANDBOX} && i < |x.plan.allocations|
    ensures Do(p, x, now, Trade(i)).raised <==> !Done(Do(p, x, now, Trade(i)).desk, x, i)
  {
    hide L.Step, L.Consistent, H.Extends, A.Apply, Changed, Done, Traded;
    var e, key := Do(p, x, now, Trade(i)).desk, KeyOf(x, i);
    DoExtends(p, x, now, Trade(i));
    DoneIs(e, x, i);
    OrderWithIs(p.desk, key);
    if OrderWith(p.desk, key).Some? {
      KeyKept(p.desk, e, OrderWith(p.desk, key).value);
      OnlyOrder(e, key, OrderWith(p.desk, key).value);
    }
  }

  // ------------------------------------------------------------- what is done stays done

  lemma DoneStays(p: Progress, x: Inputs, now: int, m: Move, i: nat)
    requires L.Consistent(p.desk) && Done(p.desk, x, i)
    requires x.cycle.mode in {DRY_RUN, SANDBOX} || m.Save?
    ensures Done(Do(p, x, now, m).desk, x, i)
  {
    hide L.Step, L.Consistent, A.Apply, Changed, CanPlan, AllWaiting, OrderWith, Traded, TradeCall;
    var e := Do(p, x, now, m).desk;
    if !m.Save? {
      DoExtends(p, x, now, m);
      var id :| id in p.desk.orders && p.desk.orders[id].data.key == KeyOf(x, i) && LeftBy(p.desk, x, i, id);
      DoneKept(p.desk, e, x, i, id);
    }
  }

  lemma DoneKept(d: Desk, e: Desk, x: Inputs, i: nat, id: nat)
    requires H.Extends(d, e) && i < |x.plan.allocations| && id in d.orders && d.orders[id].data.key == KeyOf(x, i)
    requires x.cycle.mode in {DRY_RUN, SANDBOX} && LeftBy(d, x, i, id)
    ensures Done(e, x, i)
  {
    KeyKept(d, e, id);
    if x.cycle.mode.DRY_RUN? {
      var k :| 0 <= k < |d.trades| && d.trades[k].order == id;
      assert e.trades[k].order == id;
    } else {
      var k :| 0 <= k < |d.executions| && d.executions[k].order == id;
      assert e.executions[k].order == id;
    }
  }

  // ------------------------------------------------------------- the whole cycle

  ghost function At(p: Progress, x: Inputs, now: int, n: nat): Progress
    requires n <= |Moves(x)|
  {
    DoAll(p, x, now, Moves(x)[..n])
  }

  lemma AtNext(p: Progress, x: Inputs, now: int, n: nat)
    requires n < |Moves(x)|
    ensures At(p, x, now, n + 1) == Do(At(p, x, now, n), x, now, Moves(x)[n])
  {
    hide Moves, Do;
    DoAllNext(p, x, now, Moves(x), n);
  }

  lemma AtConsistent(p: Progress, x: Inputs, now: int, n: nat)
    requires Fresh(p) && L.Consistent(p.desk) && n <= |Moves(x)|
    ensures L.Consistent(At(p, x, now, n).desk)
  {
    hide Moves, DoAll, L.Consistent, H.Extends, MoveSettled;
    AllSettled(p, x, now, n);
  }

  lemma {:induction false} SavesChangeNothing(p: Progress, x: Inputs, now: int, k: nat, n: nat)
    requires k <= n <= |Moves(x)| && forall i :: k <= i < n ==> Moves(x)[i].Save?
    ensures At(p, x, now, n).desk == At(p, x, now, k).desk && At(p, x, now, n).raised == At(p, x, now, k).raised
  {
    hide Moves, At, A.Apply, Changed, L.Step;
    if k < n {
      SavesChangeNothing(p, x, now, k, n - 1);
      AtNext(p, x, now, n - 1);
    }
  }

  /** The moves of a trading cycle: the orders are placed by move 10, and the mode's moves come from 12 on. */
  lemma TradingMoves(x: Inputs)
    requires Trades(x.cycle)
    ensures var moves, n := Moves(x), ModeCount(x);
            && |moves| == 15 + n && moves[10] == PlaceOrders
            && (forall i :: 0 <= i < 10 ==> moves[i].Save?) && moves[11].Save?
            && (forall i :: 12 + n <= i < 15 + n ==> moves[i].Save?)
            && (if x.cycle.mode == REAL_MANUAL_CONFIRM then n == 1 && moves[12] == CheckWaiting
                else n == |x.plan.allocations| && forall i :: 0 <= i < n ==> moves[12 + i] == Trade(i))
  {
    hide Moves, PipelineMoves;
    FromPipeline(x);
    ExecutionAt(x);
    ModeMovesAt(x);
    FirstMoves(x);
    var m := Moves(x);
    forall i | 0 <= i < 10 ensures m[i].Save? {
      if 3 <= i < 8 {
        assert m[i] == m[3..8][i - 3];
      }
    }
  }

  lemma FirstMoves(x: Inputs)
    requires !x.cycle.mode.OFF? && !x.cycle.killSwitch && x.cycle.lockFree
    ensures |Moves(x)| > 3 && Moves(x)[0].Save? && Moves(x)[1].Save? && Moves(x)[2].Save?
  {
    hide PipelineMoves;
    FromPipeline(x);
  }

  /** After the first trades, exactly: not raised, and each of them done. */
  lemma {:induction false} TradesAlong(p: Progress, x: Inputs, now: int, n: nat)
    requires Fresh(p) && L.Consistent(p.desk) && Trades(x.cycle) && x.cycle.mode in {DRY_RUN, SANDBOX}
    requires n <= |x.plan.allocations| && |Moves(x)| == 15 + |x.plan.allocations|
    requires forall i :: 0 <= i < |x.plan.allocations| ==> Moves(x)[12 + i] == Trade(i)
    ensures At(p, x, now, 12 + n).raised <==>
              At(p, x, now, 12).raised || !AllDone(At(p, x, now, 12 + n).desk, x, n)
    ensures At(p, x, now, 12).raised ==> At(p, x, now, 12 + n) == At(p, x, now, 12)
    decreases n
  {
    hide Moves, At, Done, Do, L.Consistent, Trades, H.Extends;
    if n > 0 {
      var k := n - 1;
      TradesAlong(p, x, now, k);
      AtNext(p, x, now, 12 + k);
      AtConsistent(p, x, now, 12 + k);
      var q := At(p, x, now, 12 + k);
      assert Moves(x)[12 + k] == Trade(k);
      RaisedStays(q, x, now, Trade(k));
      if !q.raised {
        RaisesExactly(q, x, now, Trade(k));
        forall i: nat | i < k && Done(q.desk, x, i) ensures Done(Do(q, x, now, Trade(k)).desk, x, i) {
          DoneStays(q, x, now, Trade(k), i);
        }
      } else if !At(p, x, now, 12).raised {
        assert At(p, x, now, 12 + n) == q;
      }
    }
  }

  /**
   * No call of a trading cycle raises exactly if its orders can be planned, and in the end every allocation of its plan
   * has the order its mode leaves: traded in DRY_RUN, recorded in SANDBOX with the broker configured, waiting otherwise.
   */
  lemma NothingRaisedExactly(p: Progress, x: Inputs, now: int)
    requires Fresh(p) && L.Consistent(p.desk) && Trades(x.cycle)
    ensures var e := DoAll(p, x, now, Moves(x));
            !e.raised <==>
              && CanPlan(p.desk, x.plan.id, x.plan.account, x.plan.allocations, x.planning, x.risk)
              && AllDone(e.desk, x, |x.plan.allocations|)
  {
    hide Moves, DoAll, Do, AllDone, L.Consistent, CanPlan, KeyOf;
    var moves, n := Moves(x), ModeCount(x);
    TradingMoves(x);
    assert moves[..15 + n] == moves && moves[..0] == [];
    NothingDone(p, x, now);
    SavesChangeNothing(p, x, now, 0, 10);
    AtNext(p, x, now, 10);
    RaisesExactly(At(p, x, now, 10), x, now, PlaceOrders) by { AtConsistent(p, x, now, 10); }
    SavesChangeNothing(p, x, now, 11, 12);
    SavesChangeNothing(p, x, now, 12 + n, 15 + n);
    if x.cycle.mode == REAL_MANUAL_CONFIRM {
      AtNext(p, x, now, 12);
      RaisedStays(At(p, x, now, 12), x, now, CheckWaiting);
      if !At(p, x, now, 12).raised {
        RaisesExactly(At(p, x, now, 12), x, now, CheckWaiting) by { AtConsistent(p, x, now, 12); }
      }
    } else {
      TradesAlong(p, x, now, n);
    }
  }

  lemma NothingDone(p: Progress, x: Inputs, now: int)
    ensures DoAll(p, x, now, []) == p
  {
  }

  /**
   * A cycle that may trade its plan succeeds exactly if it is cut nowhere before its end, its orders can be planned, and
   * every allocation of its plan has the order its mode leaves.
   */
  lemma TradingSucceedsExactly(p: Progress, x: Inputs, now: int, cut: Cut)
    requires Fresh(p) && L.Consistent(p.desk) && p.row.status.PENDING? && Q.RowValid(p.row) && Trades(x.cycle)
    ensures var e := Finish(p, x, now, cut);
            e.row.status.SUCCEEDED? <==>
              && (cut.NoCut? || (cut.Crash? && cut.moves >= |Moves(x)|))
              && CanPlan(p.desk, x.plan.id, x.plan.account, x.plan.allocations, x.planning, x.risk)
              && AllDone(e.desk, x, |x.plan.allocations|)
  {
    hide Moves, DoAll, AllDone, L.Consistent, CanPlan, Finish, Q.RowValid, L.Step;
    CycleSucceedsExactly(p, x, now, cut);
    NothingRaisedExactly(p, x, now);
    StopIs(p, x, now, cut);
    assert Moves(x)[..|Moves(x)|] == Moves(x);
    if cut.NoCut? || (cut.Crash? && cut.moves >= |Moves(x)|) {
      UncutDesk(p, x, now, cut);
    }
  }

  lemma UncutDesk(p: Progress, x: Inputs, now: int, cut: Cut)
    requires cut.NoCut? || (cut.Crash? && cut.moves >= |Moves(x)|)
    ensures Finish(p, x, now, cut).desk == DoAll(p, x, now, Moves(x)).desk
  {
    hide Moves, DoAll, A.Apply;
    assert Moves(x)[..|Moves(x)|] == Moves(x);
  }
}
