/** Two cycles that succeed, one in DRY_RUN with its plan traded, one in manual mode with its orders waiting. */
module CycleScenarios {
  import opened Wrappers
  import opened RiskManager
  import opened ExecutionPlanner
  import opened OrderDesk
  import A = Automation
  import C = CycleOutcomes
  import L = OrderLifecycle
  import N = OrderPlanning
  import Q = AutomationProperties
  import S = OrderScenarios
  import T = TradingCycleProperties
  import V = AutomationService
  import opened TradingCycle

  const CALM := S.Calm(DRY_RUN, 0, 0)

  const BUYING := Inputs(
    A.Cycle(DRY_RUN, false, true, true), Plan(1, "acc", [S.Buy("A")]), CALM, [CALM], S.ONE_A_DAY)

  const MANUAL_RUN := Deliver(A.ManualId("k"), None, BUYING, 0, NoCut)

  const BEGUN := Progress(A.NewRun(A.ManualId("k"), 0), Columns(DRY_RUN, None, false), L.EMPTY, [], 0, false)

  /** The desk once the order is planned. */
  const PLANNED_DESK := Desk(map[0 := S.Buying(1, "A", DRY_RUN)], [], [], [], 1)

  lemma {:induction false} SavesKeep(x: Inputs, moves: seq<Move>, k: nat, n: nat)
    requires k <= n <= |moves| && forall i :: k <= i < n ==> moves[i].Save?
    ensures var p, q := DoAll(BEGUN, x, 0, moves[..k]), DoAll(BEGUN, x, 0, moves[..n]);
            q.desk == p.desk && q.raised == p.raised
  {
    hide A.Apply, Changed, L.Step;
    if k < n {
      SavesKeep(x, moves, k, n - 1);
      T.DoAllNext(BEGUN, x, 0, moves, n - 1);
    }
  }

  lemma BuyingMoves()
    ensures var m := Moves(BUYING);
            && |m| == 16 && m[10] == PlaceOrders && m[12] == Trade(0)
            && forall i :: 0 <= i < 16 && i != 10 && i != 12 ==> m[i].Save?
  {
    hide Moves, PipelineMoves;
    T.FromPipeline(BUYING);
    T.ExecutionAt(BUYING);
    T.ModeMovesAt(BUYING);
    FirstSave(BUYING);
    var m := Moves(BUYING);
    forall i | 0 <= i < 16 && i != 10 && i != 12 ensures m[i].Save? {
      if 3 <= i < 8 {
        assert m[i] == m[3..8][i - 3];
      }
    }
  }

  lemma FirstSave(x: Inputs)
    requires !x.cycle.mode.OFF? && !x.cycle.killSwitch && x.cycle.lockFree
    ensures |Moves(x)| > 3 && Moves(x)[0].Save? && Moves(x)[1].Save? && Moves(x)[2].Save?
  {
    hide PipelineMoves;
    T.FromPipeline(x);
  }

  lemma OrderPlanned()
    ensures var q := DoAll(BEGUN, BUYING, 0, Moves(BUYING)[..12]); q.desk == PLANNED_DESK && !q.raised
  {
    hide Moves, Do, PlanPlaced, CanPlan;
    var m := Moves(BUYING);
    BuyingMoves();
    assert m[..0] == [] && DoAll(BEGUN, BUYING, 0, []) == BEGUN;
    SavesKeep(BUYING, m, 0, 10);
    T.DoAllNext(BEGUN, BUYING, 0, m, 10);
    PlacingIs(DoAll(BEGUN, BUYING, 0, m[..10]));
    SavesKeep(BUYING, m, 11, 12);
  }

  lemma PlacingIs(p: Progress)
    requires !p.raised && p.desk == L.EMPTY
    ensures Do(p, BUYING, 0, PlaceOrders).desk == PLANNED_DESK && !Do(p, BUYING, 0, PlaceOrders).raised
  {
    hide A.Apply, LimitPrice, PlanPlaced;
    S.OnePlanned(L.EMPTY, 1, "A", DRY_RUN, S.ONE_A_DAY, 0);
  }

  lemma NothingCounted(since: int)
    ensures CountSince(PLANNED_DESK, since) == 0
  {
  }

  lemma OrderIsTraded()
    ensures HasTrade(Execute(PLANNED_DESK, 0, CALM, S.ONE_A_DAY).trades, 0)
  {
    hide Permitted, TradeAmount, Midnight, CountSince;
    NothingCounted(Midnight(0));
    S.CalmPermitted(PLANNED_DESK, 0, 1, "A", DRY_RUN, 0, 0, S.ONE_A_DAY);
    assert Execute(PLANNED_DESK, 0, CALM, S.ONE_A_DAY).trades[0].order == 0;
  }

  lemma OrderIsFound()
    ensures OrderWith(PLANNED_DESK, KeyOf(BUYING, 0)) == Some(0)
  {
    assert PLANNED_DESK.orders[0].data.key == KeyOf(BUYING, 0);
    T.OrderWithIs(PLANNED_DESK, KeyOf(BUYING, 0));
  }

  lemma TradingIs(p: Progress)
    requires !p.raised && p.desk == PLANNED_DESK
    ensures !Do(p, BUYING, 0, Trade(0)).raised
  {
    hide OrderWith, Execute, ExecuteSandbox, HasTrade;
    OrderIsFound();
    OrderIsTraded();
  }

  lemma NothingRaised()
    ensures !DoAll(BEGUN, BUYING, 0, Moves(BUYING)).raised
  {
    hide Moves, Do, DoAll;
    var m := Moves(BUYING);
    BuyingMoves();
    OrderPlanned();
    T.DoAllNext(BEGUN, BUYING, 0, m, 12);
    TradingIs(DoAll(BEGUN, BUYING, 0, m[..12]));
    SavesKeep(BUYING, m, 13, 16);
    assert m[..16] == m;
  }

  /** One manual run from nothing: it succeeds, and its plan's one allocation has an order with a virtual trade. */
  lemma CycleTradesItsPlan()
    ensures var w := Run(NOTHING, [MANUAL_RUN]);
            && 0 in w.runs.rows && w.runs.rows[0].status.SUCCEEDED?
            && 0 in w.columns && w.columns[0] == Columns(DRY_RUN, Some(BUYING.plan), false)
            && exists id :: id in w.desk.orders && w.desk.orders[id].data.key == IdempotencyKey(1, "A", BUY)
                            && HasTrade(w.desk.trades, id)
  {
    hide DoAll, Moves, Finish, T.Valid, L.Consistent, Q.RowValid;
    assert [MANUAL_RUN][..0] == [] && Run(NOTHING, []) == NOTHING;
    T.NothingValid();
    V.DeliveredIs(NOTHING, MANUAL_RUN, 0);
    T.BeginIs(NOTHING, MANUAL_RUN, 0);
    NothingRaised();
    T.CycleSucceedsExactly(BEGUN, BUYING, 0, NoCut);
    T.SuccessColumns(BEGUN, BUYING, 0, NoCut);
    T.SucceededIsSettled([MANUAL_RUN], 0);
    assert T.Settled(Run(NOTHING, [MANUAL_RUN]).desk, DRY_RUN, IdempotencyKey(1, "A", BUY)) by {
      assert BUYING.plan.allocations[0] == S.Buy("A");
    }
  }

  // ------------------------------------------------------------- manual confirmation

  const BY_HAND := BUYING.(cycle := A.Cycle(REAL_MANUAL_CONFIRM, false, true, true),
                           planning := S.Calm(REAL_MANUAL_CONFIRM, 0, 0))

  const WAITING_RUN := Deliver(A.ManualId("k"), None, BY_HAND, 0, NoCut)

  const BEGUN_BY_HAND := BEGUN.(columns := Columns(REAL_MANUAL_CONFIRM, None, false))

  lemma WaitingPlanned(e: Desk)
    requires e == PlanPlaced(L.EMPTY, 1, "acc", [S.Buy("A")], BY_HAND.planning, S.ONE_A_DAY)
    ensures CanPlan(L.EMPTY, 1, "acc", [S.Buy("A")], BY_HAND.planning, S.ONE_A_DAY) && C.Done(e, BY_HAND, 0)
  {
    hide PlanPlaced, OrdersFor, AddOrders, N.PricedFor, PlanError;
    var plan := [S.Buy("A")];
    L.AlwaysConsistent([]);
    assert L.EMPTY == L.Run(L.EMPTY, []);
    assert N.WellMade(plan, S.ONE_A_DAY) && !N.Clash(L.EMPTY, 1, plan);
    N.ErrorIs(plan, S.ONE_A_DAY);
    N.ClashIs(L.EMPTY, 1, plan, 0.0, REAL_MANUAL_CONFIRM);
    N.UniqueExactly(L.EMPTY, "acc", OrdersFor(1, plan, 0.0, REAL_MANUAL_CONFIRM));
    N.PlanningExactly(L.EMPTY, 1, "acc", plan, BY_HAND.planning, S.ONE_A_DAY);
    assert N.Stored(e, 1, plan[0]);
    var id :| id in e.orders && e.orders[id].data.key == IdempotencyKey(1, "A", BUY);
    assert C.LeftBy(e, BY_HAND, 0, id);
  }

  lemma ManualDesk()
    ensures DoAll(BEGUN_BY_HAND, BY_HAND, 0, Moves(BY_HAND)).desk
         == PlanPlaced(L.EMPTY, 1, "acc", [S.Buy("A")], BY_HAND.planning, S.ONE_A_DAY)
  {
    hide Moves, DoAll, Do, PlanPlaced, CanPlan;
    var m, p := Moves(BY_HAND), BEGUN_BY_HAND;
    C.TradingMoves(BY_HAND);
    assert m[..0] == [] && m[..16] == m;
    C.NothingDone(p, BY_HAND, 0);
    C.SavesChangeNothing(p, BY_HAND, 0, 0, 10);
    C.AtNext(p, BY_HAND, 0, 10);
    PlacingByHand(C.At(p, BY_HAND, 0, 10));
    C.SavesChangeNothing(p, BY_HAND, 0, 11, 12);
    C.AtNext(p, BY_HAND, 0, 12);
    CheckingKeeps(C.At(p, BY_HAND, 0, 12));
    C.SavesChangeNothing(p, BY_HAND, 0, 13, 16);
  }

  lemma PlacingByHand(p: Progress)
    requires !p.raised && p.desk == L.EMPTY
    ensures var e := Do(p, BY_HAND, 0, PlaceOrders);
            e.desk == PlanPlaced(L.EMPTY, 1, "acc", [S.Buy("A")], BY_HAND.planning, S.ONE_A_DAY)
  {
    hide PlanPlaced, CanPlan;
  }

  lemma CheckingKeeps(p: Progress)
    ensures Do(p, BY_HAND, 0, CheckWaiting).desk == p.desk
  {
    hide AllWaiting;
  }

  /** One manual-confirmation run from nothing: it succeeds, and its plan's one allocation has an order in waiting. */
  lemma ManualCycleWaits()
    ensures var w := Run(NOTHING, [WAITING_RUN]);
            && 0 in w.runs.rows && w.runs.rows[0].status.SUCCEEDED? && w.runs.rows[0].step == A.COMPLETED
            && exists id :: id in w.desk.orders && w.desk.orders[id].data.key == IdempotencyKey(1, "A", BUY)
                            && w.desk.orders[id].status == WAITING_CONFIRMATION
  {
    hide DoAll, Moves, Finish, T.Valid, L.Consistent, PlanPlaced, CanPlan, C.Done;
    assert [WAITING_RUN][..0] == [] && Run(NOTHING, []) == NOTHING;
    T.NothingValid();
    V.DeliveredIs(NOTHING, WAITING_RUN, 0);
    T.BeginIs(NOTHING, WAITING_RUN, 0);
    T.DeskConsistent(NOTHING);
    ManualDesk();
    var e := DoAll(BEGUN_BY_HAND, BY_HAND, 0, Moves(BY_HAND)).desk;
    WaitingPlanned(e);
    C.UncutDesk(BEGUN_BY_HAND, BY_HAND, 0, NoCut);
    C.TradingSucceedsExactly(BEGUN_BY_HAND, BY_HAND, 0, NoCut);
    OneIsWaiting(e);
    T.RunValid(NOTHING, [WAITING_RUN]);
    SuccessIsComplete(Run(NOTHING, [WAITING_RUN]));
  }

  lemma OneIsWaiting(d: Desk)
    requires C.Done(d, BY_HAND, 0)
    ensures exists id :: id in d.orders && d.orders[id].data.key == IdempotencyKey(1, "A", BUY)
                         && d.orders[id].status == WAITING_CONFIRMATION
  {
  }

  lemma SuccessIsComplete(w: World)
    requires T.Valid(w) && 0 in w.runs.rows && w.runs.rows[0].status.SUCCEEDED?
    ensures w.runs.rows[0].step == A.COMPLETED
  {
    hide L.Consistent, T.ColumnsValid;
    Q.RowOfValid(w.runs, 0);
  }
}
