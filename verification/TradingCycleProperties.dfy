/** What automation cycles guarantee together with their orders, over every history of the two. */
module TradingCycleProperties {
  import opened Wrappers
  import opened RiskManager
  import opened ExecutionPlanner
  import opened OrderDesk
  import L = OrderLifecycle
  import H = OrderHistory
  import A = Automation
  import Q = AutomationProperties
  import opened TradingCycle

  // ------------------------------------------------------------- the moves follow the script

  function SavesOf(moves: seq<Move>): seq<A.Commit> {
    if moves == [] then []
    else
      var last := moves[|moves| - 1];
      SavesOf(moves[..|moves| - 1]) + if last.Save? then [last.commit] else []
  }

  lemma {:induction false} SavesOfAppend(a: seq<Move>, b: seq<Move>)
    ensures SavesOf(a + b) == SavesOf(a) + SavesOf(b)
  {
    if b == [] {
      assert a + b == a;
    } else {
      SavesOfAppend(a, b[..|b| - 1]);
      assert (a + b)[..|a + b| - 1] == a + b[..|b| - 1];
    }
  }

  lemma {:induction false} SavesOfPlain(commits: seq<A.Commit>)
    ensures SavesOf(Plain(commits)) == commits
  {
    if commits != [] {
      SavesOfPlain(commits[..|commits| - 1]);
      assert Plain(commits)[..|commits| - 1] == Plain(commits[..|commits| - 1]);
    }
  }

  lemma {:induction false} SavesOfCalls(moves: seq<Move>)
    requires forall m :: m in moves ==> !m.Save?
    ensures SavesOf(moves) == []
  {
    if moves != [] {
      assert moves[|moves| - 1] in moves;
      SavesOfCalls(moves[..|moves| - 1]);
    }
  }

  lemma SavesOfOne(m: Move)
    ensures SavesOf([m]) == if m.Save? then [m.commit] else []
  {
    assert [m][..0] == [] && SavesOf([]) == [];
  }

  lemma SavesOfThree(a: Move, b: Move, c: Move)
    ensures SavesOf([a, b, c]) == SavesOf([a]) + SavesOf([b]) + SavesOf([c])
  {
    hide SavesOf;
    assert [a, b, c] == [a] + [b] + [c];
    SavesOfAppend([a] + [b], [c]);
    SavesOfAppend([a], [b]);
  }

  lemma SavesOfTwo(a: Move, b: Move)
    ensures SavesOf([a, b]) == SavesOf([a]) + SavesOf([b])
  {
    hide SavesOf;
    assert [a, b] == [a] + [b];
    SavesOfAppend([a], [b]);
  }

  lemma ExecutionSaves(x: Inputs)
    ensures SavesOf(ExecutionMoves(x)) == A.ExecutionPart(x.cycle)
  {
    hide SavesOf;
    if x.cycle.marketOpen {
      var first := [Save(A.Stepped(A.EXECUTION_PLANNING), SetPlan(x.plan)), PlaceOrders, Save(A.Stepped(A.MODE_EXECUTION), Keep)];
      SavesOfAppend(first + ModeMoves(x), Plain(Ending(x.cycle)));
      SavesOfAppend(first, ModeMoves(x));
      SavesOfCalls(ModeMoves(x));
      SavesOfPlain(Ending(x.cycle));
      SavesOfThree(first[0], first[1], first[2]);
      SavesOfOne(first[0]);
      SavesOfOne(first[1]);
      SavesOfOne(first[2]);
    } else {
      var moves := ExecutionMoves(x);
      SavesOfThree(moves[0], moves[1], moves[2]);
      SavesOfOne(moves[0]);
      SavesOfOne(moves[1]);
      SavesOfOne(moves[2]);
    }
  }

  lemma PipelineSaves(x: Inputs)
    ensures SavesOf(PipelineMoves(x)) == A.Pipeline(x.cycle)
  {
    hide SavesOf, ExecutionMoves, A.ExecutionPart;
    SavesOfPlain(A.UP_TO_SIGNALS);
    SavesOfPlain(A.SUCCESS);
    var planning := [A.Stepped(A.REBALANCE_PLANNING)];
    SavesOfPlain(planning);
    ExecutionSaves(x);
    SavesOfAppend(Plain(planning), ExecutionMoves(x));
    SavesOfAppend(Plain(A.UP_TO_SIGNALS),
                  if x.cycle.mode.SIGNAL_ONLY? then Plain(A.SUCCESS) else Plain(planning) + ExecutionMoves(x));
  }

  /** A cycle's commits of its run row are those of the script. */
  lemma MovesFollowScript(x: Inputs)
    ensures SavesOf(Moves(x)) == A.Script(x.cycle)
  {
    hide SavesOf, PipelineMoves, A.Pipeline;
    var c := x.cycle;
    var check, sync := [A.Stepped(A.SAFETY_CHECK)], Save(A.Stepped(A.ACCOUNT_SYNC), SetMode(c.mode));
    SavesOfPlain(check);
    if c.mode.OFF? {
      SavesOfOne(Save(A.Finished(A.SKIPPED), SetMode(c.mode)));
      SavesOfAppend(Plain(check), [Save(A.Finished(A.SKIPPED), SetMode(c.mode))]);
    } else if c.killSwitch {
      var rest := [Save(A.OtherSaved, SetMode(c.mode)), Save(A.Finished(A.SKIPPED), Keep)];
      SavesOfTwo(rest[0], rest[1]);
      SavesOfOne(rest[0]);
      SavesOfOne(rest[1]);
      SavesOfAppend(Plain(check), rest);
    } else {
      var skipped := [A.OtherSaved, A.Finished(A.SKIPPED)];
      SavesOfPlain(skipped);
      SavesOfPlain([A.MarkedRunning]);
      PipelineSaves(x);
      SavesOfAppend(Plain([A.MarkedRunning]), PipelineMoves(x));
      var rest := if c.lockFree then Plain([A.MarkedRunning]) + PipelineMoves(x) else Plain(skipped);
      SavesOfOne(sync);
      SavesOfAppend([sync], rest);
      SavesOfAppend(Plain(check), [sync] + rest);
    }
  }

  lemma PlainEnds(commits: seq<A.Commit>)
    requires commits != []
    ensures Plain(commits) != [] && Plain(commits)[|commits| - 1].Save?
  {
  }

  lemma LastMoveSaves(x: Inputs)
    ensures Moves(x) != [] && Moves(x)[|Moves(x)| - 1].Save?
  {
    hide ModeMoves, A.UP_TO_SIGNALS;
    PlainEnds(Ending(x.cycle));
    PlainEnds(A.SUCCESS);
    PlainEnds([A.OtherSaved, A.Finished(A.SKIPPED)]);
    var execution := ExecutionMoves(x);
    assert execution != [] && execution[|execution| - 1].Save?;
    LastMoveSavesFrom(x, execution);
  }

  lemma LastMoveSavesFrom(x: Inputs, execution: seq<Move>)
    requires execution == ExecutionMoves(x) && execution != [] && execution[|execution| - 1].Save?
    ensures Moves(x) != [] && Moves(x)[|Moves(x)| - 1].Save?
  {
    hide ExecutionMoves, A.UP_TO_SIGNALS;
    var pipeline := PipelineMoves(x);
    assert pipeline != [] && pipeline[|pipeline| - 1].Save?;
  }

  lemma {:induction false} SavesPrefix(moves: seq<Move>, n: nat)
    requires n <= |moves|
    ensures SavesOf(moves[..n]) <= SavesOf(moves)
  {
    SavesOfAppend(moves[..n], moves[n..]);
    assert moves[..n] + moves[n..] == moves;
  }

  /** Up to any earlier point the saves are fewer than all of them, as the last move saves. */
  lemma SavesBefore(x: Inputs, n: nat)
    requires n < |Moves(x)|
    ensures |SavesOf(Moves(x)[..n])| < |A.Script(x.cycle)|
  {
    hide Moves, A.Script;
    var moves := Moves(x);
    MovesFollowScript(x);
    LastMoveSaves(x);
    SavesPrefix(moves[..|moves| - 1], n);
    assert moves[..|moves| - 1][..n] == moves[..n];
  }

  // ------------------------------------------------------------- one delivery

  lemma DoAllNext(p: Progress, x: Inputs, now: int, moves: seq<Move>, n: nat)
    requires n < |moves|
    ensures DoAll(p, x, now, moves[..n + 1]) == Do(DoAll(p, x, now, moves[..n]), x, now, moves[n])
  {
    assert moves[..n + 1][..n] == moves[..n];
  }

  ghost predicate Fresh(p: Progress) {
    p.saves == 0 && p.calls == [] && !p.raised
  }

  /** The row stands where the script has got to. */
  lemma {:induction false} RowFollows(p: Progress, x: Inputs, now: int, n: nat)
    requires Fresh(p) && n <= |Moves(x)|
    ensures var q := DoAll(p, x, now, Moves(x)[..n]);
            && q.saves <= |A.Script(x.cycle)|
            && q.row == A.ApplyAll(p.row, now, A.Script(x.cycle)[..q.saves])
            && (if q.raised then q.saves < |A.Script(x.cycle)| else q.saves == |SavesOf(Moves(x)[..n])|)
  {
    hide Moves, A.Script, A.Apply, A.ApplyAll, SavesOf, Changed, TradeCall, CanPlan, AllWaiting, OrderWith, Traded;
    var moves, script := Moves(x), A.Script(x.cycle);
    MovesFollowScript(x);
    if n == 0 {
      assert moves[..0] == [] && script[..0] == [];
      NoSaves(p.row, now);
    } else {
      RowFollows(p, x, now, n - 1);
      DoAllNext(p, x, now, moves, n - 1);
      var q, m := DoAll(p, x, now, moves[..n - 1]), moves[n - 1];
      SavesPrefix(moves, n);
      SavesBefore(x, n - 1);
      SavesOfAppend(moves[..n - 1], [m]);
      assert moves[..n] == moves[..n - 1] + [m];
      SavesOfOne(m);
      if !q.raised && m.Save? {
        assert script[q.saves] == m.commit;
        assert script[..q.saves + 1] == script[..q.saves] + [m.commit];
        Q.ApplyNext(p.row, now, script[..q.saves], m.commit);
      }
    }
  }

  lemma NoSaves(row: A.AutomationRun, now: int)
    ensures A.ApplyAll(row, now, []) == row && SavesOf([]) == []
  {
  }

  /** How many moves are carried out before the cut. */
  function Reached(x: Inputs, cut: Cut): (n: nat)
    ensures n <= |Moves(x)|
  {
    if cut.NoCut? || cut.moves > |Moves(x)| then |Moves(x)| else cut.moves
  }

  lemma StopIs(p: Progress, x: Inputs, now: int, cut: Cut)
    ensures var q, s := DoAll(p, x, now, Moves(x)[..Reached(x, cut)]), Stop(p, x, now, cut);
            && s == LastPost(q, x, Moves(x), cut)
            && s.row == q.row && s.columns == q.columns && s.saves == q.saves && s.raised == q.raised
  {
    hide DoAll, Moves, OrderWith, TradeCall;
    assert Moves(x)[..|Moves(x)|] == Moves(x);
  }

  /** The run table's view of a delivery: how far its script got and whether it was marked failed. */
  ghost function RowFault(p: Progress, x: Inputs, now: int, cut: Cut): A.Fault {
    var saves := Stop(p, x, now, cut).saves;
    if MarksFailed(p, x, now, cut) then A.Failure(saves) else A.Crash(saves)
  }

  lemma RowAfter(p: Progress, x: Inputs, now: int, cut: Cut)
    requires Fresh(p)
    ensures var fault := RowFault(p, x, now, cut);
            && Finish(p, x, now, cut).row == A.ApplyAll(p.row, now, A.Made(x.cycle, fault))
            && Q.Reach(x.cycle, fault) == Stop(p, x, now, cut).saves
  {
    hide Moves, A.Script, A.Apply, A.ApplyAll, A.Made, DoAll, Stop, MarksFailed, LastPost;
    StopIs(p, x, now, cut);
    RowFollows(p, x, now, Reached(x, cut));
    var fault := RowFault(p, x, now, cut);
    Q.MadeIs(x.cycle, fault);
    Q.ApplyNext(p.row, now, A.Script(x.cycle)[..Q.Reach(x.cycle, fault)], A.Finished(A.FAILED));
    assert A.Script(x.cycle)[..Q.Reach(x.cycle, fault)] + [] == A.Script(x.cycle)[..Q.Reach(x.cycle, fault)];
  }

  /**
   * A delivered cycle succeeds exactly if the mode, the kill switch, the lock and the market let it act, nothing it called
   * raised, and it was cut nowhere before its end.
   */
  lemma CycleSucceedsExactly(p: Progress, x: Inputs, now: int, cut: Cut)
    requires Fresh(p) && p.row.status.PENDING? && Q.RowValid(p.row)
    ensures Finish(p, x, now, cut).row.status.SUCCEEDED? <==>
              && x.cycle.mode != OFF && !x.cycle.killSwitch && x.cycle.lockFree
              && (x.cycle.mode == SIGNAL_ONLY || !x.cycle.marketOpen
                  || x.cycle.mode in {DRY_RUN, SANDBOX, REAL_MANUAL_CONFIRM})
              && !DoAll(p, x, now, Moves(x)).raised
              && (cut.NoCut? || (cut.Crash? && cut.moves >= |Moves(x)|))
  {
    hide Moves, A.Script, A.ApplyAll, A.Made, DoAll, Finish, LastPost, Q.RowValid;
    var fault, n := RowFault(p, x, now, cut), Reached(x, cut);
    RowAfter(p, x, now, cut);
    Q.SucceedsExactly(p.row, now, x.cycle, fault);
    StopIs(p, x, now, cut);
    RowFollows(p, x, now, n);
    MovesFollowScript(x);
    assert Moves(x)[..|Moves(x)|] == Moves(x);
    if n < |Moves(x)| {
      SavesBefore(x, n);
    } else if !cut.Failure? {
      RaisedEarlier(p, x, now, cut);
    }
  }

  /** A cycle that raised and was cut after its end had raised before its last move. */
  lemma RaisedEarlier(p: Progress, x: Inputs, now: int, cut: Cut)
    requires Reached(x, cut) == |Moves(x)| && (cut.NoCut? || cut.Crash?)
    ensures DoAll(p, x, now, Moves(x)).raised <==> MarksFailed(p, x, now, cut)
  {
    hide Moves, DoAll, Do;
    var n := |Moves(x)|;
    LastMoveSaves(x);
    DoAllNext(p, x, now, Moves(x), n - 1);
    assert Moves(x)[..n] == Moves(x);
    SaveNeverRaises(DoAll(p, x, now, Moves(x)[..n - 1]), x, now, Moves(x)[n - 1]);
  }

  lemma SaveNeverRaises(p: Progress, x: Inputs, now: int, m: Move)
    requires m.Save?
    ensures Do(p, x, now, m).raised == p.raised
  {
  }

  // ------------------------------------------------------------- the desk along the moves

  lemma CalledRuns(p: Progress, d: Desk, call: L.Call)
    requires p.desk == L.Run(d, p.calls)
    ensures Called(p, call).desk == L.Run(d, Called(p, call).calls)
  {
    assert (p.calls + [call])[..|p.calls|] == p.calls;
  }

  lemma DoRuns(p: Progress, x: Inputs, now: int, m: Move, d: Desk)
    requires p.desk == L.Run(d, p.calls)
    ensures Do(p, x, now, m).desk == L.Run(d, Do(p, x, now, m).calls)
  {
    hide L.Step, L.Run, CanPlan, AllWaiting, OrderWith, Traded, A.Apply, Called, TradeCall, Changed;
    match m
    case Save(_, _) =>
    case CheckWaiting =>
    case PlaceOrders =>
      CalledRuns(p, d, L.Call(L.PlanOrders(x.plan.id, x.plan.account, x.plan.allocations, x.planning), x.risk));
    case Trade(i) =>
      if i < |x.plan.allocations| && OrderWith(p.desk, KeyOf(x, i)).Some? {
        CalledRuns(p, d, TradeCall(x, i, OrderWith(p.desk, KeyOf(x, i)).value, false));
      }
  }

  /** Every change of the desk is made by calls of the execution service, so all that holds of their runs holds here. */
  lemma {:induction false} DeskRuns(p: Progress, x: Inputs, now: int, moves: seq<Move>)
    requires Fresh(p)
    ensures DoAll(p, x, now, moves).desk == L.Run(p.desk, DoAll(p, x, now, moves).calls)
  {
    hide Do, L.Step;
    if moves != [] {
      DeskRuns(p, x, now, moves[..|moves| - 1]);
      DoRuns(DoAll(p, x, now, moves[..|moves| - 1]), x, now, moves[|moves| - 1], p.desk);
    }
  }

  lemma FinishRuns(p: Progress, x: Inputs, now: int, cut: Cut)
    requires Fresh(p)
    ensures Finish(p, x, now, cut).desk == L.Run(p.desk, Finish(p, x, now, cut).calls)
  {
    hide DoAll, Moves, L.Step, L.Run, OrderWith, Called, TradeCall, A.Apply;
    StopIs(p, x, now, cut);
    var q := DoAll(p, x, now, Moves(x)[..Reached(x, cut)]);
    DeskRuns(p, x, now, Moves(x)[..Reached(x, cut)]);
    if LastPost(q, x, Moves(x), cut) != q {
      var i := Moves(x)[cut.moves].i;
      CalledRuns(q, p.desk, TradeCall(x, i, OrderWith(q.desk, KeyOf(x, i)).value, true));
    }
  }

  lemma DoExtends(p: Progress, x: Inputs, now: int, m: Move)
    requires L.Consistent(p.desk)
    ensures L.Consistent(Do(p, x, now, m).desk) && H.Extends(p.desk, Do(p, x, now, m).desk)
  {
    hide L.Step, L.Consistent, H.Extends, CanPlan, AllWaiting, OrderWith, Traded, A.Apply, Changed;
    H.SelfExtends(p.desk);
    match m
    case Save(_, _) =>
    case CheckWaiting =>
    case PlaceOrders =>
      CallExtends(p.desk, L.Call(L.PlanOrders(x.plan.id, x.plan.account, x.plan.allocations, x.planning), x.risk));
    case Trade(i) =>
      if i < |x.plan.allocations| && OrderWith(p.desk, KeyOf(x, i)).Some? {
        CallExtends(p.desk, TradeCall(x, i, OrderWith(p.desk, KeyOf(x, i)).value, false));
      }
  }

  lemma CallExtends(d: Desk, call: L.Call)
    requires L.Consistent(d)
    ensures L.Consistent(L.Step(d, call.action, call.risk)) && H.Extends(d, L.Step(d, call.action, call.risk))
  {
    hide L.Step, L.Consistent, H.Extends;
    L.StepConsistent(d, call.action, call.risk);
    H.StepExtends(d, call.action, call.risk);
  }

  // ------------------------------------------------------------- every order of the plan

  /** What a mode promises of the order with a key: a virtual trade, an execution, or a manual order in waiting. */
  ghost predicate Settled(d: Desk, mode: TradeMode, key: IdempotencyKey) {
    exists id :: id in d.orders && d.orders[id].data.key == key && SettledOrder(d, mode, id)
  }

  ghost predicate SettledOrder(d: Desk, mode: TradeMode, id: nat)
    requires id in d.orders
  {
    match mode
    case DRY_RUN => HasTrade(d.trades, id)
    case SANDBOX => HasExecution(d.executions, id)
    case REAL_MANUAL_CONFIRM => d.orders[id].data.tradeMode.REAL_MANUAL_CONFIRM?
    case _ => true
  }

  lemma SettledStays(d: Desk, e: Desk, mode: TradeMode, key: IdempotencyKey)
    requires H.Extends(d, e) && Settled(d, mode, key)
    ensures Settled(e, mode, key)
  {
    var id :| id in d.orders && d.orders[id].data.key == key && SettledOrder(d, mode, id);
    if HasTrade(d.trades, id) {
      var i :| 0 <= i < |d.trades| && d.trades[i].order == id;
      assert e.trades[i].order == id;
    }
    if HasExecution(d.executions, id) {
      var i :| 0 <= i < |d.executions| && d.executions[i].order == id;
      assert e.executions[i].order == id;
    }
    assert e.orders[id].data.key == key && SettledOrder(e, mode, id);
  }

  /** What a move that did not raise has settled. */
  ghost predicate MoveSettled(d: Desk, x: Inputs, m: Move) {
    match m
    case Trade(i) => i < |x.plan.allocations| && Settled(d, x.cycle.mode, KeyOf(x, i))
    case CheckWaiting =>
      forall i: nat :: i < |x.plan.allocations| ==> Settled(d, REAL_MANUAL_CONFIRM, KeyOf(x, i))
    case _ => true
  }

  lemma MoveSettledStays(d: Desk, e: Desk, x: Inputs, m: Move)
    requires H.Extends(d, e) && MoveSettled(d, x, m)
    ensures MoveSettled(e, x, m)
  {
    hide Settled, H.Extends;
    match m
    case Trade(i) => SettledStays(d, e, x.cycle.mode, KeyOf(x, i));
    case CheckWaiting =>
      forall i: nat | i < |x.plan.allocations| ensures Settled(e, REAL_MANUAL_CONFIRM, KeyOf(x, i)) {
        SettledStays(d, e, REAL_MANUAL_CONFIRM, KeyOf(x, i));
      }
    case _ =>
  }

  lemma OrderWithIs(d: Desk, key: IdempotencyKey)
    ensures var id := OrderWith(d, key); id.Some? ==> id.value in d.orders && d.orders[id.value].data.key == key
  {
  }

  lemma DoSettles(p: Progress, x: Inputs, now: int, m: Move)
    requires L.Consistent(p.desk) && !p.raised && !Do(p, x, now, m).raised
    requires m.Trade? ==> x.cycle.mode in {DRY_RUN, SANDBOX}
    ensures MoveSettled(Do(p, x, now, m).desk, x, m)
  {
    hide L.Step, L.Consistent, CanPlan, H.Extends, A.Apply, Changed;
    DoExtends(p, x, now, m);
    match m
    case Trade(i) =>
      var id := OrderWith(p.desk, KeyOf(x, i));
      OrderWithIs(p.desk, KeyOf(x, i));
      var e := Do(p, x, now, m).desk;
      KeyKept(p.desk, e, id.value);
      assert SettledOrder(e, x.cycle.mode, id.value);
    case CheckWaiting =>
      forall i: nat | i < |x.plan.allocations| ensures Settled(p.desk, REAL_MANUAL_CONFIRM, KeyOf(x, i)) {
        var id := OrderWith(p.desk, KeyOf(x, i));
        OrderWithIs(p.desk, KeyOf(x, i));
        H.ValidStatus(p.desk, id.value);
        WaitingIsManual(p.desk, id.value);
        assert SettledOrder(p.desk, REAL_MANUAL_CONFIRM, id.value);
      }
    case _ =>
  }

  lemma KeyKept(d: Desk, e: Desk, id: nat)
    requires H.Extends(d, e) && id in d.orders
    ensures id in e.orders && e.orders[id].data == d.orders[id].data
  {
  }

  lemma WaitingIsManual(d: Desk, id: nat)
    requires id in d.orders && L.StatusValid(d, id) && d.orders[id].status == WAITING_CONFIRMATION
    ensures d.orders[id].data.tradeMode == REAL_MANUAL_CONFIRM
  {
  }

  /** Orders are traded one by one in these modes only. */
  lemma TradesOnlyIn(x: Inputs)
    ensures forall i :: Trade(i) in Moves(x) ==> x.cycle.mode in {DRY_RUN, SANDBOX}
  {
    hide A.UP_TO_SIGNALS;
    assert forall i :: Trade(i) in ModeMoves(x) ==> x.cycle.mode in {DRY_RUN, SANDBOX};
    var execution := ExecutionMoves(x);
    assert forall i :: Trade(i) in execution ==> x.cycle.mode in {DRY_RUN, SANDBOX};
    TradesOnlyInFrom(x, execution);
  }

  lemma TradesOnlyInFrom(x: Inputs, execution: seq<Move>)
    requires execution == ExecutionMoves(x)
    requires forall i :: Trade(i) in execution ==> x.cycle.mode in {DRY_RUN, SANDBOX}
    ensures forall i :: Trade(i) in Moves(x) ==> x.cycle.mode in {DRY_RUN, SANDBOX}
  {
    hide ExecutionMoves, A.UP_TO_SIGNALS;
    var pipeline := PipelineMoves(x);
    assert forall i :: Trade(i) in pipeline ==> x.cycle.mode in {DRY_RUN, SANDBOX};
  }

  lemma {:induction false} AllSettled(p: Progress, x: Inputs, now: int, n: nat)
    requires Fresh(p) && L.Consistent(p.desk) && n <= |Moves(x)|
    ensures var q := DoAll(p, x, now, Moves(x)[..n]);
            && L.Consistent(q.desk) && H.Extends(p.desk, q.desk)
            && (!q.raised ==> forall i :: 0 <= i < n ==> MoveSettled(q.desk, x, Moves(x)[i]))
  {
    hide Moves, Do, MoveSettled, L.Consistent, H.Extends;
    var moves := Moves(x);
    if n == 0 {
      assert moves[..0] == [];
      H.SelfExtends(p.desk);
    } else {
      AllSettled(p, x, now, n - 1);
      DoAllNext(p, x, now, moves, n - 1);
      var q, m := DoAll(p, x, now, moves[..n - 1]), moves[n - 1];
      var r := Do(q, x, now, m);
      DoExtends(q, x, now, m);
      H.ExtendsTransitive(p.desk, q.desk, r.desk);
      RaisedStays(q, x, now, m);
      if !r.raised {
        assert m in moves;
        TradesOnlyIn(x);
        DoSettles(q, x, now, m);
        forall i | 0 <= i < n - 1 ensures MoveSettled(r.desk, x, moves[i]) {
          MoveSettledStays(q.desk, r.desk, x, moves[i]);
        }
      }
    }
  }

  lemma RaisedStays(p: Progress, x: Inputs, now: int, m: Move)
    ensures p.raised ==> Do(p, x, now, m) == p
  {
  }

  // ------------------------------------------------------------- the columns along the moves

  function ChangedBy(columns: Columns, moves: seq<Move>): Columns {
    if moves == [] then columns
    else
      var before, last := ChangedBy(columns, moves[..|moves| - 1]), moves[|moves| - 1];
      if last.Save? then Changed(before, last.change) else before
  }

  lemma {:induction false} ChangedByAppend(columns: Columns, a: seq<Move>, b: seq<Move>)
    ensures ChangedBy(columns, a + b) == ChangedBy(ChangedBy(columns, a), b)
  {
    if b == [] {
      assert a + b == a;
    } else {
      ChangedByAppend(columns, a, b[..|b| - 1]);
      assert (a + b)[..|a + b| - 1] == a + b[..|b| - 1];
    }
  }

  /** Moves that change no column. */
  lemma {:induction false} ChangedByNone(columns: Columns, moves: seq<Move>)
    requires forall m :: m in moves ==> !m.Save? || m.change.Keep?
    ensures ChangedBy(columns, moves) == columns
  {
    if moves != [] {
      assert moves[|moves| - 1] in moves;
      ChangedByNone(columns, moves[..|moves| - 1]);
    }
  }

  lemma ChangedByOne(columns: Columns, m: Move)
    ensures ChangedBy(columns, [m]) == if m.Save? then Changed(columns, m.change) else columns
  {
    assert [m][..0] == [] && ChangedBy(columns, []) == columns;
  }

  lemma ExecutionChanges(columns: Columns, x: Inputs)
    ensures ChangedBy(columns, ExecutionMoves(x))
         == columns.(plan := Some(x.plan), skipped := columns.skipped || !x.cycle.marketOpen)
  {
    hide ChangedBy;
    if x.cycle.marketOpen {
      var first := [Save(A.Stepped(A.EXECUTION_PLANNING), SetPlan(x.plan))];
      var rest := [PlaceOrders, Save(A.Stepped(A.MODE_EXECUTION), Keep)] + ModeMoves(x) + Plain(Ending(x.cycle));
      assert ExecutionMoves(x) == first + rest;
      ChangedByAppend(columns, first, rest);
      ChangedByOne(columns, first[0]);
      ChangedByNone(ChangedBy(columns, first), rest);
    } else {
      var m := ExecutionMoves(x);
      assert m == [m[0]] + [m[1]] + [m[2]];
      ChangedByAppend(columns, [m[0]] + [m[1]], [m[2]]);
      ChangedByAppend(columns, [m[0]], [m[1]]);
      ChangedByOne(columns, m[0]);
      ChangedByOne(ChangedBy(columns, [m[0]]), m[1]);
      ChangedByOne(ChangedBy(columns, [m[0]] + [m[1]]), m[2]);
    }
  }

  /** What the columns of a run say once all its moves are made, if it acts. */
  lemma AllChanges(columns: Columns, x: Inputs)
    requires Q.Acts(x.cycle)
    ensures ChangedBy(columns, Moves(x))
         == if x.cycle.mode.SIGNAL_ONLY? then columns.(mode := x.cycle.mode)
            else columns.(mode := x.cycle.mode, plan := Some(x.plan), skipped := columns.skipped || !x.cycle.marketOpen)
  {
    hide ChangedBy, ExecutionMoves;
    var c := x.cycle;
    var before := Plain([A.Stepped(A.SAFETY_CHECK)]);
    var sync := [Save(A.Stepped(A.ACCOUNT_SYNC), SetMode(c.mode))];
    var middle := Plain([A.MarkedRunning]) + Plain(A.UP_TO_SIGNALS)
                  + if c.mode.SIGNAL_ONLY? then Plain(A.SUCCESS) else Plain([A.Stepped(A.REBALANCE_PLANNING)]);
    var after := if c.mode.SIGNAL_ONLY? then [] else ExecutionMoves(x);
    assert Moves(x) == before + sync + middle + after;
    ChangedByAppend(columns, before + sync + middle, after);
    ChangedByAppend(columns, before + sync, middle);
    ChangedByAppend(columns, before, sync);
    ChangedByNone(columns, before);
    ChangedByOne(columns, sync[0]);
    ChangedByNone(columns.(mode := c.mode), middle);
    if c.mode.SIGNAL_ONLY? {
      ChangedByNone(columns.(mode := c.mode), after);
    } else {
      ExecutionChanges(columns.(mode := c.mode), x);
    }
  }

  lemma {:induction false} ColumnsFollow(p: Progress, x: Inputs, now: int, moves: seq<Move>)
    requires !p.raised
    ensures var q := DoAll(p, x, now, moves); !q.raised ==> q.columns == ChangedBy(p.columns, moves)
  {
    hide L.Step, CanPlan, AllWaiting, OrderWith, Traded, A.Apply, Changed, Called, TradeCall;
    if moves != [] {
      ColumnsFollow(p, x, now, moves[..|moves| - 1]);
      CalledKeepsColumns(DoAll(p, x, now, moves[..|moves| - 1]), x);
    }
  }

  lemma CalledKeepsColumns(p: Progress, x: Inputs)
    ensures forall call :: Called(p, call).columns == p.columns
  {
  }

  /** A success tells in its columns what it did. */
  lemma SuccessColumns(p: Progress, x: Inputs, now: int, cut: Cut)
    requires Fresh(p) && p.row.status.PENDING? && Q.RowValid(p.row)
    requires Finish(p, x, now, cut).row.status.SUCCEEDED?
    ensures Q.Acts(x.cycle) && !DoAll(p, x, now, Moves(x)).raised
    ensures Finish(p, x, now, cut).columns
         == if x.cycle.mode.SIGNAL_ONLY? then p.columns.(mode := x.cycle.mode)
            else p.columns.(mode := x.cycle.mode, plan := Some(x.plan), skipped := p.columns.skipped || !x.cycle.marketOpen)
    ensures Finish(p, x, now, cut).desk == DoAll(p, x, now, Moves(x)).desk
  {
    hide Moves, DoAll, ChangedBy, Q.Acts, Q.RowValid, A.Apply;
    CycleSucceedsExactly(p, x, now, cut);
    Q.ActsIs(x.cycle);
    ColumnsFollow(p, x, now, Moves(x));
    AllChanges(p.columns, x);
    StopIs(p, x, now, cut);
    assert Moves(x)[..|Moves(x)|] == Moves(x);
  }

  lemma EarlyMoves(x: Inputs)
    ensures forall i :: 0 <= i < |Moves(x)| && i < 4 ==>
              Moves(x)[i].Save? && (Moves(x)[i].change.Keep? || Moves(x)[i].change.SetMode?)
    ensures |Moves(x)| > 3 || |Moves(x)| == |A.Script(x.cycle)|
  {
    hide ExecutionMoves, A.ExecutionPart;
  }

  lemma {:induction false} EarlyDo(p: Progress, x: Inputs, now: int, n: nat)
    requires Fresh(p) && n <= 4 && n <= |Moves(x)|
    ensures var q := DoAll(p, x, now, Moves(x)[..n]);
            !q.raised && q.saves == n && q.columns.plan == p.columns.plan && q.columns.skipped == p.columns.skipped
  {
    hide Moves, A.Apply;
    if n == 0 {
      assert Moves(x)[..0] == [];
    } else {
      EarlyMoves(x);
      EarlyDo(p, x, now, n - 1);
      DoAllNext(p, x, now, Moves(x), n - 1);
    }
  }

  lemma {:induction false} SavesGrow(p: Progress, x: Inputs, now: int, k: nat, n: nat)
    requires k <= n <= |Moves(x)|
    ensures DoAll(p, x, now, Moves(x)[..k]).saves <= DoAll(p, x, now, Moves(x)[..n]).saves
    decreases n
  {
    hide Moves, A.Apply, L.Step, CanPlan, AllWaiting, OrderWith, Traded, Changed, TradeCall;
    if k < n {
      SavesGrow(p, x, now, k, n - 1);
      DoAllNext(p, x, now, Moves(x), n - 1);
    }
  }

  /** A run left pending has no plan yet. */
  lemma PendingColumns(p: Progress, x: Inputs, now: int, cut: Cut)
    requires Fresh(p) && p.row.status.PENDING? && Q.RowValid(p.row)
    requires Finish(p, x, now, cut).row.status.PENDING?
    ensures Finish(p, x, now, cut).columns.plan == p.columns.plan
    ensures Finish(p, x, now, cut).columns.skipped == p.columns.skipped
  {
    hide Moves, DoAll, A.Script, A.Made, A.ApplyAll, Q.RowValid, MarksFailed, LastPost;
    var n := Reached(x, cut);
    RowAfter(p, x, now, cut);
    Q.LeftPendingExactly(p.row, now, x.cycle, RowFault(p, x, now, cut));
    StopIs(p, x, now, cut);
    if n <= 4 {
      EarlyDo(p, x, now, n);
    } else {
      EarlyDo(p, x, now, 4);
      SavesGrow(p, x, now, 4, n);
    }
  }

  // ------------------------------------------------------------- histories

  /** Every order of a plan has what its mode promises. */
  ghost predicate PlanSettled(d: Desk, mode: TradeMode, plan: Plan) {
    forall i :: 0 <= i < |plan.allocations| ==>
      Settled(d, mode, IdempotencyKey(plan.id, plan.allocations[i].uid, plan.allocations[i].direction))
  }

  lemma PlanSettledStays(d: Desk, e: Desk, mode: TradeMode, plan: Plan)
    requires H.Extends(d, e) && PlanSettled(d, mode, plan)
    ensures PlanSettled(e, mode, plan)
  {
    hide Settled, H.Extends;
    forall i | 0 <= i < |plan.allocations|
      ensures Settled(e, mode, IdempotencyKey(plan.id, plan.allocations[i].uid, plan.allocations[i].direction))
    {
      SettledStays(d, e, mode, IdempotencyKey(plan.id, plan.allocations[i].uid, plan.allocations[i].direction));
    }
  }

  ghost predicate ColumnsValid(d: Desk, status: A.RunStatus, c: Columns) {
    && (status.PENDING? ==> c.plan.None? && !c.skipped)
    && (status.SUCCEEDED? && c.plan.Some? && !c.skipped ==> A.Plans(c.mode) && PlanSettled(d, c.mode, c.plan.value))
  }

  ghost predicate Valid(w: World) {
    && Q.Valid(w.runs) && L.Consistent(w.desk) && w.columns.Keys == w.runs.rows.Keys
    && forall id :: id in w.columns ==> ColumnsValid(w.desk, w.runs.rows[id].status, w.columns[id])
  }

  lemma ModeMovesIn(x: Inputs)
    requires x.cycle.marketOpen && !x.cycle.mode.SIGNAL_ONLY? && !x.cycle.mode.OFF? && !x.cycle.killSwitch && x.cycle.lockFree
    ensures forall m :: m in ModeMoves(x) ==> m in Moves(x)
  {
    hide ModeMoves, A.UP_TO_SIGNALS;
    forall m | m in ModeMoves(x) ensures m in Moves(x) {
      assert m in ExecutionMoves(x);
      assert m in PipelineMoves(x);
    }
  }

  lemma OneSettled(d: Desk, x: Inputs, i: nat)
    requires Q.Acts(x.cycle) && x.cycle.marketOpen && !x.cycle.mode.SIGNAL_ONLY? && i < |x.plan.allocations|
    requires forall m :: m in ModeMoves(x) ==> MoveSettled(d, x, m)
    ensures Settled(d, x.cycle.mode, KeyOf(x, i))
  {
    hide Settled;
    var m := if x.cycle.mode.REAL_MANUAL_CONFIRM? then CheckWaiting else Trade(i);
    assert ModeMoves(x)[if m.CheckWaiting? then 0 else i] == m;
    assert MoveSettled(d, x, m);
  }

  /** A cycle that succeeded with the market open has settled every order of its plan. */
  lemma SuccessSettles(p: Progress, x: Inputs, now: int)
    requires Fresh(p) && L.Consistent(p.desk) && Q.Acts(x.cycle) && x.cycle.marketOpen && !x.cycle.mode.SIGNAL_ONLY?
    requires !DoAll(p, x, now, Moves(x)).raised
    ensures PlanSettled(DoAll(p, x, now, Moves(x)).desk, x.cycle.mode, x.plan)
  {
    hide Moves, DoAll, Settled, L.Consistent, MoveSettled, ModeMoves;
    var moves := Moves(x);
    assert moves[..|moves|] == moves;
    AllSettled(p, x, now, |moves|);
    ModeMovesIn(x);
    var e := DoAll(p, x, now, moves).desk;
    forall m | m in ModeMoves(x) ensures MoveSettled(e, x, m) {
      var k :| 0 <= k < |moves| && moves[k] == m;
      assert MoveSettled(e, x, moves[k]);
    }
    forall i | 0 <= i < |x.plan.allocations|
      ensures Settled(e, x.cycle.mode, IdempotencyKey(x.plan.id, x.plan.allocations[i].uid, x.plan.allocations[i].direction))
    {
      OneSettled(e, x, i);
    }
  }

  lemma BeginIs(w: World, a: Action, id: nat)
    requires Valid(w) && a.Deliver? && A.Resolve(w.runs, a.correlation, a.runId) == Some(id)
    ensures var p := Begin(w, a, id);
            && Fresh(p) && p.desk == w.desk && p.row.status.PENDING? && Q.RowValid(p.row)
            && p.columns.plan.None? && !p.columns.skipped
            && (if id in w.runs.rows then p.row == w.runs.rows[id] else p.row == A.NewRun(a.correlation, a.now))
            && (a.runId.None? ==> id == w.runs.nextId && id !in w.runs.rows)
  {
    hide L.Consistent;
    Q.NewRunValid(a.correlation, a.now);
    Q.IdsBelow(w.runs);
    if id in w.runs.rows {
      Q.RowOfValid(w.runs, id);
      assert ColumnsValid(w.desk, w.runs.rows[id].status, w.columns[id]);
    }
  }

  /** The run table's view of an action; a call of the desk is none of its business. */
  ghost function RunsAction(w: World, a: Action): Option<A.Action> {
    match a
    case Deliver(correlation, runId, inputs, now, cut) =>
      var id := A.Resolve(w.runs, correlation, runId);
      var fault := if id.None? then A.NoFault else RowFault(Begin(w, a, id.value), inputs, now, cut);
      Some(A.Deliver(correlation, runId, inputs.cycle, now, fault))
    case Request(correlation, _, now, queued) => Some(A.Request(correlation, now, queued))
    case RecoverStale(threshold, now) => Some(A.RecoverStale(threshold, now))
    case DeskCall(_) => None
  }

  lemma StepRefines(w: World, a: Action)
    requires Valid(w)
    ensures Step(w, a).runs == if RunsAction(w, a).Some? then A.Step(w.runs, RunsAction(w, a).value) else w.runs
  {
    hide Finish, RowFault, A.ApplyAll, A.Made, Q.Valid, L.Consistent, ColumnsValid, Q.RowValid, L.Step;
    if a.Deliver? {
      var id := A.Resolve(w.runs, a.correlation, a.runId);
      if id.Some? {
        BeginIs(w, a, id.value);
        RowAfter(Begin(w, a, id.value), a.inputs, a.now, a.cut);
      }
    }
  }

  /** One delivery, as far as its own columns are concerned. */
  lemma FinishValid(p: Progress, x: Inputs, now: int, cut: Cut)
    requires Fresh(p) && L.Consistent(p.desk) && p.row.status.PENDING? && Q.RowValid(p.row)
    requires p.columns.plan.None? && !p.columns.skipped
    ensures var e := Finish(p, x, now, cut);
            && L.Consistent(e.desk) && H.Extends(p.desk, e.desk)
            && ColumnsValid(e.desk, e.row.status, e.columns)
  {
    hide Finish, DoAll, Moves, PlanSettled, Q.RowValid, L.Consistent, H.Extends;
    var e := Finish(p, x, now, cut);
    FinishRuns(p, x, now, cut);
    H.RunExtends(p.desk, e.calls);
    if e.row.status.PENDING? {
      PendingColumns(p, x, now, cut);
    }
    if e.row.status.SUCCEEDED? {
      SuccessColumns(p, x, now, cut);
      if x.cycle.marketOpen && !x.cycle.mode.SIGNAL_ONLY? {
        SuccessSettles(p, x, now);
      }
    }
  }

  lemma ColumnsStay(w: World, e: Desk, id: nat)
    requires Valid(w) && H.Extends(w.desk, e) && id in w.columns
    ensures ColumnsValid(e, w.runs.rows[id].status, w.columns[id])
  {
    hide PlanSettled, H.Extends;
    var c := w.columns[id];
    assert ColumnsValid(w.desk, w.runs.rows[id].status, c);
    if w.runs.rows[id].status.SUCCEEDED? && c.plan.Some? && !c.skipped {
      PlanSettledStays(w.desk, e, c.mode, c.plan.value);
    }
  }

  lemma DeliverValid(w: World, a: Action)
    requires Valid(w) && a.Deliver?
    ensures Valid(Step(w, a)) && H.Extends(w.desk, Step(w, a).desk)
  {
    hide Finish, ColumnsValid, L.Consistent, H.Extends, Q.Valid, Q.RowValid, RunsAction, A.Step;
    H.SelfExtends(w.desk);
    StepRefines(w, a);
    RunsStayValid(w, a);
    var id := A.Resolve(w.runs, a.correlation, a.runId);
    if id.Some? {
      BeginIs(w, a, id.value);
      FinishValid(Begin(w, a, id.value), a.inputs, a.now, a.cut);
      var e := Step(w, a);
      forall x | x in e.columns ensures ColumnsValid(e.desk, e.runs.rows[x].status, e.columns[x]) {
        if x != id.value {
          ColumnsStay(w, e.desk, x);
        }
      }
    }
  }

  lemma RunsStayValid(w: World, a: Action)
    requires Valid(w)
    ensures RunsAction(w, a).Some? ==> Q.Valid(A.Step(w.runs, RunsAction(w, a).value))
  {
    hide RunsAction, A.Step, Q.Valid, L.Consistent, ColumnsValid;
    if RunsAction(w, a).Some? {
      Q.StepValid(w.runs, RunsAction(w, a).value);
    }
  }

  lemma StepValid(w: World, a: Action)
    requires Valid(w)
    ensures Valid(Step(w, a)) && H.Extends(w.desk, Step(w, a).desk)
  {
    hide Delivered, L.Consistent, H.Extends, Q.Valid, Q.RowValid, L.Step, PlanSettled;
    StepRefines(w, a);
    RunsStayValid(w, a);
    H.SelfExtends(w.desk);
    var e := Step(w, a);
    match a
    case Deliver(_, _, _, _, _) => DeliverValid(w, a);
    case Request(correlation, mode, now, queued) =>
      forall x | x in e.columns ensures ColumnsValid(e.desk, e.runs.rows[x].status, e.columns[x]) {
        if x in w.columns {
          ColumnsStay(w, w.desk, x);
          Q.StepRow(w.runs, A.Request(correlation, now, queued), x);
        }
      }
    case RecoverStale(threshold, now) =>
      forall x | x in e.columns ensures ColumnsValid(e.desk, e.runs.rows[x].status, e.columns[x]) {
        ColumnsStay(w, w.desk, x);
      }
    case DeskCall(call) =>
      CallExtends(w.desk, call);
      forall x | x in e.columns ensures ColumnsValid(e.desk, e.runs.rows[x].status, e.columns[x]) {
        ColumnsStay(w, e.desk, x);
      }
  }

  lemma {:induction false} RunValid(w: World, history: seq<Action>)
    requires Valid(w)
    ensures Valid(Run(w, history)) && H.Extends(w.desk, Run(w, history).desk)
  {
    hide Step, Valid, H.Extends;
    if history == [] {
      H.SelfExtends(w.desk);
    } else {
      var init := history[..|history| - 1];
      RunValid(w, init);
      StepValid(Run(w, init), history[|history| - 1]);
      H.ExtendsTransitive(w.desk, Run(w, init).desk, Run(w, history).desk);
    }
  }

  lemma NothingValid()
    ensures Valid(NOTHING)
  {
    hide Q.Valid;
    Q.NoneValid();
    L.AlwaysConsistent([]);
  }

  ghost function RunsHistory(history: seq<Action>): seq<A.Action> {
    if history == [] then []
    else
      var a := RunsAction(Run(NOTHING, history[..|history| - 1]), history[|history| - 1]);
      RunsHistory(history[..|history| - 1]) + if a.Some? then [a.value] else []
  }

  /**
   * Forgetting the orders, every history is one of the run table alone: whatever refusals, crashes and failures do to
   * a cycle, its row is moved as by a crash or failure at some commit of its script. So all that holds of the run
   * table in every history, such as one pipeline entry per correlation id, holds here.
   */
  lemma {:induction false} HistoryRefines(history: seq<Action>)
    ensures Run(NOTHING, history).runs == A.Run(A.NONE, RunsHistory(history))
  {
    hide Step, Valid, A.Step, RunsAction;
    if history != [] {
      var init, a := history[..|history| - 1], history[|history| - 1];
      HistoryRefines(init);
      NothingValid();
      RunValid(NOTHING, init);
      StepRefines(Run(NOTHING, init), a);
      var w, ra := Run(NOTHING, init), RunsAction(Run(NOTHING, init), a);
      if ra.Some? {
        assert (RunsHistory(init) + [ra.value])[..|RunsHistory(init)|] == RunsHistory(init);
      } else {
        assert RunsHistory(init) + [] == RunsHistory(init);
      }
    }
  }

  // ------------------------------------------------------------- the main result

  /**
   * In every history of deliveries, crashes, refusals, failures, recoveries and calls from outside, a run that stands
   * SUCCEEDED and executed a plan (the market was open) has settled it: in DRY_RUN every allocation of the plan has a
   * stored order with a virtual trade, in SANDBOX one with an execution row, in manual mode a manual order.
   */
  lemma SucceededIsSettled(history: seq<Action>, id: nat)
    requires var w := Run(NOTHING, history);
             id in w.runs.rows && id in w.columns && w.runs.rows[id].status.SUCCEEDED?
             && w.columns[id].plan.Some? && !w.columns[id].skipped
    ensures var w := Run(NOTHING, history);
            A.Plans(w.columns[id].mode) && PlanSettled(w.desk, w.columns[id].mode, w.columns[id].plan.value)
  {
    hide Run, PlanSettled;
    NothingValid();
    RunValid(NOTHING, history);
    var w := Run(NOTHING, history);
    assert ColumnsValid(w.desk, w.runs.rows[id].status, w.columns[id]);
  }

  lemma {:induction false} TerminalStays(w: World, history: seq<Action>, id: nat)
    requires Valid(w) && id in w.runs.rows && A.Terminal(w.runs.rows[id].status)
    ensures var e := Run(w, history);
            id in e.runs.rows && e.runs.rows[id] == w.runs.rows[id] && id in e.columns && e.columns[id] == w.columns[id]
  {
    hide Step, ColumnsValid, L.Consistent, Q.Valid;
    if history != [] {
      var init, a := history[..|history| - 1], history[|history| - 1];
      TerminalStays(w, init, id);
      RunValid(w, init);
      StepTerminal(Run(w, init), a, id);
    }
  }

  lemma StepTerminal(w: World, a: Action, id: nat)
    requires Valid(w) && id in w.runs.rows && A.Terminal(w.runs.rows[id].status)
    ensures var e := Step(w, a);
            id in e.runs.rows && e.runs.rows[id] == w.runs.rows[id] && id in e.columns && e.columns[id] == w.columns[id]
  {
    hide Finish, ColumnsValid, L.Consistent, L.Step, Begin, Q.RowValid;
    Q.IdsBelow(w.runs);
  }

  /** And it keeps it: whatever follows, the run, its plan and the settled orders stay. */
  lemma SettledForGood(history: seq<Action>, later: seq<Action>, id: nat)
    requires var w := Run(NOTHING, history);
             id in w.runs.rows && id in w.columns && w.runs.rows[id].status.SUCCEEDED?
             && w.columns[id].plan.Some? && !w.columns[id].skipped
    ensures var w, e := Run(NOTHING, history), Run(Run(NOTHING, history), later);
            && id in e.runs.rows && e.runs.rows[id] == w.runs.rows[id] && id in e.columns && e.columns[id] == w.columns[id]
            && PlanSettled(e.desk, e.columns[id].mode, e.columns[id].plan.value)
  {
    hide Run, PlanSettled, H.Extends;
    var w := Run(NOTHING, history);
    NothingValid();
    RunValid(NOTHING, history);
    SucceededIsSettled(history, id);
    TerminalStays(w, later, id);
    RunValid(w, later);
    PlanSettledStays(w.desk, Run(w, later).desk, w.columns[id].mode, w.columns[id].plan.value);
  }

  // ------------------------------------------------------------- an order left behind

  /** No call of a cycle executes an order that is not of its plan. */
  ghost predicate OwnCalls(p: Progress, left: nat) {
    forall i :: 0 <= i < |p.calls| ==> !H.Executes(p.calls[i].action, left)
  }

  lemma DoOwn(p: Progress, x: Inputs, now: int, m: Move, left: nat)
    requires L.Consistent(p.desk) && OwnCalls(p, left) && left in p.desk.orders
    requires p.desk.orders[left].data.key.plan != x.plan.id
    ensures OwnCalls(Do(p, x, now, m), left)
    ensures left in Do(p, x, now, m).desk.orders && Do(p, x, now, m).desk.orders[left].data == p.desk.orders[left].data
  {
    hide L.Step, L.Consistent, CanPlan, AllWaiting, Traded, A.Apply, Changed, H.Extends;
    DoExtends(p, x, now, m);
    KeyKept(p.desk, Do(p, x, now, m).desk, left);
    if m.Trade? && m.i < |x.plan.allocations| {
      OrderWithIs(p.desk, KeyOf(x, m.i));
    }
  }

  lemma {:induction false} AllOwn(p: Progress, x: Inputs, now: int, n: nat, left: nat)
    requires Fresh(p) && L.Consistent(p.desk) && n <= |Moves(x)| && left in p.desk.orders
    requires p.desk.orders[left].data.key.plan != x.plan.id
    ensures var q := DoAll(p, x, now, Moves(x)[..n]);
            OwnCalls(q, left) && left in q.desk.orders && q.desk.orders[left].data == p.desk.orders[left].data
  {
    hide Moves, Do, L.Consistent, H.Extends;
    if n == 0 {
      assert Moves(x)[..0] == [];
    } else {
      AllOwn(p, x, now, n - 1, left);
      AllSettled(p, x, now, n - 1);
      DoAllNext(p, x, now, Moves(x), n - 1);
      DoOwn(DoAll(p, x, now, Moves(x)[..n - 1]), x, now, Moves(x)[n - 1], left);
    }
  }

  /** An order of another plan is left on the side of one of this cycle's allocations. */
  ghost predicate LeftInTheWay(d: Desk, x: Inputs, left: nat, i: nat) {
    && left in d.orders && d.orders[left].status == PLANNED && d.orders[left].data.key.plan != x.plan.id
    && i < |x.plan.allocations| && !KeyUsed(d, KeyOf(x, i))
    && d.orders[left].data.uid == x.plan.allocations[i].uid
    && d.orders[left].data.direction == x.plan.allocations[i].direction
  }

  lemma LeftOrderFails(p: Progress, x: Inputs, now: int, cut: Cut, left: nat, i: nat)
    requires Fresh(p) && L.Consistent(p.desk) && p.row.status.PENDING? && Q.RowValid(p.row)
    requires x.cycle.mode in {DRY_RUN, SANDBOX} && x.cycle.marketOpen
    requires LeftInTheWay(p.desk, x, left, i)
    ensures !Finish(p, x, now, cut).row.status.SUCCEEDED?
  {
    hide Finish, DoAll, Moves, PlanSettled, Q.RowValid, L.Consistent, H.Extends, L.Run, H.SideIdleSince;
    var moves := Moves(x);
    if Finish(p, x, now, cut).row.status.SUCCEEDED? {
      SuccessColumns(p, x, now, cut);
      var q := DoAll(p, x, now, moves);
      assert moves[..|moves|] == moves;
      SuccessSettles(p, x, now);
      AllOwn(p, x, now, |moves|, left);
      DeskRuns(p, x, now, moves);
      H.LeftOrderBlocksItsSide(p.desk, q.calls, left);
      SideUntraded(p.desk, q.desk, x, left, i);
    }
  }

  /** A row that was there before is of an order that was there before, under a key that was used before. */
  lemma OldRowsOldKeys(d: Desk, e: Desk, id: nat)
    requires L.RowsValid(d) && H.Extends(d, e) && id in e.orders
    ensures (exists k :: 0 <= k < |d.trades| && e.trades[k].order == id) ==> KeyUsed(d, e.orders[id].data.key)
    ensures (exists k :: 0 <= k < |d.executions| && e.executions[k].order == id) ==> KeyUsed(d, e.orders[id].data.key)
  {
    if id in d.orders {
      assert d.orders[id].data.key == e.orders[id].data.key;
    }
  }

  lemma SideUntraded(d: Desk, e: Desk, x: Inputs, left: nat, i: nat)
    requires L.Consistent(d) && L.Consistent(e) && H.Extends(d, e) && left in d.orders && i < |x.plan.allocations|
    requires d.orders[left].data.uid == x.plan.allocations[i].uid
    requires d.orders[left].data.direction == x.plan.allocations[i].direction
    requires !KeyUsed(d, KeyOf(x, i)) && x.cycle.mode in {DRY_RUN, SANDBOX}
    requires H.SideIdleSince(e, left, |d.trades|, |d.executions|, |d.posts|)
    ensures !PlanSettled(e, x.cycle.mode, x.plan)
  {
    hide L.StatusValid, KeysUnique, L.OnePerOrder, KeyUsed;
    var key := KeyOf(x, i);
    forall id | id in e.orders && e.orders[id].data.key == key ensures !SettledOrder(e, x.cycle.mode, id) {
      OldRowsOldKeys(d, e, id);
    }
    assert !Settled(e, x.cycle.mode, key);
  }

  /**
   * In every history: an order left planned by an earlier cycle fails every later one that is to trade its side of its
   * instrument under a plan of its own. Such a cycle does not succeed while the market is open.
   */
  lemma LeftOrderFailsCycles(history: seq<Action>, a: Action, id: nat, left: nat, i: nat)
    requires a.Deliver? && A.Resolve(Run(NOTHING, history).runs, a.correlation, a.runId) == Some(id)
    requires a.inputs.cycle.mode in {DRY_RUN, SANDBOX} && a.inputs.cycle.marketOpen
    requires LeftInTheWay(Run(NOTHING, history).desk, a.inputs, left, i)
    ensures var e := Run(NOTHING, history + [a]); id in e.runs.rows && !e.runs.rows[id].status.SUCCEEDED?
  {
    hide Finish, Valid, LeftInTheWay, Begin, Q.RowValid, L.Consistent;
    var w := Run(NOTHING, history);
    assert (history + [a])[..|history|] == history;
    NothingValid();
    RunValid(NOTHING, history);
    BeginIs(w, a, id);
    DeskConsistent(w);
    LeftOrderFails(Begin(w, a, id), a.inputs, a.now, a.cut, left, i);
  }

  lemma DeskConsistent(w: World)
    requires Valid(w)
    ensures L.Consistent(w.desk)
  {
  }

  // ------------------------------------------------------------- which move comes when

  /** The moves from the pipeline's first on. */
  lemma FromPipeline(x: Inputs)
    requires !x.cycle.mode.OFF? && !x.cycle.killSwitch && x.cycle.lockFree
    ensures var moves := Moves(x);
            && |moves| > 8 && moves[3..8] == Plain(A.UP_TO_SIGNALS)
            && (if x.cycle.mode.SIGNAL_ONLY? then moves[8..] == Plain(A.SUCCESS)
                else moves[8] == Save(A.Stepped(A.REBALANCE_PLANNING), Keep) && moves[9..] == ExecutionMoves(x))
  {
    hide ExecutionMoves;
    assert Moves(x) == [Save(A.Stepped(A.SAFETY_CHECK), Keep), Save(A.Stepped(A.ACCOUNT_SYNC), SetMode(x.cycle.mode)),
                        Save(A.MarkedRunning, Keep)] + PipelineMoves(x);
  }

  lemma SliceAt<T>(s: seq<T>, low: nat, high: nat)
    requires low <= high <= |s|
    ensures forall i :: low <= i < high ==> s[i] == s[low..high][i - low]
    ensures s[low..|s|] == s[low..]
  {
  }

  /** The moves of an execution with the market open, by their numbers in the cycle. */
  lemma ExecutionAt(x: Inputs)
    requires !x.cycle.mode.OFF? && !x.cycle.killSwitch && x.cycle.lockFree && !x.cycle.mode.SIGNAL_ONLY?
    requires x.cycle.marketOpen
    ensures var moves, n := Moves(x), 12 + |ModeMoves(x)|;
            && |moves| == n + |Ending(x.cycle)|
            && moves[9] == Save(A.Stepped(A.EXECUTION_PLANNING), SetPlan(x.plan))
            && moves[10] == PlaceOrders && moves[11] == Save(A.Stepped(A.MODE_EXECUTION), Keep)
            && (forall i :: 0 <= i < |ModeMoves(x)| ==> moves[12 + i] == ModeMoves(x)[i])
            && (forall i :: 0 <= i < |Ending(x.cycle)| ==> moves[n + i] == Save(Ending(x.cycle)[i], Keep))
  {
    hide Moves, ModeMoves, Ending, Plain, ExecutionMoves;
    FromPipeline(x);
    var moves, tail := Moves(x), ExecutionMoves(x);
    OpenExecution(x);
    assert |tail| == |moves| - 9 && tail[0] == moves[9] && tail[1] == moves[10] && tail[2] == moves[11];
    forall i | 0 <= i < |ModeMoves(x)| ensures moves[12 + i] == ModeMoves(x)[i] {
      assert moves[9..][3 + i] == tail[3 + i];
    }
    forall i | 0 <= i < |Ending(x.cycle)| ensures moves[12 + |ModeMoves(x)| + i] == Save(Ending(x.cycle)[i], Keep) {
      assert moves[9..][3 + |ModeMoves(x)| + i] == tail[3 + |ModeMoves(x)| + i];
    }
  }

  lemma OpenExecution(x: Inputs)
    requires x.cycle.marketOpen
    ensures var tail, n := ExecutionMoves(x), |ModeMoves(x)|;
            && |tail| == 3 + n + |Ending(x.cycle)|
            && tail[0] == Save(A.Stepped(A.EXECUTION_PLANNING), SetPlan(x.plan))
            && tail[1] == PlaceOrders && tail[2] == Save(A.Stepped(A.MODE_EXECUTION), Keep)
            && (forall i :: 0 <= i < n ==> tail[3 + i] == ModeMoves(x)[i])
            && (forall i :: 0 <= i < |Ending(x.cycle)| ==> tail[3 + n + i] == Save(Ending(x.cycle)[i], Keep))
  {
    hide ModeMoves, Ending;
  }

  /** How many moves the mode makes of the plan's orders. */
  function ModeCount(x: Inputs): nat {
    match x.cycle.mode
    case DRY_RUN => |x.plan.allocations|
    case SANDBOX => |x.plan.allocations|
    case REAL_MANUAL_CONFIRM => 1
    case _ => 0
  }

  lemma ModeMovesAt(x: Inputs)
    requires !x.cycle.mode.OFF? && !x.cycle.killSwitch && x.cycle.lockFree && !x.cycle.mode.SIGNAL_ONLY?
    requires x.cycle.marketOpen
    ensures var moves, n := Moves(x), 12 + ModeCount(x);
            && (x.cycle.mode in {DRY_RUN, SANDBOX} ==>
                  n <= |moves| && forall i :: 0 <= i < |x.plan.allocations| ==> moves[12 + i] == Trade(i))
            && (x.cycle.mode.REAL_MANUAL_CONFIRM? ==> n <= |moves| && moves[12] == CheckWaiting)
            && (if A.Plans(x.cycle.mode) then
                  && |moves| == n + 3 && moves[n] == Save(A.Stepped(A.FINAL_RECONCILIATION), Keep)
                  && moves[n + 1] == Save(A.Stepped(A.COMPLETED), Keep) && moves[n + 2] == Save(A.Finished(A.SUCCEEDED), Keep)
                else |moves| == n + 1 && moves[n] == Save(A.Finished(A.SKIPPED), Keep))
  {
    hide Moves;
    ExecutionAt(x);
    var moves, ending := Moves(x), Ending(x.cycle);
    assert |ModeMoves(x)| == ModeCount(x);
    assert forall i :: 0 <= i < |ending| ==> moves[12 + ModeCount(x) + i] == Save(ending[i], Keep);
    assert ending[0] == if A.Plans(x.cycle.mode) then A.Stepped(A.FINAL_RECONCILIATION) else A.Finished(A.SKIPPED);
    if A.Plans(x.cycle.mode) {
      assert ending[1] == A.Stepped(A.COMPLETED) && ending[2] == A.Finished(A.SUCCEEDED);
    }
    if x.cycle.mode.REAL_MANUAL_CONFIRM? {
      assert ModeMoves(x)[0] == CheckWaiting;
    } else if x.cycle.mode in {DRY_RUN, SANDBOX} {
      forall i | 0 <= i < |x.plan.allocations| ensures moves[12 + i] == Trade(i) {
        assert ModeMoves(x)[i] == Trade(i);
      }
    }
  }

  /** The moves of a cycle that finds the market closed. */
  lemma ClosedAt(x: Inputs)
    requires !x.cycle.mode.OFF? && !x.cycle.killSwitch && x.cycle.lockFree && !x.cycle.mode.SIGNAL_ONLY?
    requires !x.cycle.marketOpen
    ensures var moves := Moves(x);
            && |moves| == 12 && moves[9] == Save(A.OtherSaved, SetPlan(x.plan))
            && moves[10] == Save(A.Stepped(A.COMPLETED), Keep) && moves[11] == Save(A.Finished(A.SUCCEEDED), MarkSkipped)
  {
    hide Moves;
    FromPipeline(x);
    var moves := Moves(x);
    assert moves[9] == moves[9..][0] && moves[10] == moves[9..][1] && moves[11] == moves[9..][2];
  }

  lemma {:induction false} RaisedAlong(p: Progress, x: Inputs, now: int, k: nat, n: nat)
    requires k <= n <= |Moves(x)| && DoAll(p, x, now, Moves(x)[..k]).raised
    ensures DoAll(p, x, now, Moves(x)[..n]) == DoAll(p, x, now, Moves(x)[..k])
  {
    hide Moves, DoAll, Do;
    if k < n {
      RaisedAlong(p, x, now, k, n - 1);
      DoAllNext(p, x, now, Moves(x), n - 1);
      RaisedStays(DoAll(p, x, now, Moves(x)[..n - 1]), x, now, Moves(x)[n - 1]);
    }
  }
}
