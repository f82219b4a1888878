/**
 * What the risk gate guarantees over a whole run of service calls under one risk profile.
 *
 * A trade is checked against the service clock (`now`) but stored with the database's transaction time
 * (`stamp`), so each bound says how far the two may be apart.
 */
module TradingTraces {
  import opened Sums
  import opened RiskManager
  import opened ExecutionPlanner
  import opened OrderDesk
  import opened OrderLifecycle
  import opened OrderHistory

  predicate Trading(a: Action) {
    a.ExecuteDryRun? || a.ExecuteInSandbox?
  }

  ghost predicate UnderProfile(calls: seq<Call>, risk: RiskProfile) {
    forall i :: 0 <= i < |calls| ==> calls[i].risk == risk
  }

  /** In every trading call the check happens at most `skew` after the stored time. */
  ghost predicate WithinSkew(calls: seq<Call>, skew: int) {
    forall i :: 0 <= i < |calls| && Trading(calls[i].action) ==>
      calls[i].action.env.now <= calls[i].action.env.stamp + skew
  }

  // ------------------------------------------------------------- one step

  ghost predicate PassesGate(d: Desk, uid: string, env: Environment, risk: RiskProfile) {
    CountSince(d, Midnight(env.now)) < risk.maxDailyTrades && !CoolingDown(d, uid, env.now, risk.cooldown)
  }

  lemma PermittedPassesGate(d: Desk, id: nat, env: Environment, risk: RiskProfile, required: TradeMode)
    requires id in d.orders && Permitted(d, id, env, risk, required)
    ensures PassesGate(d, d.orders[id].data.uid, env, risk)
    ensures TradeAmount(d.orders[id].data) <= risk.maxTradeAmount
  {
    hide TradeAmount, SlippageRejected, TooHeavy, CoolingDown, Duplicated, CountSince;
    var order, ctx := d.orders[id].data, Context(d, id, env, risk, required);
    assert !Applies(DailyLimitReached, order, ctx);
    assert !Applies(CooldownRunning, order, ctx);
    assert !Applies(AmountExceeded, order, ctx);
  }

  ghost predicate Simulated(d: Desk, e: Desk, a: Action, risk: RiskProfile) {
    && a.ExecuteDryRun? && e.executions == d.executions
    && |e.trades| == |d.trades| + 1 && e.trades[..|d.trades|] == d.trades
    && var row := e.trades[|d.trades|];
       row.at == a.env.stamp && row.total <= risk.maxTradeAmount && PassesGate(d, row.uid, a.env, risk)
  }

  ghost predicate Submitted(d: Desk, e: Desk, a: Action, risk: RiskProfile) {
    && a.ExecuteInSandbox? && e.trades == d.trades
    && |e.executions| == |d.executions| + 1 && e.executions[..|d.executions|] == d.executions
    && var row := e.executions[|d.executions|];
       row.at == a.env.stamp && PassesGate(d, row.uid, a.env, risk)
  }

  /** A call adds at most one row to the two logs, and only past the gate. */
  lemma StepLogs(d: Desk, a: Action, risk: RiskProfile)
    requires Consistent(d)
    ensures var e := Step(d, a, risk);
            || (e.trades == d.trades && e.executions == d.executions)
            || Simulated(d, e, a, risk)
            || Submitted(d, e, a, risk)
  {
    hide Permitted, AddOrders, OrdersFor, LimitPrice, PassesGate, TradeAmount, Consistent;
    match a
    case PlanOrders(plan, account, allocations, env) => PlanKeepsLogs(d, plan, account, allocations, env, risk);
    case ExecuteDryRun(id, env) =>
      if id in d.orders && Permitted(d, id, env, risk, DRY_RUN) {
        PermittedPassesGate(d, id, env, risk, DRY_RUN);
      }
    case ExecuteInSandbox(id, env, crash) =>
      if id in d.orders && Permitted(d, id, env, risk, SANDBOX) {
        PermittedPassesGate(d, id, env, risk, SANDBOX);
      }
    case _ =>
  }

  // ------------------------------------------------------------- cooldown

  /** Any two rows of one instrument, in one log or across the two, are `gap` apart. */
  ghost predicate Spaced(d: Desk, gap: int) {
    && (forall i, j :: 0 <= i < j < |d.trades| && d.trades[i].uid == d.trades[j].uid ==>
          d.trades[j].at - d.trades[i].at >= gap)
    && (forall i, j :: 0 <= i < j < |d.executions| && d.executions[i].uid == d.executions[j].uid ==>
          d.executions[j].at - d.executions[i].at >= gap)
    && (forall i, j :: 0 <= i < |d.trades| && 0 <= j < |d.executions| && d.trades[i].uid == d.executions[j].uid ==>
          Abs((d.trades[i].at - d.executions[j].at) as real) >= gap as real)
  }

  lemma StepSpaced(d: Desk, a: Action, risk: RiskProfile, skew: int)
    requires Consistent(d) && Spaced(d, risk.cooldown - skew)
    requires Trading(a) ==> a.env.now <= a.env.stamp + skew
    ensures Spaced(Step(d, a, risk), risk.cooldown - skew)
  {
    hide Step, Consistent, CountSince;
    StepLogs(d, a, risk);
    var e := Step(d, a, risk);
    if Simulated(d, e, a, risk) {
      assert forall i :: 0 <= i < |d.trades| ==> e.trades[i] == e.trades[..|d.trades|][i];
    } else if Submitted(d, e, a, risk) {
      assert forall i :: 0 <= i < |d.executions| ==> e.executions[i] == e.executions[..|d.executions|][i];
    }
  }

  /**
   * Any two trades of one instrument, simulated or sent to the sandbox, are stored at least the cooldown
   * minus the skew apart, in every run.
   */
  lemma {:induction false} CooldownKept(calls: seq<Call>, risk: RiskProfile, skew: int)
    requires UnderProfile(calls, risk) && WithinSkew(calls, skew)
    ensures Spaced(Run(EMPTY, calls), risk.cooldown - skew)
  {
    hide Step, Spaced;
    if calls == [] {
      EmptySpaced(risk.cooldown - skew);
    } else {
      var n := |calls| - 1;
      CooldownKept(calls[..n], risk, skew);
      AlwaysConsistent(calls[..n]);
      StepSpaced(Run(EMPTY, calls[..n]), calls[n].action, risk, skew);
    }
  }

  lemma EmptySpaced(gap: int)
    ensures Spaced(EMPTY, gap)
  {
  }

  // ------------------------------------------------------------- daily limit

  function TradesOn(trades: seq<VirtualTrade>, day: int): nat {
    if trades == [] then 0
    else TradesOn(trades[..|trades| - 1], day) + if Day(trades[|trades| - 1].at) == day then 1 else 0
  }

  function ExecutionsOn(executions: seq<ExecutionOrder>, day: int): nat {
    if executions == [] then 0
    else ExecutionsOn(executions[..|executions| - 1], day)
         + if Day(executions[|executions| - 1].at) == day then 1 else 0
  }

  /** All trades of a UTC day, simulated and sent to the sandbox. */
  function TradedOn(d: Desk, day: int): nat {
    TradesOn(d.trades, day) + ExecutionsOn(d.executions, day)
  }

  /** Trading calls stored on `day` but checked on a later one. */
  function Late(calls: seq<Call>, day: int): nat {
    if calls == [] then 0
    else
      var a := calls[|calls| - 1].action;
      Late(calls[..|calls| - 1], day) + if Trading(a) && Day(a.env.stamp) == day < Day(a.env.now) then 1 else 0
  }

  /** A check on a day or before it counts all trades of that day. */
  lemma {:induction false} TradesSinceMidnight(trades: seq<VirtualTrade>, now: int, day: int)
    requires Day(now) <= day
    ensures TradesOn(trades, day) <= TradesSince(trades, Midnight(now))
  {
    if trades != [] {
      TradesSinceMidnight(trades[..|trades| - 1], now, day);
    }
  }

  lemma {:induction false} ExecutionsSinceMidnight(executions: seq<ExecutionOrder>, now: int, day: int)
    requires Day(now) <= day
    ensures ExecutionsOn(executions, day) <= ExecutionsSince(executions, Midnight(now))
  {
    if executions != [] {
      ExecutionsSinceMidnight(executions[..|executions| - 1], now, day);
    }
  }

  /** The call adds a trade. */
  ghost predicate Trades(d: Desk, a: Action, risk: RiskProfile) {
    var e := Step(d, a, risk); Simulated(d, e, a, risk) || Submitted(d, e, a, risk)
  }

  lemma TradesIsTrading(d: Desk, a: Action, risk: RiskProfile)
    ensures Trades(d, a, risk) ==> Trading(a)
  {
    hide Step;
  }

  lemma StepTradedOn(d: Desk, a: Action, risk: RiskProfile, day: int)
    requires Consistent(d)
    ensures TradedOn(Step(d, a, risk), day)
         == TradedOn(d, day) + if Trades(d, a, risk) && Day(a.env.stamp) == day then 1 else 0
    ensures Trades(d, a, risk) ==>
              Trading(a) && (Day(a.env.now) <= day ==> TradedOn(d, day) < risk.maxDailyTrades)
  {
    hide Step, Consistent, CoolingDown, Day;
    StepLogs(d, a, risk);
    if Trading(a) && Day(a.env.now) <= day {
      TradesSinceMidnight(d.trades, a.env.now, day);
      ExecutionsSinceMidnight(d.executions, a.env.now, day);
    }
  }

  /**
   * A trade leaves the day it is stored on within the limit exactly if it was checked on that day or before it, or
   * found room left on that day.
   */
  lemma TradeKeepsLimit(d: Desk, a: Action, risk: RiskProfile)
    requires Consistent(d) && Trades(d, a, risk)
    ensures TradedOn(Step(d, a, risk), Day(a.env.stamp)) <= risk.maxDailyTrades
       <==> Day(a.env.now) <= Day(a.env.stamp) || TradedOn(d, Day(a.env.stamp)) < risk.maxDailyTrades
  {
    hide Step, Consistent, TradedOn, Day, Simulated, Submitted;
    assert Trading(a) by { TradesIsTrading(d, a, risk); }
    StepTradedOn(d, a, risk, Day(a.env.stamp));
  }

  /** The i-th call stores a trade on `day` that was checked on a later day, the day being full already. */
  ghost predicate Overruns(calls: seq<Call>, i: nat, day: int)
    requires i < |calls|
  {
    var d, a, risk := Run(EMPTY, calls[..i]), calls[i].action, calls[i].risk;
    Trades(d, a, risk) && Day(a.env.stamp) == day < Day(a.env.now) && TradedOn(d, day) >= risk.maxDailyTrades
  }

  /** In every run the limit of a day is kept exactly if no late trade hits a full day. */
  lemma {:induction false} DailyLimitExactly(calls: seq<Call>, risk: RiskProfile, day: int)
    requires UnderProfile(calls, risk) && risk.maxDailyTrades >= 0
    ensures TradedOn(Run(EMPTY, calls), day) <= risk.maxDailyTrades <==>
              forall i: nat :: i < |calls| ==> !Overruns(calls, i, day)
  {
    hide Step, TradedOn, Day, Trades;
    if calls == [] {
      NothingTraded(day);
    } else {
      var n := |calls| - 1;
      DailyLimitExactly(calls[..n], risk, day);
      AlwaysConsistent(calls[..n]);
      StepTradedOn(Run(EMPTY, calls[..n]), calls[n].action, risk, day);
      forall i: nat | i < n ensures Overruns(calls, i, day) <==> Overruns(calls[..n], i, day) {
        assert calls[..n][..i] == calls[..i];
      }
      assert Overruns(calls, n, day) <==>
               Trades(Run(EMPTY, calls[..n]), calls[n].action, risk) && Day(calls[n].action.env.stamp) == day
               && day < Day(calls[n].action.env.now) && TradedOn(Run(EMPTY, calls[..n]), day) >= risk.maxDailyTrades;
    }
  }

  /** In every run a day holds at most the limit, plus one trade for each call stored on it and checked later. */
  lemma {:induction false} DailyLimitKept(calls: seq<Call>, risk: RiskProfile, day: int)
    requires UnderProfile(calls, risk) && risk.maxDailyTrades >= 0
    ensures TradedOn(Run(EMPTY, calls), day) <= risk.maxDailyTrades + Late(calls, day)
  {
    hide Step, TradedOn, Day, Trades;
    if calls == [] {
      NothingTraded(day);
    } else {
      var n := |calls| - 1;
      DailyLimitKept(calls[..n], risk, day);
      AlwaysConsistent(calls[..n]);
      StepTradedOn(Run(EMPTY, calls[..n]), calls[n].action, risk, day);
    }
  }

  lemma NothingTraded(day: int)
    ensures TradedOn(EMPTY, day) == 0
  {
  }

  // ------------------------------------------------------------- notional

  function TotalOn(trades: seq<VirtualTrade>, day: int): real {
    if trades == [] then 0.0
    else TotalOn(trades[..|trades| - 1], day)
         + if Day(trades[|trades| - 1].at) == day then trades[|trades| - 1].total else 0.0
  }

  lemma {:induction false} TotalBounded(trades: seq<VirtualTrade>, day: int, most: real)
    requires forall i :: 0 <= i < |trades| ==> trades[i].total <= most
    ensures TotalOn(trades, day) <= TradesOn(trades, day) as real * most
  {
    hide Day;
    if trades != [] {
      var n := |trades| - 1;
      TotalBounded(trades[..n], day, most);
      OneMore(TradesOn(trades[..n], day) as real, most);
    }
  }

  lemma OneMore(count: real, most: real)
    ensures (count + 1.0) * most == count * most + most
  {
  }

  lemma {:induction false} EachWithinAmount(calls: seq<Call>, risk: RiskProfile)
    requires UnderProfile(calls, risk)
    ensures forall t :: t in Run(EMPTY, calls).trades ==> t.total <= risk.maxTradeAmount
  {
    hide Step, Consistent, PassesGate;
    if calls != [] {
      var n := |calls| - 1;
      EachWithinAmount(calls[..n], risk);
      AlwaysConsistent(calls[..n]);
      var d, e := Run(EMPTY, calls[..n]), Run(EMPTY, calls);
      StepLogs(d, calls[n].action, risk);
      if Simulated(d, e, calls[n].action, risk) {
        assert e.trades == d.trades + [e.trades[|d.trades|]];
      }
    }
  }

  /** The simulated notional of a day is at most that many trades times the limit of one trade. */
  lemma DailyNotionalBounded(calls: seq<Call>, risk: RiskProfile, day: int)
    requires UnderProfile(calls, risk) && risk.maxDailyTrades >= 0 && risk.maxTradeAmount >= 0.0
    ensures TotalOn(Run(EMPTY, calls).trades, day)
         <= (risk.maxDailyTrades + Late(calls, day)) as real * risk.maxTradeAmount
  {
    hide Run, TotalOn, TradesOn, ExecutionsOn, Late;
    var d := Run(EMPTY, calls);
    EachWithinAmount(calls, risk);
    TotalBounded(d.trades, day, risk.maxTradeAmount);
    DailyLimitKept(calls, risk, day);
    MoreIsMore(TradesOn(d.trades, day) as real, (risk.maxDailyTrades + Late(calls, day)) as real, risk.maxTradeAmount);
  }

  lemma MoreIsMore(x: real, y: real, k: real)
    requires x <= y && k >= 0.0
    ensures x * k <= y * k
  {
  }
}
