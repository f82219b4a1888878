/** Concrete runs of the execution service, from the empty desk on, that show where its guarantees end. */
module OrderScenarios {
  import opened RiskManager
  import opened ExecutionPlanner
  import opened OrderDesk
  import opened OrderLifecycle
  import opened OrderHistory
  import opened TradingTraces

  function Profile(maxDailyTrades: int, cooldown: int): RiskProfile {
    RiskProfile(1.0, 100.0, 0.0, maxDailyTrades, cooldown, 60_000_000, LIMIT)
  }

  /** A calm market in which nothing but limits, cooldown and other planned orders can stop a small purchase. */
  function Calm(mode: TradeMode, stamp: int, now: int): Environment {
    Environment(false, mode, true, true, true, true, true, true, true, "acc", 10.0, now, 0, 0.0, 1000.0, 1000.0,
                now, stamp)
  }

  function Buy(uid: string): ExecutionAllocation {
    ExecutionAllocation(uid, BUY, 1, 1, 10.0)
  }

  function Buying(plan: int, uid: string, mode: TradeMode): PlannedOrder {
    PlannedOrder(PlannedOrderData(uid, BUY, 1, 1, LIMIT, 10.0, mode, IdempotencyKey(plan, uid, BUY)), "acc", PLANNED)
  }

  lemma TenIsExact()
    ensures LimitPrice(BUY, 10.0, 0.0) == 10.0
  {
    assert (1000.0).Floor == 1000 && (-1000.0).Floor == -1000;
  }

  /** Planning one calm purchase under a new key adds one planned order. */
  lemma OnePlanned(d: Desk, plan: int, uid: string, mode: TradeMode, risk: RiskProfile, now: int)
    requires mode in {DRY_RUN, SANDBOX} && risk.maxSlippage == 0.0 && risk.orderType.LIMIT?
    requires KeysUnique(d) && !KeyUsed(d, IdempotencyKey(plan, uid, BUY)) && d.nextId !in d.orders
    ensures PlanPlaced(d, plan, "acc", [Buy(uid)], Calm(mode, now, now), risk)
         == d.(orders := d.orders[d.nextId := Buying(plan, uid, mode)], nextId := d.nextId + 1)
  {
    TenIsExact();
    var items := OrdersFor(plan, [Buy(uid)], 0.0, mode);
    assert items == [Buying(plan, uid, mode).data];
    assert items[..0] == [] && AddOrders(d, d, "acc", []) == d;
    assert KeysUnique(AddOrders(d, d, "acc", items)) by {
      AddedUnique(d, Buying(plan, uid, mode));
    }
  }

  lemma AddedUnique(d: Desk, order: PlannedOrder)
    requires KeysUnique(d) && !KeyUsed(d, order.data.key) && d.nextId !in d.orders
    ensures KeysUnique(d.(orders := d.orders[d.nextId := order], nextId := d.nextId + 1))
  {
  }

  /** Nothing but the daily limit, the cooldown and other planned orders can stop a calm purchase. */
  lemma CalmPermitted(d: Desk, id: nat, plan: int, uid: string, mode: TradeMode, stamp: int, now: int, risk: RiskProfile)
    requires id in d.orders && d.orders[id] == Buying(plan, uid, mode)
    requires risk == Profile(risk.maxDailyTrades, risk.cooldown)
    requires CountSince(d, Midnight(now)) < risk.maxDailyTrades
    requires !CoolingDown(d, uid, now, risk.cooldown) && !Duplicated(d, id)
    ensures Permitted(d, id, Calm(mode, stamp, now), risk, mode)
  {
    hide CountSince, CoolingDown, Duplicated, Midnight;
    var order, ctx := d.orders[id].data, Context(d, id, Calm(mode, stamp, now), risk, mode);
    assert TradeAmount(order) == 10.0;
    forall r ensures !Applies(r, order, ctx) {
    }
  }

  lemma OneCall(calls: seq<Call>, c: Call)
    ensures Run(EMPTY, calls + [c]) == Step(Run(EMPTY, calls), c.action, c.risk)
  {
    hide Step;
    assert (calls + [c])[..|calls|] == calls;
  }

  lemma NoCall()
    ensures Run(EMPTY, []) == EMPTY
  {
  }

  lemma OneTrade(trade: VirtualTrade, since: int)
    ensures TradesOn([trade], since) == if Day(trade.at) == since then 1 else 0
    ensures TradesSince([trade], since) == if trade.at >= since then 1 else 0
  {
    hide Day;
    assert [trade][..0] == [] && TradesOn([], since) == 0 && TradesSince([], since) == 0;
  }

  // ------------------------------------------------------------- the daily limit across midnight

  const ONE_A_DAY := Profile(1, 0)

  /** Two purchases planned, one executed late in the evening, one stored just before midnight and checked at midnight. */
  const ACROSS_MIDNIGHT :=
    []
    + [Call(PlanOrders(1, "acc", [Buy("A")], Calm(DRY_RUN, 0, 0)), ONE_A_DAY)]
    + [Call(PlanOrders(1, "acc", [Buy("B")], Calm(DRY_RUN, 0, 0)), ONE_A_DAY)]
    + [Call(ExecuteDryRun(0, Calm(DRY_RUN, DAY - 2, DAY - 2)), ONE_A_DAY)]
    + [Call(ExecuteDryRun(1, Calm(DRY_RUN, DAY - 1, DAY)), ONE_A_DAY)]

  const PAIR := Desk(map[0 := Buying(1, "A", DRY_RUN), 1 := Buying(1, "B", DRY_RUN)], [], [], [], 2)

  const FIRST := VirtualTrade(0, "A", 10.0, DAY - 2)

  const SECOND := VirtualTrade(1, "B", 10.0, DAY - 1)

  lemma PairPlanned()
    ensures Run(EMPTY, ACROSS_MIDNIGHT[..2]) == PAIR
  {
    hide Run, PlanPlaced;
    assert "A"[0] != "B"[0];
    var calls := ACROSS_MIDNIGHT;
    assert calls[..1] == [] + [calls[0]] && calls[..2] == calls[..1] + [calls[1]];
    NoCall();
    OneCall([], calls[0]);
    OnePlanned(EMPTY, 1, "A", DRY_RUN, ONE_A_DAY, 0);
    OneCall(calls[..1], calls[1]);
    OnePlanned(Run(EMPTY, calls[..1]), 1, "B", DRY_RUN, ONE_A_DAY, 0);
  }

  lemma FirstBought()
    ensures Execute(PAIR, 0, Calm(DRY_RUN, DAY - 2, DAY - 2), ONE_A_DAY)
         == PAIR.(orders := PAIR.orders[0 := PAIR.orders[0].(status := SIMULATED)], trades := [FIRST])
  {
    hide Permitted;
    assert "A"[0] != "B"[0];
    CalmPermitted(PAIR, 0, 1, "A", DRY_RUN, DAY - 2, DAY - 2, ONE_A_DAY);
  }

  lemma SecondBought(d: Desk)
    requires d == PAIR.(orders := PAIR.orders[0 := PAIR.orders[0].(status := SIMULATED)], trades := [FIRST])
    ensures Execute(d, 1, Calm(DRY_RUN, DAY - 1, DAY), ONE_A_DAY)
         == d.(orders := d.orders[1 := d.orders[1].(status := SIMULATED)], trades := [FIRST, SECOND])
  {
    hide Permitted;
    assert "A"[0] != "B"[0];
    OneTrade(FIRST, DAY);
    CalmPermitted(d, 1, 1, "B", DRY_RUN, DAY - 1, DAY, ONE_A_DAY);
  }

  lemma BothOnFirstDay()
    ensures TradesOn([FIRST, SECOND], 0) == 2
  {
    assert Day(DAY - 2) == 0 && Day(DAY - 1) == 0;
    OneTrade(FIRST, 0);
    assert [FIRST, SECOND][..1] == [FIRST];
  }

  /**
   * `ACROSS_MIDNIGHT` stores two trades on one day under a limit of one, because the second is counted against the
   * next day: the limit is exceeded by its one late call.
   */
  lemma MidnightBreaksLimit()
    ensures UnderProfile(ACROSS_MIDNIGHT, ONE_A_DAY) && ONE_A_DAY.maxDailyTrades == 1
    ensures TradedOn(Run(EMPTY, ACROSS_MIDNIGHT), 0) == 2 <= 1 + Late(ACROSS_MIDNIGHT, 0)
  {
    hide Run, Execute, Late;
    var calls := ACROSS_MIDNIGHT;
    assert calls[..3] == calls[..2] + [calls[2]] && calls == calls[..3] + [calls[3]];
    PairPlanned();
    OneCall(calls[..2], calls[2]);
    FirstBought();
    OneCall(calls[..3], calls[3]);
    SecondBought(Run(EMPTY, calls[..3]));
    BothOnFirstDay();
    DailyLimitKept(calls, ONE_A_DAY, 0);
  }

  // ------------------------------------------------------------- the cooldown under a skew

  /** Two plans buy the same instrument; the second purchase is stored `skew` before it is checked. */
  function TwicePlanned(risk: RiskProfile, skew: int): seq<Call> {
    []
    + [Call(PlanOrders(1, "acc", [Buy("A")], Calm(DRY_RUN, 0, 0)), risk)]
    + [Call(ExecuteDryRun(0, Calm(DRY_RUN, 0, 0)), risk)]
    + [Call(PlanOrders(2, "acc", [Buy("A")], Calm(DRY_RUN, 0, 0)), risk)]
    + [Call(ExecuteDryRun(1, Calm(DRY_RUN, risk.cooldown - skew, risk.cooldown)), risk)]
  }

  lemma TwiceStart(risk: RiskProfile, skew: int)
    requires risk == Profile(2, risk.cooldown)
    ensures Run(EMPTY, TwicePlanned(risk, skew)[..2])
         == Desk(map[0 := Buying(1, "A", DRY_RUN).(status := SIMULATED)], [VirtualTrade(0, "A", 10.0, 0)], [], [], 1)
  {
    hide Run, PlanPlaced, Permitted;
    var calls := TwicePlanned(risk, skew);
    assert calls[..1] == [] + [calls[0]] && calls[..2] == calls[..1] + [calls[1]];
    NoCall();
    OneCall([], calls[0]);
    OnePlanned(EMPTY, 1, "A", DRY_RUN, risk, 0);
    OneCall(calls[..1], calls[1]);
    CalmPermitted(Run(EMPTY, calls[..1]), 0, 1, "A", DRY_RUN, 0, 0, risk);
  }

  lemma TwiceEnd(d: Desk, risk: RiskProfile, skew: int)
    requires risk == Profile(2, risk.cooldown)
    requires d == Desk(map[0 := Buying(1, "A", DRY_RUN).(status := SIMULATED), 1 := Buying(2, "A", DRY_RUN)],
                       [VirtualTrade(0, "A", 10.0, 0)], [], [], 2)
    ensures Execute(d, 1, Calm(DRY_RUN, risk.cooldown - skew, risk.cooldown), risk).trades
         == [VirtualTrade(0, "A", 10.0, 0), VirtualTrade(1, "A", 10.0, risk.cooldown - skew)]
  {
    hide Permitted;
    OneTrade(d.trades[0], Midnight(risk.cooldown));
    CalmPermitted(d, 1, 2, "A", DRY_RUN, risk.cooldown - skew, risk.cooldown, risk);
  }

  /** The bound of `CooldownKept` is attained, for every cooldown and every skew. */
  lemma CooldownIsTight(cooldown: int, skew: int)
    requires 0 <= skew <= cooldown
    ensures var risk := Profile(2, cooldown);
            var calls := TwicePlanned(risk, skew);
            var trades := Run(EMPTY, calls).trades;
            && UnderProfile(calls, risk) && WithinSkew(calls, skew)
            && |trades| == 2 && trades[0].uid == trades[1].uid && trades[1].at - trades[0].at == cooldown - skew
  {
    hide Run, Execute, PlanPlaced;
    var risk := Profile(2, cooldown);
    var calls := TwicePlanned(risk, skew);
    assert calls[..3] == calls[..2] + [calls[2]] && calls == calls[..3] + [calls[3]];
    TwiceStart(risk, skew);
    OneCall(calls[..2], calls[2]);
    OnePlanned(Run(EMPTY, calls[..2]), 2, "A", DRY_RUN, risk, 0);
    OneCall(calls[..3], calls[3]);
    TwiceEnd(Run(EMPTY, calls[..3]), risk, skew);
  }

  // ------------------------------------------------------------- a post without a record

  /** A purchase is posted to the sandbox, the process dies before the commit, and the kill switch stops the retry. */
  const ORPHANED :=
    []
    + [Call(PlanOrders(1, "acc", [Buy("A")], Calm(SANDBOX, 0, 0)), ONE_A_DAY)]
    + [Call(ExecuteInSandbox(0, Calm(SANDBOX, 0, 0), true), ONE_A_DAY)]
    + [Call(ExecuteInSandbox(0, Calm(SANDBOX, 1, 1).(killSwitch := true), false), ONE_A_DAY)]

  const POSTED := Desk(map[0 := Buying(1, "A", SANDBOX)], [], [], [Post(0, IdempotencyKey(1, "A", BUY))], 1)

  lemma PostedFirst()
    ensures Run(EMPTY, ORPHANED[..2]) == POSTED
  {
    hide Run, PlanPlaced, Permitted;
    var calls := ORPHANED;
    assert calls[..1] == [] + [calls[0]] && calls[..2] == calls[..1] + [calls[1]];
    NoCall();
    OneCall([], calls[0]);
    OnePlanned(EMPTY, 1, "A", SANDBOX, ONE_A_DAY, 0);
    OneCall(calls[..1], calls[1]);
    CalmPermitted(Run(EMPTY, calls[..1]), 0, 1, "A", SANDBOX, 0, 0, ONE_A_DAY);
  }

  /** `ORPHANED` ends with the broker holding an order that is rejected here and has no execution row, for good. */
  lemma CrashOrphansAPost(later: seq<Call>)
    ensures var e := Run(Run(EMPTY, ORPHANED), later);
            && 0 in e.orders && e.orders[0].status == RISK_REJECTED
            && Posted(e, 0) && !HasExecution(e.executions, 0)
  {
    hide Run, Permitted, StatusValid, KeysUnique;
    var calls := ORPHANED;
    assert calls == calls[..2] + [calls[2]];
    PostedFirst();
    OneCall(calls[..2], calls[2]);
    if Permitted(POSTED, 0, calls[2].action.env, ONE_A_DAY, SANDBOX) {
      PermittedMode(POSTED, 0, calls[2].action.env, ONE_A_DAY, SANDBOX);
    }
    var d := Run(EMPTY, calls);
    AlwaysConsistent(calls);
    RunExtends(d, later);
    var e := Run(d, later);
    assert d.posts[0].order == 0;
    assert e.posts[0].order == 0;
    ValidStatus(e, 0);
    StatusTellsExecution(e, 0);
  }
}
