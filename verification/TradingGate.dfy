/** What executing or confirming an order does, in terms of the stored rows, the order, the environment and the risk profile alone. */
module TradingGate {
  import opened Wrappers
  import opened Sums
  import opened RiskManager
  import opened OrderDesk

  /** Price times units. */
  function Worth(o: PlannedOrderData): real {
    o.limitPrice * o.lotSize as real * o.lots as real
  }

  /** The trades and executions stored since the last midnight before `now`, UTC. */
  function StoredToday(d: Desk, now: int): nat {
    var midnight := now / 86_400_000_000 * 86_400_000_000;
    |set i | 0 <= i < |d.trades| && d.trades[i].at >= midnight|
    + |set i | 0 <= i < |d.executions| && d.executions[i].at >= midnight|
  }

  /** The instrument was not traded for so long. */
  ghost predicate Rested(d: Desk, uid: string, now: int, cooldown: int) {
    && (forall i :: 0 <= i < |d.trades| && d.trades[i].uid == uid ==> now - d.trades[i].at >= cooldown)
    && (forall i :: 0 <= i < |d.executions| && d.executions[i].uid == uid ==> now - d.executions[i].at >= cooldown)
  }

  /** No other order of the instrument and side is planned. */
  ghost predicate Alone(d: Desk, id: nat)
    requires id in d.orders
  {
    forall other :: other in d.orders && other != id && d.orders[other].status == PLANNED
                    && d.orders[other].data.uid == d.orders[id].data.uid ==>
      d.orders[other].data.direction != d.orders[id].data.direction
  }

  /** Everything the order has to meet to be traded in this mode. */
  ghost predicate MayTrade(d: Desk, id: nat, env: Environment, risk: RiskProfile, mode: TradeMode)
    requires id in d.orders
  {
    var o, account := d.orders[id].data, d.orders[id].account;
    && !env.killSwitch
    && env.mode == mode && o.tradeMode == mode
    && account != "" && account == env.brokerAccount
    && env.inWatchlist
    && (match o.direction case BUY => env.buyEnabled case SELL => env.sellEnabled)
    && env.apiTradeAvailable
    && (match o.orderType case LIMIT => env.limitAvailable case MARKET => env.marketAvailable)
    && env.now - env.priceTime <= risk.maxPriceAge
    && env.price * (1.0 - risk.maxSlippage) - 0.01 <= o.limitPrice <= env.price * (1.0 + risk.maxSlippage) + 0.01
    && Worth(o) <= risk.maxTradeAmount
    && StoredToday(d, env.now) < risk.maxDailyTrades
    && Rested(d, o.uid, env.now, risk.cooldown)
    && Alone(d, id)
    && match o.direction
       case BUY =>
         && Worth(o) <= env.cashAvailable
         && env.portfolioValue > 0.0 && env.positionValue + Worth(o) <= risk.maxPositionWeight * env.portfolioValue
       case SELL => o.lots <= env.positionLots
  }

  // ------------------------------------------------------------- each condition is the gate's

  lemma {:induction false} TradesCounted(trades: seq<VirtualTrade>, since: int)
    ensures TradesSince(trades, since) == |set i | 0 <= i < |trades| && trades[i].at >= since|
  {
    var now := set i | 0 <= i < |trades| && trades[i].at >= since;
    if trades != [] {
      var n := |trades| - 1;
      TradesCounted(trades[..n], since);
      var before := set i | 0 <= i < |trades[..n]| && trades[..n][i].at >= since;
      assert now == if trades[n].at >= since then before + {n} else before;
    }
  }

  lemma {:induction false} ExecutionsCounted(executions: seq<ExecutionOrder>, since: int)
    ensures ExecutionsSince(executions, since) == |set i | 0 <= i < |executions| && executions[i].at >= since|
  {
    var now := set i | 0 <= i < |executions| && executions[i].at >= since;
    if executions != [] {
      var n := |executions| - 1;
      ExecutionsCounted(executions[..n], since);
      var before := set i | 0 <= i < |executions[..n]| && executions[..n][i].at >= since;
      assert now == if executions[n].at >= since then before + {n} else before;
    }
  }

  lemma CountedToday(d: Desk, now: int)
    ensures CountSince(d, Midnight(now)) == StoredToday(d, now)
  {
    TradesCounted(d.trades, Midnight(now));
    ExecutionsCounted(d.executions, Midnight(now));
  }

  lemma RestedIs(d: Desk, uid: string, now: int, cooldown: int)
    ensures Rested(d, uid, now, cooldown) <==> !CoolingDown(d, uid, now, cooldown)
  {
  }

  lemma AloneIs(d: Desk, id: nat)
    requires id in d.orders
    ensures Alone(d, id) <==> !Duplicated(d, id)
  {
  }

  lemma WeightIs(x: real, value: real, weight: real)
    requires value > 0.0
    ensures x / value > weight <==> x > weight * value
  {
    var q := x / value;
    assert q * value == x;
    CompareScaled(q, weight, value);
  }

  lemma SettingsChecked(d: Desk, id: nat, env: Environment, risk: RiskProfile, mode: TradeMode)
    requires id in d.orders
    ensures Context(d, id, env, risk, mode).marketPrice > 0.0
    ensures var o, account, ctx := d.orders[id].data, d.orders[id].account, Context(d, id, env, risk, mode);
            && (Applies(KillSwitchActive, o, ctx) <==> env.killSwitch)
            && (Applies(WrongTradeMode, o, ctx) <==> !(env.mode == mode && o.tradeMode == mode))
            && (Applies(AccountMismatch, o, ctx) <==> !(account != "" && account == env.brokerAccount))
            && (Applies(NotInWatchlist, o, ctx) <==> !env.inWatchlist)
            && (Applies(DirectionDisabled, o, ctx) <==>
                  !(env.inWatchlist && match o.direction case BUY => env.buyEnabled case SELL => env.sellEnabled))
            && (Applies(TradingStatusRejects, o, ctx) <==>
                  !(env.apiTradeAvailable
                    && match o.orderType case LIMIT => env.limitAvailable case MARKET => env.marketAvailable))
  {
    hide CountSince, CoolingDown, Duplicated, Midnight;
  }

  lemma PriceChecked(d: Desk, id: nat, env: Environment, risk: RiskProfile, mode: TradeMode)
    requires id in d.orders
    ensures var o, ctx := d.orders[id].data, Context(d, id, env, risk, mode);
            && (Applies(StalePrice, o, ctx) <==> env.now - env.priceTime > risk.maxPriceAge)
            && (Applies(SlippageExceeded, o, ctx) <==>
                  !(env.price * (1.0 - risk.maxSlippage) - 0.01 <= o.limitPrice
                    <= env.price * (1.0 + risk.maxSlippage) + 0.01))
            && (Applies(AmountExceeded, o, ctx) <==> Worth(o) > risk.maxTradeAmount)
  {
    hide CountSince, CoolingDown, Duplicated, Midnight, SlippageRejected;
    SlippageBand(d.orders[id].data.limitPrice, env.price, risk.maxSlippage);
  }

  lemma RepeatsChecked(d: Desk, id: nat, env: Environment, risk: RiskProfile, mode: TradeMode)
    requires id in d.orders
    ensures var o, ctx := d.orders[id].data, Context(d, id, env, risk, mode);
            && (Applies(DailyLimitReached, o, ctx) <==> StoredToday(d, env.now) >= risk.maxDailyTrades)
            && (Applies(CooldownRunning, o, ctx) <==> !Rested(d, o.uid, env.now, risk.cooldown))
            && !Applies(KeyExists, o, ctx)
            && (Applies(DuplicateOrder, o, ctx) <==> !Alone(d, id))
  {
    hide CountSince, CoolingDown, Duplicated, Midnight, StoredToday, Rested, Alone;
    CountedToday(d, env.now);
    RestedIs(d, d.orders[id].data.uid, env.now, risk.cooldown);
    AloneIs(d, id);
  }

  lemma DirectionChecked(d: Desk, id: nat, env: Environment, risk: RiskProfile, mode: TradeMode)
    requires id in d.orders
    ensures var o, ctx := d.orders[id].data, Context(d, id, env, risk, mode);
            && (Applies(InsufficientCash, o, ctx) <==> o.direction == BUY && Worth(o) > env.cashAvailable)
            && (Applies(WeightExceeded, o, ctx) <==>
                  o.direction == BUY
                  && !(env.portfolioValue > 0.0
                       && env.positionValue + Worth(o) <= risk.maxPositionWeight * env.portfolioValue))
            && (Applies(ShortPosition, o, ctx) <==> o.direction == SELL && o.lots > env.positionLots)
  {
    hide CountSince, CoolingDown, Duplicated, Midnight, Worth, TradeAmount, TooHeavy;
    WorthIs(d.orders[id].data);
    HeavyIs(Context(d, id, env, risk, mode), env.positionValue + Worth(d.orders[id].data));
  }

  lemma HeavyIs(ctx: RiskContext, projected: real)
    ensures TooHeavy(ctx, projected) <==>
              !(ctx.portfolioValue > 0.0 && projected <= ctx.maxPositionWeight * ctx.portfolioValue)
  {
    if ctx.portfolioValue > 0.0 {
      WeightIs(projected, ctx.portfolioValue, ctx.maxPositionWeight);
    }
  }

  lemma WorthIs(o: PlannedOrderData)
    ensures Worth(o) == TradeAmount(o)
  {
  }

  /** No reason applies exactly if every condition holds. */
  lemma PermittedIs(d: Desk, id: nat, env: Environment, risk: RiskProfile, mode: TradeMode)
    requires id in d.orders
    ensures Permitted(d, id, env, risk, mode) <==> MayTrade(d, id, env, risk, mode)
  {
    hide Context, Applies, StoredToday, Rested, Alone, Worth;
    SettingsChecked(d, id, env, risk, mode);
    PriceChecked(d, id, env, risk, mode);
    RepeatsChecked(d, id, env, risk, mode);
    DirectionChecked(d, id, env, risk, mode);
    EveryReason(d.orders[id].data, Context(d, id, env, risk, mode));
  }

  lemma EveryReason(o: PlannedOrderData, ctx: RiskContext)
    requires ctx.marketPrice > 0.0
    ensures (forall r :: !Applies(r, o, ctx)) <==>
              && !Applies(KillSwitchActive, o, ctx) && !Applies(WrongTradeMode, o, ctx)
              && !Applies(AccountMismatch, o, ctx) && !Applies(NotInWatchlist, o, ctx)
              && !Applies(DirectionDisabled, o, ctx) && !Applies(TradingStatusRejects, o, ctx)
              && !Applies(StalePrice, o, ctx) && !Applies(SlippageExceeded, o, ctx)
              && !Applies(AmountExceeded, o, ctx) && !Applies(DailyLimitReached, o, ctx)
              && !Applies(CooldownRunning, o, ctx) && !Applies(KeyExists, o, ctx)
              && !Applies(DuplicateOrder, o, ctx) && !Applies(InsufficientCash, o, ctx)
              && !Applies(WeightExceeded, o, ctx) && !Applies(ShortPosition, o, ctx)
  {
    hide Applies;
    forall r ensures Applies(r, o, ctx) ==> exists s :: s in ALL && Applies(s, o, ctx) {
      AllListed(r);
    }
  }

  const ALL := [
    KillSwitchActive, WrongTradeMode, AccountMismatch, NotInWatchlist, DirectionDisabled, TradingStatusRejects,
    StalePrice, SlippageExceeded, AmountExceeded, DailyLimitReached, CooldownRunning,
    KeyExists, DuplicateOrder, InsufficientCash, WeightExceeded, ShortPosition]

  lemma AllListed(r: RiskReason)
    ensures r in ALL && ALL[Rank(r)] == r
  {
  }

  // ------------------------------------------------------------- the two calls

  /**
   * `execute`, exactly: a planned order without a trade is simulated at its limit price if it meets every condition
   * of the gate, and rejected otherwise; any other order stays as it is, and so does everything else.
   */
  lemma ExecuteExactly(d: Desk, id: nat, env: Environment, risk: RiskProfile)
    ensures var e := Execute(d, id, env, risk);
            if id in d.orders && d.orders[id].status == PLANNED && forall i :: 0 <= i < |d.trades| ==> d.trades[i].order != id then
              var o := d.orders[id];
              if MayTrade(d, id, env, risk, DRY_RUN) then
                e == d.(orders := d.orders[id := o.(status := SIMULATED)],
                        trades := d.trades + [VirtualTrade(id, o.data.uid, Worth(o.data), env.stamp)])
              else e == d.(orders := d.orders[id := o.(status := RISK_REJECTED)])
            else e == d
  {
    hide MayTrade, Permitted;
    if id in d.orders {
      PermittedIs(d, id, env, risk, DRY_RUN);
    }
  }

  /**
   * `execute_sandbox`, exactly: with the broker configured, a planned order without an execution row is posted under its
   * key if it meets every condition of the gate, and recorded unless the call is cut; and rejected otherwise.
   */
  lemma ExecuteSandboxExactly(d: Desk, id: nat, env: Environment, risk: RiskProfile, crash: bool)
    ensures var e := ExecuteSandbox(d, id, env, risk, crash);
            if && env.sandboxConfigured && id in d.orders && d.orders[id].status == PLANNED
               && forall i :: 0 <= i < |d.executions| ==> d.executions[i].order != id then
              var o := d.orders[id];
              if MayTrade(d, id, env, risk, SANDBOX) then
                var posts := d.posts + [Post(id, o.data.key)];
                if crash then e == d.(posts := posts)
                else e == d.(orders := d.orders[id := o.(status := SUBMITTED)], posts := posts,
                             executions := d.executions + [ExecutionOrder(id, o.data.uid, env.stamp)])
              else e == d.(orders := d.orders[id := o.(status := RISK_REJECTED)])
            else e == d
  {
    hide MayTrade, Permitted;
    if id in d.orders {
      PermittedIs(d, id, env, risk, SANDBOX);
    }
  }

  // ------------------------------------------------------------- confirmation by hand

  /** `approve` and `reject`, exactly: an order planned for it, in manual mode, and waiting or, to be rejected, approved. */
  lemma ConfirmationExactly(d: Desk, id: nat, mode: TradeMode)
    ensures var manual := id in d.orders && d.orders[id].data.tradeMode == REAL_MANUAL_CONFIRM && mode == REAL_MANUAL_CONFIRM;
            && (Approve(d, id, mode)
                == if manual && d.orders[id].status == WAITING_CONFIRMATION then
                     d.(orders := d.orders[id := d.orders[id].(status := APPROVED)])
                   else d)
            && (Reject(d, id, mode)
                == if manual && (d.orders[id].status == WAITING_CONFIRMATION || d.orders[id].status == APPROVED) then
                     d.(orders := d.orders[id := d.orders[id].(status := REJECTED)])
                   else d)
  {
  }
}
