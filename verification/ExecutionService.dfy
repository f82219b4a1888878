/** The execution service and its repository as objects, each call proved to have its effect on the desk. */
module ExecutionService {
  import opened Wrappers
  import opened RiskManager
  import P = ExecutionPlanner
  import D = OrderDesk

  type Desk = D.Desk
  type Environment = D.Environment
  type RiskProfile = D.RiskProfile
  type IdempotencyKey = RiskManager.IdempotencyKey

  datatype Refusal =
    | NotFound
    | ModeForbidsPlanning
    | BadPlan(error: P.PlanningError)
    | KeyTaken
    | SandboxNotConfigured
    | WrongStatus(status: D.OrderStatus)
    | RiskRejected(reasons: seq<RiskReason>)
    | NotManual
    | Interrupted

  /** The latest trade of an instrument over both logs, if it has any. */
  ghost predicate IsLatest(d: Desk, uid: string, t: Option<int>) {
    && (forall i :: 0 <= i < |d.trades| && d.trades[i].uid == uid ==> t.Some? && d.trades[i].at <= t.value)
    && (forall i :: 0 <= i < |d.executions| && d.executions[i].uid == uid ==> t.Some? && d.executions[i].at <= t.value)
    && (t.Some? ==>
          || (exists i :: 0 <= i < |d.trades| && d.trades[i].uid == uid && d.trades[i].at == t.value)
          || (exists i :: 0 <= i < |d.executions| && d.executions[i].uid == uid && d.executions[i].at == t.value))
  }

  /** Looking only at the latest trade decides the cooldown against all of them. */
  lemma LatestDecidesCooldown(d: Desk, uid: string, t: Option<int>, now: int, cooldown: int)
    requires IsLatest(d, uid, t)
    ensures D.CoolingDown(d, uid, now, cooldown) <==> t.Some? && now - t.value < cooldown
  {
  }

  class SandboxBroker {
    var posts: seq<D.Post>

    constructor ()
      ensures posts == []
    {
      posts := [];
    }

    method PostSandboxOrder(order: nat, orderId: IdempotencyKey)
      modifies this
      ensures posts == old(posts) + [D.Post(order, orderId)]
    {
      posts := posts + [D.Post(order, orderId)];
    }
  }

  class ExecutionRepository {
    var orders: map<nat, D.PlannedOrder>
    var trades: seq<D.VirtualTrade>
    var executions: seq<D.ExecutionOrder>
    var nextId: nat

    constructor ()
      ensures Valid() && orders == map[] && trades == [] && executions == [] && nextId == 0
    {
      orders, trades, executions, nextId := map[], [], [], 0;
    }

    /** Ids come from a sequence: no stored order has one that is still to be given out. */
    ghost predicate Valid()
      reads this
    {
      forall id :: id in orders ==> id < nextId
    }

    function Tables(posts: seq<D.Post>): Desk
      reads this
    {
      D.Desk(orders, trades, executions, posts, nextId)
    }

    method VirtualTradeOf(id: nat) returns (r: Option<D.VirtualTrade>)
      ensures r.Some? <==> D.HasTrade(trades, id)
      ensures r.Some? ==> r.value in trades && r.value.order == id
    {
      for i := 0 to |trades|
        invariant forall k :: 0 <= k < i ==> trades[k].order != id
      {
        if trades[i].order == id {
          return Some(trades[i]);
        }
      }
      return None;
    }

    method GetExecutionOrder(id: nat) returns (r: Option<D.ExecutionOrder>)
      ensures r.Some? <==> D.HasExecution(executions, id)
      ensures r.Some? ==> r.value in executions && r.value.order == id
    {
      for i := 0 to |executions|
        invariant forall k :: 0 <= k < i ==> executions[k].order != id
      {
        if executions[i].order == id {
          return Some(executions[i]);
        }
      }
      return None;
    }

    method CountTradesSince(since: int) returns (n: nat)
      ensures n == D.TradesSince(trades, since) + D.ExecutionsSince(executions, since)
    {
      var virtual := 0;
      for i := 0 to |trades|
        invariant virtual == D.TradesSince(trades[..i], since)
      {
        assert trades[..i + 1][..i] == trades[..i];
        if trades[i].at >= since {
          virtual := virtual + 1;
        }
      }
      assert trades[..|trades|] == trades;
      var executed := 0;
      for i := 0 to |executions|
        invariant executed == D.ExecutionsSince(executions[..i], since)
      {
        assert executions[..i + 1][..i] == executions[..i];
        if executions[i].at >= since {
          executed := executed + 1;
        }
      }
      assert executions[..|executions|] == executions;
      n := virtual + executed;
    }

    method LatestTradeTime(uid: string) returns (t: Option<int>)
      ensures forall posts :: IsLatest(Tables(posts), uid, t)
    {
      t := None;
      for i := 0 to |trades|
        invariant forall k :: 0 <= k < i && trades[k].uid == uid ==> t.Some? && trades[k].at <= t.value
        invariant t.Some? ==> exists k :: 0 <= k < i && trades[k].uid == uid && trades[k].at == t.value
      {
        if trades[i].uid == uid && (t.None? || t.value < trades[i].at) {
          t := Some(trades[i].at);
        }
      }
      ghost var virtual := t;
      for i := 0 to |executions|
        invariant virtual.Some? ==> t.Some? && virtual.value <= t.value
        invariant forall k :: 0 <= k < i && executions[k].uid == uid ==> t.Some? && executions[k].at <= t.value
        invariant t.Some? ==>
                    || t == virtual
                    || exists k :: 0 <= k < i && executions[k].uid == uid && executions[k].at == t.value
      {
        if executions[i].uid == uid && (t.None? || t.value < executions[i].at) {
          t := Some(executions[i].at);
        }
      }
    }

    method HasDuplicateOrder(id: nat) returns (found: bool)
      requires id in orders
      ensures forall posts :: found <==> D.Duplicated(Tables(posts), id)
    {
      var data := orders[id].data;
      var rest := orders.Keys;
      while rest != {}
        invariant rest <= orders.Keys
        invariant forall k :: k in orders && k !in rest && k != id ==>
                    !(orders[k].data.uid == data.uid && orders[k].data.direction == data.direction
                      && orders[k].status == D.PLANNED)
        decreases |rest|
      {
        var other :| other in rest;
        if other != id && orders[other].data.uid == data.uid && orders[other].data.direction == data.direction
           && orders[other].status == D.PLANNED {
          return true;
        }
        rest := rest - {other};
      }
      return false;
    }

    method SetStatus(id: nat, status: D.OrderStatus)
      requires id in orders
      modifies this`orders
      ensures old(Valid()) ==> Valid()
      ensures forall posts :: Tables(posts) == D.WithStatus(old(Tables(posts)), id, status)
    {
      orders := orders[id := orders[id].(status := status)];
    }

    method Simulate(id: nat, at: int) returns (trade: D.VirtualTrade)
      requires id in orders
      modifies this`orders, this`trades
      ensures old(Valid()) ==> Valid()
      ensures forall posts :: Tables(posts) == D.Simulate(old(Tables(posts)), id, at)
      ensures trade in trades && trade.order == id
    {
      hide TradeAmount;
      var data := orders[id].data;
      trade := D.VirtualTrade(id, data.uid, TradeAmount(data), at);
      orders := orders[id := orders[id].(status := D.SIMULATED)];
      trades := trades + [trade];
      assert trades[|trades| - 1] == trade;
    }

    method SaveSandboxExecution(id: nat, at: int) returns (execution: D.ExecutionOrder)
      requires id in orders
      modifies this`orders, this`executions
      ensures old(Valid()) ==> Valid()
      ensures forall posts :: Tables(posts) == D.SaveExecution(old(Tables(posts)), id, at)
      ensures execution in executions && execution.order == id
    {
      execution := D.ExecutionOrder(id, orders[id].data.uid, at);
      orders := orders[id := orders[id].(status := D.SUBMITTED)];
      executions := executions + [execution];
      assert executions[|executions| - 1] == execution;
    }

    /** The loop of `save_orders`: one new row per key not stored yet; `ids` are the items' orders. */
    method StageOrders(account: string, items: seq<PlannedOrderData>)
      returns (staged: map<nat, D.PlannedOrder>, next: nat, ids: seq<nat>)
      requires Valid()
      ensures var stored := Tables([]); stored.(orders := staged, nextId := next) == D.AddOrders(stored, stored, account, items)
      ensures forall id :: id in staged ==> id < next
      ensures |ids| == |items| && forall k :: 0 <= k < |ids| ==> ids[k] in staged && staged[ids[k]].data.key == items[k].key
    {
      staged, next, ids := orders, nextId, [];
      ghost var stored := Tables([]);
      for i := 0 to |items|
        invariant stored.(orders := staged, nextId := next) == D.AddOrders(stored, stored, account, items[..i])
        invariant forall id :: id in staged ==> id < next
        invariant forall id :: id in orders ==> id in staged && staged[id] == orders[id]
        invariant |ids| == i
        invariant forall k :: 0 <= k < i ==> ids[k] in staged && staged[ids[k]].data.key == items[k].key
      {
        assert items[..i + 1][..i] == items[..i];
        var item := items[i];
        if exists id :: id in orders && orders[id].data.key == item.key {
          var id :| id in orders && orders[id].data.key == item.key;
          ids := ids + [id];
        } else {
          staged := staged[next := D.PlannedOrder(item, account, D.InitialStatus(item.tradeMode))];
          ids := ids + [next];
          next := next + 1;
        }
      }
      assert items[..|items|] == items;
    }

    /** `save_orders`: commits the staged rows together, or, if a key is taken twice, not at all. */
    method SaveOrders(account: string, items: seq<PlannedOrderData>) returns (saved: bool, ids: seq<nat>)
      requires Valid()
      modifies this`orders, this`nextId
      ensures Valid()
      ensures forall posts :: Tables(posts) == D.SaveOrders(old(Tables(posts)), account, items)
      ensures forall posts :: saved <==> D.KeysUnique(D.AddOrders(old(Tables(posts)), old(Tables(posts)), account, items))
      ensures saved ==> OrdersOf(ids, items)
    {
      hide D.AddOrders;
      var staged, next;
      staged, next, ids := StageOrders(account, items);
      ghost var stored := Tables([]);
      forall posts ensures D.AddOrders(stored.(posts := posts), stored.(posts := posts), account, items)
                        == stored.(posts := posts, orders := staged, nextId := next) {
        AddOrdersIgnoresPosts(stored, posts, account, items);
      }
      saved := forall x, y :: x in staged && y in staged && staged[x].data.key == staged[y].data.key ==> x == y;
      if saved {
        orders, nextId := staged, next;
      }
    }

    /** The i-th id is that of the stored order with the i-th item's key. */
    ghost predicate OrdersOf(ids: seq<nat>, items: seq<PlannedOrderData>)
      reads this
    {
      |ids| == |items| && forall i :: 0 <= i < |ids| ==> ids[i] in orders && orders[ids[i]].data.key == items[i].key
    }
  }

  lemma {:induction false} AddOrdersIgnoresPosts(d: Desk, posts: seq<D.Post>, account: string, items: seq<PlannedOrderData>)
    ensures D.AddOrders(d.(posts := posts), d.(posts := posts), account, items)
         == D.AddOrders(d, d, account, items).(posts := posts)
  {
    if items != [] {
      AddOrdersIgnoresPosts(d, posts, account, items[..|items| - 1]);
      var key := items[|items| - 1].key;
      assert D.KeyUsed(d.(posts := posts), key) <==> D.KeyUsed(d, key);
    }
  }

  class Service {
    const repository: ExecutionRepository
    const broker: SandboxBroker

    constructor ()
      ensures fresh(repository) && fresh(broker) && repository.Valid()
      ensures State() == D.Desk(map[], [], [], [], 0)
    {
      repository := new ExecutionRepository();
      broker := new SandboxBroker();
    }

    function State(): Desk
      reads repository, broker
    {
      repository.Tables(broker.posts)
    }

    method PlanOrders(plan: int, account: string, allocations: seq<P.ExecutionAllocation>, env: Environment,
                      risk: RiskProfile) returns (r: Result<seq<nat>, Refusal>)
      requires repository.Valid()
      modifies repository
      ensures repository.Valid()
      ensures State() == D.PlanPlaced(old(State()), plan, account, allocations, env, risk)
      ensures r.Success? ==>
                repository.OrdersOf(r.value, P.OrdersFor(plan, allocations, risk.maxSlippage, env.mode))
      ensures r.Success? <==> D.CanPlan(old(State()), plan, account, allocations, env, risk)
      ensures r == Failure(ModeForbidsPlanning) <==> env.mode !in {DRY_RUN, SANDBOX, REAL_MANUAL_CONFIRM}
    {
      hide D.AddOrders, D.KeysUnique, P.LimitPrice;
      if env.mode !in {DRY_RUN, SANDBOX, REAL_MANUAL_CONFIRM} {
        return Failure(ModeForbidsPlanning);
      }
      if env.mode.SANDBOX? && !env.sandboxConfigured {
        return Failure(SandboxNotConfigured);
      }
      var items := P.PlanOrders(plan, allocations, risk.orderType, risk.maxSlippage, env.mode);
      if items.Failure? {
        return Failure(BadPlan(items.error));
      }
      var saved, ids := repository.SaveOrders(account, items.value);
      r := if saved then Success(ids) else Failure(KeyTaken);
    }

    method BuildRiskContext(id: nat, env: Environment, risk: RiskProfile, required: TradeMode) returns (ctx: RiskContext)
      requires id in repository.orders
      ensures ctx == D.Context(State(), id, env, risk, required) && ctx.marketPrice > 0.0
    {
      hide D.CoolingDown, D.Duplicated, IsLatest, D.TradesSince, D.ExecutionsSince, D.Midnight;
      var order := repository.orders[id];
      var latest := repository.LatestTradeTime(order.data.uid);
      var today := repository.CountTradesSince(D.Midnight(env.now));
      var duplicate := repository.HasDuplicateOrder(id);
      ghost var posts := broker.posts;
      assert IsLatest(repository.Tables(posts), order.data.uid, latest);
      LatestDecidesCooldown(State(), order.data.uid, latest, env.now, risk.cooldown);
      assert duplicate <==> D.Duplicated(repository.Tables(posts), id);
      ctx := RiskContext(
        env.killSwitch, env.mode, required, order.account, env.brokerAccount, env.inWatchlist,
        env.inWatchlist && (if order.data.direction.BUY? then env.buyEnabled else env.sellEnabled),
        env.apiTradeAvailable,
        if order.data.orderType.LIMIT? then env.limitAvailable else env.marketAvailable,
        env.priceTime, env.now, risk.maxPriceAge, env.price, risk.maxSlippage,
        env.cashAvailable, env.positionLots, env.positionValue, env.portfolioValue,
        risk.maxPositionWeight, risk.maxTradeAmount,
        today, risk.maxDailyTrades,
        latest.Some? && env.now - latest.value < risk.cooldown,
        duplicate, false);
    }

    method Execute(id: nat, env: Environment, risk: RiskProfile) returns (r: Result<D.VirtualTrade, Refusal>)
      modifies repository
      ensures State() == D.Execute(old(State()), id, env, risk)
      ensures r.Success? ==> r.value in repository.trades && r.value.order == id
      ensures r.Failure? && id in old(repository.orders) ==> !D.HasTrade(repository.trades, id)
      ensures old(repository.Valid()) ==> repository.Valid()
      ensures r == Failure(NotFound) <==> id !in old(repository.orders)
      ensures r.Failure? && r.error.RiskRejected? ==>
                && forall reason :: reason in r.error.reasons <==>
                     Applies(reason, old(repository.orders)[id].data, D.Context(old(State()), id, env, risk, DRY_RUN))
    {
      hide D.Context, Applies, D.Simulate;
      if id !in repository.orders {
        return Failure(NotFound);
      }
      var existing := repository.VirtualTradeOf(id);
      if existing.Some? {
        return Success(existing.value);
      }
      var order := repository.orders[id];
      if order.status != D.PLANNED {
        return Failure(WrongStatus(order.status));
      }
      var ctx := BuildRiskContext(id, env, risk, DRY_RUN);
      var decision := Evaluate(order.data, ctx);
      if !decision.permitted {
        repository.SetStatus(id, D.RISK_REJECTED);
        return Failure(RiskRejected(decision.reasons));
      }
      var trade := repository.Simulate(id, env.stamp);
      return Success(trade);
    }

    /** `crash`: the call ends between the post and the commit, which discards what was not committed. */
    method ExecuteSandbox(id: nat, env: Environment, risk: RiskProfile, crash: bool)
      returns (r: Result<D.ExecutionOrder, Refusal>)
      modifies repository, broker
      ensures State() == D.ExecuteSandbox(old(State()), id, env, risk, crash)
      ensures r.Success? ==> env.sandboxConfigured && r.value in repository.executions && r.value.order == id
      ensures r.Failure? && id in old(repository.orders) && env.sandboxConfigured && !crash ==>
                !D.HasExecution(repository.executions, id)
      ensures old(repository.Valid()) ==> repository.Valid()
      ensures r == Failure(NotFound) <==> env.sandboxConfigured && id !in old(repository.orders)
    {
      hide D.Context, Applies, D.SaveExecution;
      if !env.sandboxConfigured {
        return Failure(SandboxNotConfigured);
      }
      if id !in repository.orders {
        return Failure(NotFound);
      }
      var existing := repository.GetExecutionOrder(id);
      if existing.Some? {
        return Success(existing.value);
      }
      var order := repository.orders[id];
      if order.status != D.PLANNED {
        return Failure(WrongStatus(order.status));
      }
      var ctx := BuildRiskContext(id, env, risk, SANDBOX);
      var decision := Evaluate(order.data, ctx);
      if !decision.permitted {
        repository.SetStatus(id, D.RISK_REJECTED);
        return Failure(RiskRejected(decision.reasons));
      }
      broker.PostSandboxOrder(id, order.data.key);
      if crash {
        return Failure(Interrupted);
      }
      var execution := repository.SaveSandboxExecution(id, env.stamp);
      return Success(execution);
    }

    method GetManualOrder(id: nat, mode: TradeMode) returns (r: Option<Refusal>)
      ensures r.None? <==> D.ManualOrder(State(), id, mode)
      ensures r == Some(NotFound) <==> id !in repository.orders
    {
      if id !in repository.orders {
        return Some(NotFound);
      }
      if repository.orders[id].data.tradeMode != REAL_MANUAL_CONFIRM || mode != REAL_MANUAL_CONFIRM {
        return Some(NotManual);
      }
      return None;
    }

    method Approve(id: nat, mode: TradeMode) returns (r: Option<Refusal>)
      modifies repository
      ensures State() == D.Approve(old(State()), id, mode)
      ensures r.None? ==> id in repository.orders && repository.orders[id].status == D.APPROVED
      ensures r.Some? ==> State() == old(State())
    {
      r := GetManualOrder(id, mode);
      if r.Some? {
        return;
      }
      var status := repository.orders[id].status;
      if status != D.WAITING_CONFIRMATION {
        return Some(WrongStatus(status));
      }
      repository.SetStatus(id, D.APPROVED);
    }

    method Reject(id: nat, mode: TradeMode) returns (r: Option<Refusal>)
      modifies repository
      ensures State() == D.Reject(old(State()), id, mode)
      ensures r.None? ==> id in repository.orders && repository.orders[id].status == D.REJECTED
      ensures r.Some? ==> State() == old(State())
    {
      r := GetManualOrder(id, mode);
      if r.Some? {
        return;
      }
      var status := repository.orders[id].status;
      if status !in {D.WAITING_CONFIRMATION, D.APPROVED} {
        return Some(WrongStatus(status));
      }
      repository.SetStatus(id, D.REJECTED);
    }
  }
}
