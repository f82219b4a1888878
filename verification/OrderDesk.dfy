/**
 * The stored state of order execution and the effect of every call of the execution service on it.
 * Times are microseconds since the epoch, UTC.
 */
module OrderDesk {
  import opened Wrappers
  import opened Sums
  import opened RiskManager
  import opened ExecutionPlanner

  datatype OrderStatus =
    | PLANNED
    | RISK_REJECTED
    | SIMULATED
    | SUBMITTED
    | WAITING_CONFIRMATION
    | APPROVED
    | REJECTED

  /** `lot_size` and the instrument come with `data`; neither ever changes once the order is saved. */
  datatype PlannedOrder = PlannedOrder(data: PlannedOrderData, account: string, status: OrderStatus)

  /** Rows of `virtual_trades` and `execution_orders`; `at` is the time stamped by the database. */
  datatype VirtualTrade = VirtualTrade(order: nat, uid: string, total: real, at: int)

  datatype ExecutionOrder = ExecutionOrder(order: nat, uid: string, at: int)

  /** One request that reached the sandbox broker, with the `order_id` it carried. */
  datatype Post = Post(order: nat, orderId: IdempotencyKey)

  datatype Desk = Desk(
    orders: map<nat, PlannedOrder>,
    trades: seq<VirtualTrade>,
    executions: seq<ExecutionOrder>,
    posts: seq<Post>,
    nextId: nat)

  datatype RiskProfile = RiskProfile(
    maxPositionWeight: real,
    maxTradeAmount: real,
    maxSlippage: real,
    maxDailyTrades: int,
    cooldown: int,
    maxPriceAge: int,
    orderType: OrderType)

  type Price = x: real | x > 0.0 witness 1.0

  /** What one call observes: system settings, watchlist, broker answers, the service clock and the database clock. */
  datatype Environment = Environment(
    killSwitch: bool,
    mode: TradeMode,
    sandboxConfigured: bool,
    inWatchlist: bool,
    buyEnabled: bool,
    sellEnabled: bool,
    apiTradeAvailable: bool,
    limitAvailable: bool,
    marketAvailable: bool,
    brokerAccount: string,
    price: Price,
    priceTime: int,
    positionLots: int,
    positionValue: real,
    cashAvailable: real,
    portfolioValue: real,
    now: int,
    stamp: int)

  const DAY := 86_400_000_000

  function Day(t: int): int {
    t / DAY
  }

  function Midnight(t: int): int {
    Day(t) * DAY
  }

  function InitialStatus(mode: TradeMode): OrderStatus {
    if mode.REAL_MANUAL_CONFIRM? then WAITING_CONFIRMATION else PLANNED
  }

  // ------------------------------------------------------------- queries

  predicate HasTrade(trades: seq<VirtualTrade>, id: nat) {
    exists i :: 0 <= i < |trades| && trades[i].order == id
  }

  predicate HasExecution(executions: seq<ExecutionOrder>, id: nat) {
    exists i :: 0 <= i < |executions| && executions[i].order == id
  }

  function TradesSince(trades: seq<VirtualTrade>, since: int): nat {
    if trades == [] then 0
    else TradesSince(trades[..|trades| - 1], since) + if trades[|trades| - 1].at >= since then 1 else 0
  }

  function ExecutionsSince(executions: seq<ExecutionOrder>, since: int): nat {
    if executions == [] then 0
    else ExecutionsSince(executions[..|executions| - 1], since)
         + if executions[|executions| - 1].at >= since then 1 else 0
  }

  /** `count_trades_since` */
  function CountSince(d: Desk, since: int): nat {
    TradesSince(d.trades, since) + ExecutionsSince(d.executions, since)
  }

  /** `latest_trade_time is not None and now - latest_trade_time < cooldown` */
  ghost predicate CoolingDown(d: Desk, uid: string, now: int, cooldown: int) {
    || (exists i :: 0 <= i < |d.trades| && d.trades[i].uid == uid && now - d.trades[i].at < cooldown)
    || (exists i :: 0 <= i < |d.executions| && d.executions[i].uid == uid && now - d.executions[i].at < cooldown)
  }

  /** `has_duplicate_order` */
  ghost predicate Duplicated(d: Desk, id: nat)
    requires id in d.orders
  {
    exists other :: other in d.orders && other != id
                    && d.orders[other].data.uid == d.orders[id].data.uid
                    && d.orders[other].data.direction == d.orders[id].data.direction
                    && d.orders[other].status == PLANNED
  }

  ghost function Context(d: Desk, id: nat, env: Environment, risk: RiskProfile, required: TradeMode): RiskContext
    requires id in d.orders
  {
    var order := d.orders[id];
    RiskContext(
      env.killSwitch, env.mode, required, order.account, env.brokerAccount, env.inWatchlist,
      env.inWatchlist && (if order.data.direction.BUY? then env.buyEnabled else env.sellEnabled),
      env.apiTradeAvailable,
      if order.data.orderType.LIMIT? then env.limitAvailable else env.marketAvailable,
      env.priceTime, env.now, risk.maxPriceAge, env.price, risk.maxSlippage,
      env.cashAvailable, env.positionLots, env.positionValue, env.portfolioValue,
      risk.maxPositionWeight, risk.maxTradeAmount,
      CountSince(d, Midnight(env.now)), risk.maxDailyTrades,
      CoolingDown(d, order.data.uid, env.now, risk.cooldown),
      Duplicated(d, id), false)
  }

  ghost predicate Permitted(d: Desk, id: nat, env: Environment, risk: RiskProfile, required: TradeMode)
    requires id in d.orders
  {
    forall r :: !Applies(r, d.orders[id].data, Context(d, id, env, risk, required))
  }

  // ------------------------------------------------------------- effects

  function WithStatus(d: Desk, id: nat, status: OrderStatus): Desk
    requires id in d.orders
  {
    d.(orders := d.orders[id := d.orders[id].(status := status)])
  }

  /** `simulate` */
  function Simulate(d: Desk, id: nat, at: int): Desk
    requires id in d.orders
  {
    var data := d.orders[id].data;
    WithStatus(d, id, SIMULATED).(trades := d.trades + [VirtualTrade(id, data.uid, TradeAmount(data), at)])
  }

  /** `post_sandbox_order` */
  function PostOrder(d: Desk, id: nat): Desk
    requires id in d.orders
  {
    d.(posts := d.posts + [Post(id, d.orders[id].data.key)])
  }

  /** `save_sandbox_execution` */
  function SaveExecution(d: Desk, id: nat, at: int): Desk
    requires id in d.orders
  {
    WithStatus(d, id, SUBMITTED).(executions := d.executions + [ExecutionOrder(id, d.orders[id].data.uid, at)])
  }

  ghost function Execute(d: Desk, id: nat, env: Environment, risk: RiskProfile): Desk {
    if id !in d.orders || HasTrade(d.trades, id) || d.orders[id].status != PLANNED then d
    else if Permitted(d, id, env, risk, DRY_RUN) then Simulate(d, id, env.stamp)
    else WithStatus(d, id, RISK_REJECTED)
  }

  /** `crash`: the process dies, or the broker's answer is lost, between the post and the commit. */
  ghost function ExecuteSandbox(d: Desk, id: nat, env: Environment, risk: RiskProfile, crash: bool): Desk {
    if !env.sandboxConfigured || id !in d.orders || HasExecution(d.executions, id) || d.orders[id].status != PLANNED then d
    else if Permitted(d, id, env, risk, SANDBOX) then
      if crash then PostOrder(d, id) else SaveExecution(PostOrder(d, id), id, env.stamp)
    else WithStatus(d, id, RISK_REJECTED)
  }

  predicate ManualOrder(d: Desk, id: nat, mode: TradeMode) {
    id in d.orders && d.orders[id].data.tradeMode.REAL_MANUAL_CONFIRM? && mode.REAL_MANUAL_CONFIRM?
  }

  function Approve(d: Desk, id: nat, mode: TradeMode): Desk {
    if ManualOrder(d, id, mode) && d.orders[id].status == WAITING_CONFIRMATION then WithStatus(d, id, APPROVED) else d
  }

  function Reject(d: Desk, id: nat, mode: TradeMode): Desk {
    if ManualOrder(d, id, mode) && d.orders[id].status in {WAITING_CONFIRMATION, APPROVED} then WithStatus(d, id, REJECTED)
    else d
  }

  ghost predicate KeyUsed(d: Desk, key: IdempotencyKey) {
    exists id :: id in d.orders && d.orders[id].data.key == key
  }

  /** `save_orders` up to its commit: add the items whose key was not stored when the call began. */
  ghost function AddOrders(d: Desk, stored: Desk, account: string, items: seq<PlannedOrderData>): Desk {
    if items == [] then d
    else
      var before := AddOrders(d, stored, account, items[..|items| - 1]);
      var item := items[|items| - 1];
      if KeyUsed(stored, item.key) then before
      else before.(orders := before.orders[before.nextId := PlannedOrder(item, account, InitialStatus(item.tradeMode))],
                   nextId := before.nextId + 1)
  }

  ghost predicate KeysUnique(d: Desk) {
    forall x, y :: x in d.orders && y in d.orders && d.orders[x].data.key == d.orders[y].data.key ==> x == y
  }

  /** The unique constraint on the key decides whether the commit succeeds. */
  ghost function SaveOrders(d: Desk, account: string, items: seq<PlannedOrderData>): Desk {
    var added := AddOrders(d, d, account, items);
    if KeysUnique(added) then added else d
  }

  predicate ModeCanPlan(env: Environment) {
    || env.mode.DRY_RUN?
    || (env.mode.SANDBOX? && env.sandboxConfigured)
    || env.mode.REAL_MANUAL_CONFIRM?
  }

  /** `plan_orders` raises no error, up to and including its commit. */
  ghost predicate CanPlan(d: Desk, plan: int, account: string, allocations: seq<ExecutionAllocation>,
                          env: Environment, risk: RiskProfile) {
    && ModeCanPlan(env) && PlanError(allocations, risk.orderType, risk.maxSlippage).None?
    && KeysUnique(AddOrders(d, d, account, OrdersFor(plan, allocations, risk.maxSlippage, env.mode)))
  }

  ghost function PlanPlaced(d: Desk, plan: int, account: string, allocations: seq<ExecutionAllocation>,
                            env: Environment, risk: RiskProfile): Desk {
    if !ModeCanPlan(env) || PlanError(allocations, risk.orderType, risk.maxSlippage).Some? then d
    else SaveOrders(d, account, OrdersFor(plan, allocations, risk.maxSlippage, env.mode))
  }
}
