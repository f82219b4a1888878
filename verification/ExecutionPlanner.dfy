/** Limit pricing: every allocation becomes a limit order priced outward to the next cent. */
module ExecutionPlanner {
  import opened Wrappers
  import opened Sums
  import opened RiskManager

  datatype ExecutionAllocation = ExecutionAllocation(
    uid: string,
    direction: OrderDirection,
    lots: int,
    lotSize: int,
    marketPrice: real)

  datatype PlanningError = MarketOrdersDisabled | BadSlippage | BadAllocation

  /** The number of whole cents in `x`, rounded down (`ROUND_FLOOR`) or up (`ROUND_CEILING`). */
  function FloorCents(x: real): int {
    (x * 100.0).Floor
  }

  function CeilingCents(x: real): int {
    -(-x * 100.0).Floor
  }

  function Cents(n: int): real {
    n as real / 100.0
  }

  function LimitPrice(direction: OrderDirection, market: real, slippage: real): real {
    match direction
    case BUY => Cents(CeilingCents(market * (1.0 + slippage)))
    case SELL => Cents(FloorCents(market * (1.0 - slippage)))
  }

  predicate Tradable(a: ExecutionAllocation) {
    a.lots > 0 && a.lotSize > 0 && a.marketPrice > 0.0
  }

  function OrderFor(plan: int, a: ExecutionAllocation, slippage: real, mode: TradeMode): PlannedOrderData {
    PlannedOrderData(a.uid, a.direction, a.lots, a.lotSize, LIMIT,
                     LimitPrice(a.direction, a.marketPrice, slippage), mode,
                     IdempotencyKey(plan, a.uid, a.direction))
  }

  function OrdersFor(plan: int, allocations: seq<ExecutionAllocation>, slippage: real, mode: TradeMode)
    : (orders: seq<PlannedOrderData>)
    ensures |orders| == |allocations|
    ensures forall i :: 0 <= i < |orders| ==> orders[i] == OrderFor(plan, allocations[i], slippage, mode)
  {
    if allocations == [] then []
    else OrdersFor(plan, allocations[..|allocations| - 1], slippage, mode)
         + [OrderFor(plan, allocations[|allocations| - 1], slippage, mode)]
  }

  ghost predicate AllTradable(allocations: seq<ExecutionAllocation>) {
    forall a :: a in allocations ==> Tradable(a)
  }

  function PlanError(allocations: seq<ExecutionAllocation>, orderType: OrderType, slippage: real): Option<PlanningError> {
    if !orderType.LIMIT? then Some(MarketOrdersDisabled)
    else if !(0.0 <= slippage <= 1.0) then Some(BadSlippage)
    else if exists a :: a in allocations && !Tradable(a) then Some(BadAllocation)
    else None
  }

  /** `ExecutionPlanner.plan` */
  method PlanOrders(plan: int, allocations: seq<ExecutionAllocation>, orderType: OrderType, slippage: real, mode: TradeMode)
    returns (r: Result<seq<PlannedOrderData>, PlanningError>)
    ensures r.Failure? <==> PlanError(allocations, orderType, slippage).Some?
    ensures r.Failure? ==> PlanError(allocations, orderType, slippage) == Some(r.error)
    ensures r.Success? ==> r.value == OrdersFor(plan, allocations, slippage, mode)
  {
    hide LimitPrice;
    if !orderType.LIMIT? {
      return Failure(MarketOrdersDisabled);
    }
    if !(0.0 <= slippage <= 1.0) {
      return Failure(BadSlippage);
    }
    var orders: seq<PlannedOrderData> := [];
    for i := 0 to |allocations|
      invariant AllTradable(allocations[..i])
      invariant orders == OrdersFor(plan, allocations[..i], slippage, mode)
    {
      var a := allocations[i];
      if a.lots <= 0 || a.lotSize <= 0 || a.marketPrice <= 0.0 {
        assert a in allocations && !Tradable(a);
        return Failure(BadAllocation);
      }
      assert allocations[..i + 1] == allocations[..i] + [a];
      var limitPrice := LimitPrice(a.direction, a.marketPrice, slippage);
      orders := orders + [PlannedOrderData(a.uid, a.direction, a.lots, a.lotSize, orderType, limitPrice, mode,
                                           IdempotencyKey(plan, a.uid, a.direction))];
    }
    assert allocations[..|allocations|] == allocations;
    r := Success(orders);
  }

  // ------------------------------------------------------------- rounding

  lemma FloorCentsBounds(x: real)
    ensures x - TICK < Cents(FloorCents(x)) <= x
  {
    var n := FloorCents(x);
    assert n as real <= x * 100.0 < n as real + 1.0;
  }

  lemma CeilingCentsBounds(x: real)
    ensures x <= Cents(CeilingCents(x)) < x + TICK
  {
    FloorCentsBounds(-x);
  }

  /** A purchase never bids below the slippage-adjusted price, a sale never asks above it: less than a tick away. */
  lemma LimitPriceOutward(market: real, slippage: real)
    ensures market * (1.0 + slippage) <= LimitPrice(BUY, market, slippage) < market * (1.0 + slippage) + TICK
    ensures market * (1.0 - slippage) - TICK < LimitPrice(SELL, market, slippage) <= market * (1.0 - slippage)
  {
    CeilingCentsBounds(market * (1.0 + slippage));
    FloorCentsBounds(market * (1.0 - slippage));
  }

  /** At the price it was planned for, every planned order passes the risk gate's slippage test. */
  lemma PlannedPricePassesGate(direction: OrderDirection, market: real, slippage: real)
    requires market > 0.0 && 0.0 <= slippage
    ensures !SlippageRejected(LimitPrice(direction, market, slippage), market, slippage)
  {
    hide LimitPrice, SlippageRejected;
    LimitPriceOutward(market, slippage);
    SlippageBand(LimitPrice(direction, market, slippage), market, slippage);
    BandWidth(market, slippage);
  }

  lemma BandWidth(market: real, slippage: real)
    requires market > 0.0 && 0.0 <= slippage
    ensures market * (1.0 - slippage) <= market <= market * (1.0 + slippage)
  {
    assert market * slippage >= 0.0;
  }

  /** The band and the price in it, with the products named. */
  lemma MoveWithinBand(low: real, high: real, limit: real, rejected: bool,
                       buyBefore: real, sellBefore: real, direction: OrderDirection)
    requires !rejected <==> low - TICK <= limit <= high + TICK
    requires direction.BUY? ==> buyBefore <= limit < buyBefore + TICK
    requires direction.SELL? ==> sellBefore - TICK < limit <= sellBefore
    ensures direction.BUY? && buyBefore <= high && low <= buyBefore + TICK ==> !rejected
    ensures direction.BUY? && buyBefore > high + TICK ==> rejected
    ensures direction.SELL? && low <= sellBefore <= high + TICK ==> !rejected
    ensures direction.SELL? && sellBefore + TICK < low ==> rejected
  {
  }

  /**
   * After the market has moved from `before` to `now`, a planned purchase still passes if the price did not fall
   * and the two bands still meet, but is refused once it fell by more than a cent over `1 + slippage`; a planned
   * sale the other way round. The gate refuses orders that the market moved in favour of.
   */
  lemma GateAfterMove(before: real, now: real, slippage: real)
    requires before > 0.0 && now > 0.0 && 0.0 <= slippage <= 1.0
    ensures before <= now && now * (1.0 - slippage) <= before * (1.0 + slippage) + TICK ==>
              !SlippageRejected(LimitPrice(BUY, before, slippage), now, slippage)
    ensures (before - now) * (1.0 + slippage) > TICK ==> SlippageRejected(LimitPrice(BUY, before, slippage), now, slippage)
    ensures now <= before && before * (1.0 - slippage) <= now * (1.0 + slippage) + TICK ==>
              !SlippageRejected(LimitPrice(SELL, before, slippage), now, slippage)
    ensures (now - before) * (1.0 - slippage) > TICK ==> SlippageRejected(LimitPrice(SELL, before, slippage), now, slippage)
  {
    hide LimitPrice, SlippageRejected;
    var low, high := now * (1.0 - slippage), now * (1.0 + slippage);
    var buy, sell := LimitPrice(BUY, before, slippage), LimitPrice(SELL, before, slippage);
    SlippageBand(buy, now, slippage);
    SlippageBand(sell, now, slippage);
    LimitPriceOutward(before, slippage);
    var buyBefore, sellBefore := before * (1.0 + slippage), before * (1.0 - slippage);
    MoveWithinBand(low, high, buy, SlippageRejected(buy, now, slippage), buyBefore, sellBefore, BUY);
    MoveWithinBand(low, high, sell, SlippageRejected(sell, now, slippage), buyBefore, sellBefore, SELL);
    Compare(before, now, slippage);
    Compare(now, before, slippage);
  }

  lemma Compare(x: real, y: real, slippage: real)
    requires 0.0 <= slippage <= 1.0
    ensures x <= y ==> x * (1.0 + slippage) <= y * (1.0 + slippage) && x * (1.0 - slippage) <= y * (1.0 - slippage)
    ensures (x - y) * (1.0 + slippage) == x * (1.0 + slippage) - y * (1.0 + slippage)
    ensures (x - y) * (1.0 - slippage) == x * (1.0 - slippage) - y * (1.0 - slippage)
  {
    if x <= y {
      var up, down := 1.0 + slippage, 1.0 - slippage;
      NonNegativeProduct(y - x, up);
      NonNegativeProduct(y - x, down);
    }
  }

  lemma NonNegativeProduct(x: real, k: real)
    requires x >= 0.0 && k >= 0.0
    ensures x * k >= 0.0
  {
  }

  /** A sale can be priced at zero: its limit is positive exactly when a cent is left after slippage. */
  lemma SellPricePositive(market: real, slippage: real)
    ensures LimitPrice(SELL, market, slippage) > 0.0 <==> market * (1.0 - slippage) >= TICK
  {
    var x := market * (1.0 - slippage);
    FloorCentsBounds(x);
    if x >= TICK {
      assert x * 100.0 >= 1.0;
    }
  }

  /** The counterexample behind it: half a percent off a price of one cent asks for nothing. */
  lemma SellPriceCanBeZero()
    ensures LimitPrice(SELL, 0.01, 0.005) == 0.0
  {
    assert 0.01 * (1.0 - 0.005) * 100.0 == 0.995;
  }

  // ------------------------------------------------------------- keys

  /** A list that names each instrument side at most once; it may both buy and sell an instrument. */
  ghost predicate DistinctSides(allocations: seq<ExecutionAllocation>) {
    forall i, j :: 0 <= i < j < |allocations| ==>
      allocations[i].uid != allocations[j].uid || allocations[i].direction != allocations[j].direction
  }

  ghost predicate DistinctKeys(orders: seq<PlannedOrderData>) {
    forall i, j :: 0 <= i < j < |orders| ==> orders[i].key != orders[j].key
  }

  /** One plan reuses an idempotency key exactly if it names an instrument side twice. */
  lemma KeysDistinct(plan: int, allocations: seq<ExecutionAllocation>, slippage: real, mode: TradeMode)
    ensures DistinctKeys(OrdersFor(plan, allocations, slippage, mode)) <==> DistinctSides(allocations)
  {
    hide LimitPrice;
    var orders := OrdersFor(plan, allocations, slippage, mode);
    if DistinctKeys(orders) {
      forall i, j | 0 <= i < j < |allocations|
        ensures allocations[i].uid != allocations[j].uid || allocations[i].direction != allocations[j].direction
      {
        assert orders[i].key != orders[j].key;
      }
    }
    if DistinctSides(allocations) {
      forall i, j | 0 <= i < j < |orders| ensures orders[i].key != orders[j].key {
        assert allocations[i].uid != allocations[j].uid || allocations[i].direction != allocations[j].direction;
      }
    }
  }

  // ------------------------------------------------------------- totals

  function Units(a: ExecutionAllocation): real {
    if a.direction.BUY? then a.lotSize as real * a.lots as real else 0.0
  }

  function MarketCost(a: ExecutionAllocation): real {
    a.marketPrice * Units(a)
  }

  function LimitCost(o: PlannedOrderData): real {
    if o.direction.BUY? then TradeAmount(o) else 0.0
  }

  function UnitsOf(): ExecutionAllocation -> real {
    (a: ExecutionAllocation) => Units(a)
  }

  function MarketCostOf(): ExecutionAllocation -> real {
    (a: ExecutionAllocation) => MarketCost(a)
  }

  function LimitCostOf(): PlannedOrderData -> real {
    (o: PlannedOrderData) => LimitCost(o)
  }

  lemma OrderCost(plan: int, a: ExecutionAllocation, slippage: real, mode: TradeMode)
    requires Tradable(a)
    ensures LimitCost(OrderFor(plan, a, slippage, mode)) <= (1.0 + slippage) * MarketCost(a) + TICK * Units(a)
    ensures (1.0 + slippage) * MarketCost(a) <= LimitCost(OrderFor(plan, a, slippage, mode))
  {
    if a.direction.BUY? {
      hide LimitPrice;
      LimitPriceOutward(a.marketPrice, slippage);
      var limit := LimitPrice(BUY, a.marketPrice, slippage);
      CostOfUnits(limit, a.marketPrice, 1.0 + slippage, a.lotSize as real, a.lots as real);
    }
  }

  lemma PerUnit(limit: real, price: real, units: real)
    requires units >= 0.0 && price <= limit <= price + TICK
    ensures price * units <= limit * units <= price * units + TICK * units
  {
  }

  lemma Associate(x: real, y: real, z: real)
    ensures x * y * z == x * (y * z)
  {
  }

  lemma CostOfUnits(limit: real, market: real, factor: real, lotSize: real, lots: real)
    requires lotSize >= 0.0 && lots >= 0.0
    requires market * factor <= limit <= market * factor + TICK
    ensures var units := lotSize * lots;
            factor * (market * units) <= limit * lotSize * lots <= factor * (market * units) + TICK * units
  {
    var units := lotSize * lots;
    PerUnit(limit, market * factor, units);
    Associate(limit, lotSize, lots);
    Associate(factor, market, units);
    assert market * factor == factor * market;
  }

  function CostBoundOf(slippage: real): ExecutionAllocation -> real {
    (a: ExecutionAllocation) => (1.0 + slippage) * MarketCost(a) + TICK * Units(a)
  }

  lemma {:induction false} OrdersWithinBound(plan: int, allocations: seq<ExecutionAllocation>, slippage: real, mode: TradeMode)
    requires AllTradable(allocations)
    ensures Sum(OrdersFor(plan, allocations, slippage, mode), LimitCostOf()) <= Sum(allocations, CostBoundOf(slippage))
  {
    hide OrderFor, Tradable, LimitCost, MarketCost, Units;
    if allocations != [] {
      var n := |allocations| - 1;
      assert allocations[n] in allocations;
      OrdersWithinBound(plan, allocations[..n], slippage, mode);
      OrderCost(plan, allocations[n], slippage, mode);
      SumSnoc(OrdersFor(plan, allocations[..n], slippage, mode), OrderFor(plan, allocations[n], slippage, mode), LimitCostOf());
    }
  }

  /** The overrun of a whole plan: at most the slippage on its cost plus one cent per unit bought. */
  lemma OverrunBounded(plan: int, allocations: seq<ExecutionAllocation>, slippage: real, mode: TradeMode)
    requires AllTradable(allocations)
    ensures Sum(OrdersFor(plan, allocations, slippage, mode), LimitCostOf())
         <= (1.0 + slippage) * Sum(allocations, MarketCostOf()) + TICK * Sum(allocations, UnitsOf())
  {
    hide MarketCost, Units, OrdersFor, Sum;
    var scaled := (a: ExecutionAllocation) => (1.0 + slippage) * MarketCost(a);
    var ticks := (a: ExecutionAllocation) => TICK * Units(a);
    OrdersWithinBound(plan, allocations, slippage, mode);
    SumScale(allocations, MarketCostOf(), 1.0 + slippage, scaled);
    SumScale(allocations, UnitsOf(), TICK, ticks);
    SumPlus(allocations, scaled, ticks, CostBoundOf(slippage));
  }
}
