/** From a rebalance plan to priced orders: the part of `plan_orders` between the two planners. */
module PlanToOrders {
  import opened Sums
  import opened Portfolio
  import opened RiskManager
  import opened ExecutionPlanner
  import RebalancePlanner
  import RebalanceProperties

  predicate IsActionable(a: RebalancePlanner.PlannedAllocation) {
    !a.action.Hold? && a.lots > 0
  }

  /** An actionable allocation, priced at the market price the plan was made with. */
  function AtPlanPrice(a: RebalancePlanner.PlannedAllocation): ExecutionAllocation {
    ExecutionAllocation(a.asset.uid, if a.action.Buy? then BUY else SELL, a.lots, a.asset.lotSize, a.asset.price)
  }

  function Actionable(allocations: seq<RebalancePlanner.PlannedAllocation>): seq<ExecutionAllocation> {
    if allocations == [] then []
    else
      var a := allocations[|allocations| - 1];
      Actionable(allocations[..|allocations| - 1]) + (if IsActionable(a) then [AtPlanPrice(a)] else [])
  }

  lemma PlanCostIsMarketCost(a: RebalancePlanner.PlannedAllocation)
    requires a.action.Buy?
    ensures MarketCost(AtPlanPrice(a)) == RebalancePlanner.BuyCost(a)
  {
    var price, size, lots := a.asset.price, a.asset.lotSize as real, a.lots as real;
    assert price * (size * lots) == lots * (price * size);
  }

  lemma SaleHasNoCost(a: RebalancePlanner.PlannedAllocation)
    requires !a.action.Buy?
    ensures RebalancePlanner.BuyCost(a) == 0.0 == MarketCost(AtPlanPrice(a))
  {
    assert a.asset.price * 0.0 == 0.0;
  }

  lemma {:induction false} ActionableCost(allocations: seq<RebalancePlanner.PlannedAllocation>)
    requires forall a :: a in allocations ==> a.asset.price > 0.0 && a.asset.lotSize > 0
    requires forall a :: a in allocations && a.action.Buy? ==> a.lots > 0
    ensures Sum(Actionable(allocations), MarketCostOf()) == Sum(allocations, RebalancePlanner.BuyCostOf())
    ensures AllTradable(Actionable(allocations))
  {
    hide MarketCost, RebalancePlanner.BuyCost;
    if allocations != [] {
      var init, a := allocations[..|allocations| - 1], allocations[|allocations| - 1];
      assert a in allocations;
      ActionableCost(init);
      if IsActionable(a) {
        SumSnoc(Actionable(init), AtPlanPrice(a), MarketCostOf());
      } else {
        assert Actionable(allocations) == Actionable(init);
      }
      if a.action.Buy? {
        PlanCostIsMarketCost(a);
      } else {
        SaleHasNoCost(a);
      }
    }
  }

  /**
   * End to end: if the prices have not moved since planning, the limit orders for a rebalance plan cost
   * at most the spent part of the cash above the reserve, plus slippage, plus one cent per unit bought.
   */
  lemma OrdersWithinBudget(opt: OptimizationResult, c: Constraints, value: real, cash: real,
                           plan: int, slippage: real, mode: TradeMode)
    requires value > 0.0 && RebalancePlanner.ValidTargets(opt.targets) && 0.0 <= slippage
    ensures var r := RebalancePlanner.Planned(opt, c, value, cash);
            var orders := OrdersFor(plan, Actionable(r.allocations), slippage, mode);
            Sum(orders, LimitCostOf())
            <= (1.0 + slippage) * (Max(0.0, cash - value * opt.cashWeight) - r.unallocatedCash)
               + TICK * Sum(Actionable(r.allocations), UnitsOf())
  {
    hide *;
    var r := RebalancePlanner.Planned(opt, c, value, cash);
    RebalanceProperties.CashConserved(opt, c, value, cash);
    PlanTradable(opt, c, value, cash);
    ActionableCost(r.allocations);
    OverrunBounded(plan, Actionable(r.allocations), slippage, mode);
  }

  lemma PlanTradable(opt: OptimizationResult, c: Constraints, value: real, cash: real)
    requires value > 0.0 && RebalancePlanner.ValidTargets(opt.targets)
    ensures var r := RebalancePlanner.Planned(opt, c, value, cash);
            && (forall a :: a in r.allocations ==> a.asset.price > 0.0 && a.asset.lotSize > 0)
            && (forall a :: a in r.allocations && a.action.Buy? ==> a.lots > 0)
  {
    var r := RebalancePlanner.Planned(opt, c, value, cash);
    hide RebalancePlanner.Planned, RebalancePlanner.BuyEligible, RebalancePlanner.SellEligible;
    forall a | a in r.allocations ensures a.asset.price > 0.0 && a.asset.lotSize > 0 && (a.action.Buy? ==> a.lots > 0) {
      var i :| 0 <= i < |r.allocations| && r.allocations[i] == a;
      RebalanceProperties.EveryAllocationSound(opt, c, value, cash, i);
      RebalanceProperties.AllocationOfTarget(opt, c, value, cash, i);
    }
  }
}
