/** The lot-aware rebalance planner: a greedy pass over the targets in priority order. */
module RebalancePlanner {
  import opened Wrappers
  import opened Sums
  import opened Portfolio
  import opened StableSort

  datatype Action = Buy | Sell | Hold

  datatype Reason =
    | WithinThreshold
    | CooldownActive
    | Underweight
    | InsufficientCash
    | Overweight
    | BelowMinimumLot

  datatype PlannedAllocation = PlannedAllocation(
    asset: AssetInput,
    targetWeight: real,
    currentWeight: real,
    targetAmount: real,
    deltaAmount: real,
    action: Action,
    lots: int,
    reason: Reason)

  datatype RebalanceResult = RebalanceResult(
    allocations: seq<PlannedAllocation>,
    targetCashWeight: real,
    unallocatedCash: real)

  /** What the planner relies on; the optimizer's validation and its result provide it. */
  ghost predicate ValidTarget(t: TargetWeight) {
    ValidAsset(t.asset) && t.weight >= 0.0
  }

  ghost predicate ValidTargets(targets: seq<TargetWeight>) {
    forall t :: t in targets ==> ValidTarget(t)
  }

  ghost predicate DistinctTargets(targets: seq<TargetWeight>) {
    forall i, j :: 0 <= i < j < |targets| ==> targets[i].asset.uid != targets[j].asset.uid
  }

  /**
   * `int((amount / lot_cost).to_integral_value(ROUND_FLOOR))`; the value at a zero cost, which
   * `Plan` never asks for, only makes the function total.
   */
  function WholeLots(amount: real, lotCost: real): int {
    if lotCost == 0.0 then 0 else (amount / lotCost).Floor
  }

  lemma Fraction(r: real, k: real)
    requires k > 0.0 && 0.0 <= r < 1.0
    ensures 0.0 <= r * k < k
  {
  }

  lemma Scaled(x: real, y: real, k: real)
    requires k > 0.0
    ensures x <= y ==> x * k <= y * k
    ensures x < y ==> x * k < y * k
  {
  }

  lemma Remainder(q: real, n: real, k: real, amount: real)
    requires k > 0.0 && n <= q < n + 1.0 && q * k == amount
    ensures 0.0 <= amount - n * k < k
  {
    var r := q - n;
    Fraction(r, k);
    var p := r * k;
    assert p < k;
    assert p == amount - n * k;
    assert amount - n * k < k;
  }

  lemma QuotientSign(q: real, k: real, amount: real)
    requires k > 0.0 && q * k == amount
    ensures amount >= 0.0 ==> q >= 0.0
    ensures amount < k ==> q < 1.0
  {
    Scaled(q, 0.0, k);
    Scaled(1.0, q, k);
  }

  lemma WholeLotsBounds(amount: real, lotCost: real)
    requires lotCost > 0.0
    ensures 0.0 <= amount - WholeLots(amount, lotCost) as real * lotCost < lotCost
    ensures amount >= 0.0 ==> WholeLots(amount, lotCost) >= 0
    ensures 0.0 <= amount < lotCost ==> WholeLots(amount, lotCost) == 0
  {
    var q := amount / lotCost;
    assert q * lotCost == amount;
    Remainder(q, q.Floor as real, lotCost, amount);
    QuotientSign(q, lotCost, amount);
  }

  lemma LotCostPositive(a: AssetInput)
    requires ValidAsset(a)
    ensures LotCost(a) > 0.0
  {
  }

  function Delta(t: TargetWeight, value: real): real {
    t.weight * value - t.asset.currentValue
  }

  predicate Significant(t: TargetWeight, c: Constraints, value: real)
    requires value > 0.0
  {
    Abs(Delta(t, value)) / value >= c.rebalanceThreshold
  }

  predicate BuyEligible(t: TargetWeight, c: Constraints, value: real)
    requires value > 0.0
  {
    !t.asset.cooldownActive && Significant(t, c, value) && Delta(t, value) > 0.0 && t.asset.buyEnabled
  }

  predicate SellEligible(t: TargetWeight, c: Constraints, value: real)
    requires value > 0.0
  {
    !t.asset.cooldownActive && Significant(t, c, value) && Delta(t, value) < 0.0 && t.asset.sellEnabled
  }

  /** The decision for one target when `spendable` cash is left. */
  function Decide(t: TargetWeight, c: Constraints, value: real, spendable: real): (Action, int, Reason)
    requires value > 0.0
  {
    if t.asset.cooldownActive then (Hold, 0, CooldownActive)
    else if BuyEligible(t, c, value) then
      var lots := WholeLots(Min(Delta(t, value), spendable), LotCost(t.asset));
      if lots > 0 then (Buy, lots, Underweight) else (Hold, lots, InsufficientCash)
    else if SellEligible(t, c, value) then
      var whole := WholeLots(Abs(Delta(t, value)), LotCost(t.asset));
      var lots := if t.asset.currentLots < whole then t.asset.currentLots else whole;
      if lots > 0 then (Sell, lots, Overweight) else (Hold, lots, BelowMinimumLot)
    else (Hold, 0, WithinThreshold)
  }

  function Allocate(t: TargetWeight, c: Constraints, value: real, spendable: real): PlannedAllocation
    requires value > 0.0
  {
    var (action, lots, reason) := Decide(t, c, value, spendable);
    PlannedAllocation(t.asset, t.weight, t.asset.currentValue / value, t.weight * value,
                      Delta(t, value), action, lots, reason)
  }

  function Cost(a: PlannedAllocation): real {
    a.lots as real * LotCost(a.asset)
  }

  function BuyCost(a: PlannedAllocation): real {
    if a.action.Buy? then Cost(a) else 0.0
  }

  function BuyCostOf(): PlannedAllocation -> real {
    (a: PlannedAllocation) => BuyCost(a)
  }

  /** The planner's fold: allocations for a ranked list, and the cash they leave. */
  function Fold(ranked: seq<TargetWeight>, c: Constraints, value: real, spendable: real)
    : (r: (seq<PlannedAllocation>, real))
    requires value > 0.0
    ensures |r.0| == |ranked|
  {
    if ranked == [] then ([], spendable)
    else
      var before := Fold(ranked[..|ranked| - 1], c, value, spendable);
      var a := Allocate(ranked[|ranked| - 1], c, value, before.1);
      (before.0 + [a], before.1 - BuyCost(a))
  }

  function Spendable(cashWeight: real, value: real, cash: real): real {
    Max(0.0, cash - value * cashWeight)
  }

  /** The plan as a function of its inputs. */
  function Planned(opt: OptimizationResult, c: Constraints, value: real, cash: real): RebalanceResult
    requires value > 0.0
  {
    var fold := Fold(Sorted(opt.targets), c, value, Spendable(opt.cashWeight, value, cash));
    RebalanceResult(fold.0, opt.cashWeight, fold.1)
  }

  /** The loop body: decide on one target and take the cost of a purchase out of the cash. */
  method AllocateOne(target: TargetWeight, c: Constraints, value: real, spendable: real)
    returns (allocation: PlannedAllocation, left: real)
    requires value > 0.0 && target.asset.price > 0.0 && target.asset.lotSize > 0
    ensures allocation == Allocate(target, c, value, spendable)
    ensures left == spendable - BuyCost(allocation)
  {
    hide LotCost, WholeLots, Min, Abs, Delta;
    var asset := target.asset;
    var delta := Delta(target, value);
    var relativeDelta := Abs(delta) / value;
    var action, lots, reason := Hold, 0, WithinThreshold;
    left := spendable;
    var lotCost := LotCost(asset);
    if asset.cooldownActive {
      reason := CooldownActive;
    } else if relativeDelta >= c.rebalanceThreshold && delta > 0.0 && asset.buyEnabled {
      var affordable := Min(delta, spendable);
      lots := WholeLots(affordable, lotCost);
      if lots > 0 {
        action := Buy;
        left := spendable - lots as real * lotCost;
        reason := Underweight;
      } else {
        reason := InsufficientCash;
      }
    } else if relativeDelta >= c.rebalanceThreshold && delta < 0.0 && asset.sellEnabled {
      lots := WholeLots(Abs(delta), lotCost);
      if asset.currentLots < lots {
        lots := asset.currentLots;
      }
      if lots > 0 {
        action, reason := Sell, Overweight;
      } else {
        reason := BelowMinimumLot;
      }
    }
    allocation := PlannedAllocation(asset, target.weight, asset.currentValue / value, target.weight * value,
                                    delta, action, lots, reason);
  }

  /** `plan`: rank the targets, then walk them once, spending whole lots out of the spendable cash. */
  method Plan(opt: OptimizationResult, c: Constraints, value: real, cash: real)
    returns (r: Result<RebalanceResult, OptimizationError>)
    requires forall t :: t in opt.targets ==> t.asset.price > 0.0 && t.asset.lotSize > 0
    ensures r.Failure? <==> value <= 0.0
    ensures r.Failure? ==> r.error == BadPortfolioValue
    ensures r.Success? ==> r.value == Planned(opt, c, value, cash)
  {
    hide *;
    if value <= 0.0 {
      return Failure(BadPortfolioValue);
    }
    var spendable := Max(0.0, cash - value * opt.cashWeight);
    ghost var start := spendable;
    var allocations: seq<PlannedAllocation> := [];
    var ordered := Sorted(opt.targets);
    SortedPermutes(opt.targets);
    FoldEmpty(c, value, start);
    for i := 0 to |ordered|
      invariant (allocations, spendable) == Fold(ordered[..i], c, value, start)
    {
      var target := ordered[i];
      assert target in multiset(ordered);
      FoldSnoc(ordered, i, c, value, start);
      var allocation, left := AllocateOne(target, c, value, spendable);
      allocations := allocations + [allocation];
      spendable := left;
    }
    assert ordered[..|ordered|] == ordered;
    PlannedIsFold(opt, c, value, cash, start);
    r := Success(RebalanceResult(allocations, opt.cashWeight, spendable));
  }

  lemma FoldEmpty(c: Constraints, value: real, spendable: real)
    requires value > 0.0
    ensures Fold([], c, value, spendable) == ([], spendable)
  {
  }

  lemma FoldSnoc(ordered: seq<TargetWeight>, i: nat, c: Constraints, value: real, spendable: real)
    requires value > 0.0 && i < |ordered|
    ensures var before := Fold(ordered[..i], c, value, spendable);
            var a := Allocate(ordered[i], c, value, before.1);
            Fold(ordered[..i + 1], c, value, spendable) == (before.0 + [a], before.1 - BuyCost(a))
  {
    hide Allocate, BuyCost;
    var r := ordered[..i + 1];
    assert r[..|r| - 1] == ordered[..i] && r[|r| - 1] == ordered[i];
  }

  lemma PlannedIsFold(opt: OptimizationResult, c: Constraints, value: real, cash: real, start: real)
    requires value > 0.0 && start == Max(0.0, cash - value * opt.cashWeight)
    ensures var fold := Fold(Sorted(opt.targets), c, value, start);
            Planned(opt, c, value, cash) == RebalanceResult(fold.0, opt.cashWeight, fold.1)
  {
  }
}
