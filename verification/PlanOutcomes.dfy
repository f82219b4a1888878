/** The rebalance plan in terms of its inputs and outputs alone: whom it serves first, and what it decides for each. */
module PlanOutcomes {
  import opened Sums
  import opened Portfolio
  import opened StableSort
  import opened RebalancePlanner
  import opened RebalanceProperties

  /** The cash is spent on the higher priority first, and among equal priorities on the larger target. */
  lemma ServedByPriority(opt: OptimizationResult, c: Constraints, value: real, cash: real, i: nat, j: nat)
    requires value > 0.0 && i < j < |Planned(opt, c, value, cash).allocations|
    ensures var a, b := Planned(opt, c, value, cash).allocations[i], Planned(opt, c, value, cash).allocations[j];
            && a.asset.priority >= b.asset.priority
            && (a.asset.priority == b.asset.priority ==> a.targetWeight >= b.targetWeight)
  {
    hide Planned;
    PlanPermutesTargets(opt, c, value, cash);
    var targets := AsTargets(Planned(opt, c, value, cash).allocations);
    assert !RanksAbove(targets[j], targets[i]);
  }

  /** The price of a purchase. */
  function Paid(a: PlannedAllocation): real {
    if a.action.Buy? then a.lots as real * (a.asset.price * a.asset.lotSize as real) else 0.0
  }

  function PaidOf(): PlannedAllocation -> real {
    (a: PlannedAllocation) => Paid(a)
  }

  /** The target calls for a trade in this direction, large enough to be worth it, and nothing forbids it. */
  predicate Due(a: PlannedAllocation, c: Constraints, value: real, action: Action) {
    var delta := a.targetWeight * value - a.asset.currentValue;
    && !a.asset.cooldownActive
    && match action
       case Buy => a.asset.buyEnabled && delta > 0.0 && delta >= c.rebalanceThreshold * value
       case Sell => a.asset.sellEnabled && delta < 0.0 && -delta >= c.rebalanceThreshold * value
       case Hold => false
  }

  /** So many lots cost no more than the amount, and one more would. */
  predicate Fills(lots: int, a: PlannedAllocation, amount: real) {
    var lot := a.asset.price * a.asset.lotSize as real;
    lots >= 0 && lots as real * lot <= amount < (lots + 1) as real * lot
  }

  /** The decision for one target, `left` being the cash that the targets before it have left. */
  ghost predicate Decided(a: PlannedAllocation, c: Constraints, value: real, left: real) {
    var delta := a.targetWeight * value - a.asset.currentValue;
    && a.targetAmount == a.targetWeight * value && a.deltaAmount == delta
    && a.currentWeight * value == a.asset.currentValue
    && if Due(a, c, value, Buy) then
         && Fills(a.lots, a, if delta <= left then delta else left)
         && (if a.lots > 0 then a.action == Buy && a.reason == Underweight
             else a.action == Hold && a.reason == InsufficientCash)
       else if Due(a, c, value, Sell) then
         && 0 <= a.lots <= a.asset.currentLots
         && (|| Fills(a.lots, a, -delta)
             || (a.lots == a.asset.currentLots && a.lots as real * (a.asset.price * a.asset.lotSize as real) <= -delta))
         && (if a.lots > 0 then a.action == Sell && a.reason == Overweight
             else a.action == Hold && a.reason == BelowMinimumLot)
       else
         a.action == Hold && a.lots == 0 && a.reason == if a.asset.cooldownActive then CooldownActive else WithinThreshold
  }

  lemma ShareIs(delta: real, value: real, threshold: real)
    requires value > 0.0
    ensures Abs(delta) / value >= threshold <==> Abs(delta) >= threshold * value
  {
    var q := Abs(delta) / value;
    assert q * value == Abs(delta);
    Scaled(q, threshold, value);
    Scaled(threshold, q, value);
  }

  lemma EligibleIsDue(t: TargetWeight, a: PlannedAllocation, c: Constraints, value: real)
    requires value > 0.0 && a.asset == t.asset && a.targetWeight == t.weight
    ensures BuyEligible(t, c, value) <==> Due(a, c, value, Buy)
    ensures SellEligible(t, c, value) <==> Due(a, c, value, Sell)
  {
    ShareIs(Delta(t, value), value, c.rebalanceThreshold);
  }

  lemma LotsFill(a: PlannedAllocation, amount: real)
    requires ValidAsset(a.asset) && amount >= 0.0
    ensures Fills(WholeLots(amount, LotCost(a.asset)), a, amount)
  {
    hide WholeLots;
    LotCostPositive(a.asset);
    WholeLotsBounds(amount, LotCost(a.asset));
  }

  lemma CurrentShare(x: real, value: real)
    requires value > 0.0
    ensures x / value * value == x
  {
  }

  lemma AllocateDecides(t: TargetWeight, c: Constraints, value: real, left: real)
    requires value > 0.0 && ValidTarget(t) && left >= 0.0
    ensures Decided(Allocate(t, c, value, left), c, value, left)
  {
    hide WholeLots, LotCost, Fills, Due, BuyEligible, SellEligible;
    var a, delta := Allocate(t, c, value, left), Delta(t, value);
    EligibleIsDue(t, a, c, value);
    DueDirections(a, c, value);
    CurrentShare(t.asset.currentValue, value);
    if BuyEligible(t, c, value) {
      LotsFill(a, Min(delta, left));
      FillsSome(WholeLots(Min(delta, left), LotCost(t.asset)), a, Min(delta, left));
    } else if SellEligible(t, c, value) {
      LotsFill(a, Abs(delta));
      var whole := WholeLots(Abs(delta), LotCost(t.asset));
      FillsSome(whole, a, Abs(delta));
      if t.asset.currentLots < whole {
        FewerCostLess(t.asset.currentLots, whole, a, Abs(delta));
      }
    }
  }

  lemma DueDirections(a: PlannedAllocation, c: Constraints, value: real)
    ensures Due(a, c, value, Buy) ==> !a.asset.cooldownActive && a.targetWeight * value - a.asset.currentValue > 0.0
    ensures Due(a, c, value, Sell) ==> !a.asset.cooldownActive && a.targetWeight * value - a.asset.currentValue < 0.0
  {
  }

  lemma FillsSome(lots: int, a: PlannedAllocation, amount: real)
    requires Fills(lots, a, amount)
    ensures lots >= 0
  {
  }

  lemma FewerCostLess(lots: int, whole: int, a: PlannedAllocation, amount: real)
    requires lots <= whole && Fills(whole, a, amount) && ValidAsset(a.asset)
    ensures lots as real * (a.asset.price * a.asset.lotSize as real) <= amount
  {
    LotCostPositive(a.asset);
    Scaled(lots as real, whole as real, a.asset.price * a.asset.lotSize as real);
  }

  lemma {:induction false} FoldLeft(ranked: seq<TargetWeight>, c: Constraints, value: real, spendable: real)
    requires value > 0.0 && spendable >= 0.0 && ValidTargets(ranked)
    ensures var (allocations, left) := Fold(ranked, c, value, spendable);
            left == spendable - Sum(allocations, PaidOf()) >= 0.0
  {
    hide Fold;
    FoldCash(ranked, c, value, spendable);
    SumEqual(Fold(ranked, c, value, spendable).0, PaidOf(), BuyCostOf());
  }

  /**
   * Every decision of a plan, exactly: who is bought, sold or held and why, and how many lots, the cash being what the
   * decisions before it have left of the cash above the reserve.
   */
  lemma DecisionExactly(opt: OptimizationResult, c: Constraints, value: real, cash: real, i: nat)
    requires value > 0.0 && ValidTargets(opt.targets) && i < |Planned(opt, c, value, cash).allocations|
    ensures var r, above := Planned(opt, c, value, cash), cash - opt.cashWeight * value;
            var start := if above > 0.0 then above else 0.0;
            && Decided(r.allocations[i], c, value, start - Sum(r.allocations[..i], PaidOf()))
            && r.unallocatedCash == start - Sum(r.allocations, PaidOf()) && r.targetCashWeight == opt.cashWeight
  {
    hide *;
    var ranked, start := Sorted(opt.targets), Spendable(opt.cashWeight, value, cash);
    StartIs(opt, value, cash);
    SortedValid(opt.targets);
    PlannedIsFold(opt, c, value, cash, start);
    FoldAt(ranked, i, c, value, start);
    FoldPrefix(ranked, i, c, value, start);
    PrefixValid(ranked, i);
    FoldLeft(ranked[..i], c, value, start);
    FoldLeft(ranked, c, value, start);
    AllocateDecides(ranked[i], c, value, Fold(ranked[..i], c, value, start).1);
  }

  lemma StartIs(opt: OptimizationResult, value: real, cash: real)
    ensures var above, start := cash - opt.cashWeight * value, Spendable(opt.cashWeight, value, cash);
            && start == (if above > 0.0 then above else 0.0)
            && start == Max(0.0, cash - value * opt.cashWeight) && start >= 0.0
  {
  }

  lemma PrefixValid(ranked: seq<TargetWeight>, i: nat)
    requires ValidTargets(ranked) && i < |ranked|
    ensures ValidTargets(ranked[..i]) && ValidTarget(ranked[i])
  {
    hide ValidTarget;
    assert ranked[i] in ranked;
  }
}
