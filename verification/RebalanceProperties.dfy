/** What a rebalance plan guarantees, on its own and for the optimizer's targets. */
module RebalanceProperties {
  import opened Wrappers
  import opened Sums
  import opened Portfolio
  import opened StableSort
  import opened RebalancePlanner
  import opened WaterFilling
  import PortfolioOptimizer

  // ------------------------------------------------------------- one decision

  /** The bounds of one decision, with no non-linear term left in them. */
  ghost predicate Bounded(t: TargetWeight, c: Constraints, value: real, spendable: real, a: PlannedAllocation)
    requires value > 0.0
  {
    && a.asset == t.asset && a.targetWeight == t.weight
    && a.deltaAmount == Delta(t, value) && a.targetAmount == t.asset.currentValue + Delta(t, value)
    && (a.action.Buy? ==>
          BuyEligible(t, c, value) && a.lots > 0
          && 0.0 < Cost(a) <= Delta(t, value) && Cost(a) <= spendable)
    && (a.action.Sell? ==>
          SellEligible(t, c, value) && 0 < a.lots <= t.asset.currentLots
          && 0.0 < Cost(a) <= -Delta(t, value))
    && (a.action.Hold? ==> a.lots == 0)
    && (BuyEligible(t, c, value) ==>
          Delta(t, value) - BuyCost(a) < LotCost(t.asset) || spendable - BuyCost(a) < LotCost(t.asset))
    && (SellEligible(t, c, value) ==>
          a.lots == t.asset.currentLots || -Delta(t, value) - Cost(a) < LotCost(t.asset))
  }

  lemma CostPositive(lots: int, lotCost: real)
    requires lots > 0 && lotCost > 0.0
    ensures lots as real * lotCost > 0.0
  {
  }

  lemma CostMonotone(n: int, m: int, lotCost: real)
    requires n <= m && lotCost > 0.0
    ensures n as real * lotCost <= m as real * lotCost
  {
    Scaled(n as real, m as real, lotCost);
  }

  lemma DecisionBounded(t: TargetWeight, c: Constraints, value: real, spendable: real)
    requires value > 0.0 && ValidTarget(t) && spendable >= 0.0
    ensures Bounded(t, c, value, spendable, Allocate(t, c, value, spendable))
  {
    hide LotCost, WholeLots, Significant;
    var k := LotCost(t.asset);
    LotCostPositive(t.asset);
    if BuyEligible(t, c, value) {
      WholeLotsBounds(Min(Delta(t, value), spendable), k);
      var lots := WholeLots(Min(Delta(t, value), spendable), k);
      if lots > 0 {
        CostPositive(lots, k);
      }
    } else if SellEligible(t, c, value) {
      SaleBounded(t, c, value, spendable);
    }
  }

  lemma SaleBounded(t: TargetWeight, c: Constraints, value: real, spendable: real)
    requires value > 0.0 && ValidTarget(t) && SellEligible(t, c, value)
    ensures Bounded(t, c, value, spendable, Allocate(t, c, value, spendable))
  {
    hide LotCost, WholeLots, Significant, Delta;
    var k, surplus := LotCost(t.asset), -Delta(t, value);
    LotCostPositive(t.asset);
    assert Abs(Delta(t, value)) == surplus;
    var whole := WholeLots(surplus, k);
    WholeLotsBounds(surplus, k);
    var lots := if t.asset.currentLots < whole then t.asset.currentLots else whole;
    CostMonotone(lots, whole, k);
    if lots > 0 {
      CostPositive(lots, k);
    }
    var a := Allocate(t, c, value, spendable);
    assert a.lots == lots && Cost(a) == lots as real * k;
    assert a.targetAmount == t.asset.currentValue + Delta(t, value) by {
      DeltaDefined(t, value);
    }
  }

  lemma DeltaDefined(t: TargetWeight, value: real)
    ensures t.weight * value == t.asset.currentValue + Delta(t, value)
  {
  }

  // ------------------------------------------------------------- the fold

  lemma {:induction false} FoldCash(ranked: seq<TargetWeight>, c: Constraints, value: real, spendable: real)
    requires value > 0.0 && spendable >= 0.0 && ValidTargets(ranked)
    ensures var (allocations, left) := Fold(ranked, c, value, spendable);
            Sum(allocations, BuyCostOf()) + left == spendable && 0.0 <= left <= spendable
  {
    hide Allocate, BuyCost, ValidTarget;
    if ranked != [] {
      var n := |ranked| - 1;
      FoldCash(ranked[..n], c, value, spendable);
      var before := Fold(ranked[..n], c, value, spendable);
      assert ranked[n] in ranked;
      BuyCostRange(ranked[n], c, value, before.1);
      var a := Allocate(ranked[n], c, value, before.1);
      SumSnoc(before.0, a, BuyCostOf());
    }
  }

  lemma BuyCostRange(t: TargetWeight, c: Constraints, value: real, spendable: real)
    requires value > 0.0 && ValidTarget(t) && spendable >= 0.0
    ensures 0.0 <= BuyCost(Allocate(t, c, value, spendable)) <= spendable
  {
    hide Allocate, Cost, LotCost, BuyEligible, SellEligible, Delta;
    DecisionBounded(t, c, value, spendable);
  }

  lemma {:induction false} FoldPrefix(ranked: seq<TargetWeight>, k: nat, c: Constraints, value: real, spendable: real)
    requires value > 0.0 && k <= |ranked|
    ensures Fold(ranked, c, value, spendable).0[..k] == Fold(ranked[..k], c, value, spendable).0
  {
    hide Allocate, BuyCost;
    if k < |ranked| {
      var n := |ranked| - 1;
      FoldPrefix(ranked[..n], k, c, value, spendable);
      assert ranked[..n][..k] == ranked[..k];
    } else {
      assert ranked[..k] == ranked;
    }
  }

  /** Every allocation is the decision for its target with the cash left by the higher ranks. */
  lemma {:induction false} FoldAt(ranked: seq<TargetWeight>, i: nat, c: Constraints, value: real, spendable: real)
    requires value > 0.0 && spendable >= 0.0 && ValidTargets(ranked) && i < |ranked|
    ensures var left := Fold(ranked[..i], c, value, spendable).1;
            var a := Fold(ranked, c, value, spendable).0[i];
            && 0.0 <= left <= spendable
            && a == Allocate(ranked[i], c, value, left)
            && Fold(ranked, c, value, spendable).1 <= left - BuyCost(a)
  {
    hide Allocate, BuyCost, ValidTarget;
    var n := |ranked| - 1;
    assert ranked[n] in ranked;
    FoldCash(ranked[..n], c, value, spendable);
    if i < n {
      FoldAt(ranked[..n], i, c, value, spendable);
      assert ranked[..n][..i] == ranked[..i];
      BuyCostRange(ranked[n], c, value, Fold(ranked[..n], c, value, spendable).1);
    }
  }

  // ------------------------------------------------------------- whole plans

  lemma SortedValid(targets: seq<TargetWeight>)
    ensures forall t :: t in Sorted(targets) <==> t in targets
    ensures |Sorted(targets)| == |targets|
    ensures ValidTargets(targets) ==> ValidTargets(Sorted(targets))
  {
    SortedPermutes(targets);
    assert forall t :: t in Sorted(targets) <==> t in multiset(Sorted(targets));
    assert forall t :: t in targets <==> t in multiset(targets);
    assert |multiset(Sorted(targets))| == |Sorted(targets)|;
  }

  function AsTarget(a: PlannedAllocation): TargetWeight {
    TargetWeight(a.asset, a.targetWeight)
  }

  function AsTargets(allocations: seq<PlannedAllocation>): (r: seq<TargetWeight>)
    ensures |r| == |allocations| && forall i :: 0 <= i < |r| ==> r[i] == AsTarget(allocations[i])
  {
    if allocations == [] then []
    else AsTargets(allocations[..|allocations| - 1]) + [AsTarget(allocations[|allocations| - 1])]
  }

  /** The plan decides every target exactly once. */
  lemma PlanPermutesTargets(opt: OptimizationResult, c: Constraints, value: real, cash: real)
    requires value > 0.0
    ensures multiset(AsTargets(Planned(opt, c, value, cash).allocations)) == multiset(opt.targets)
    ensures Descending(AsTargets(Planned(opt, c, value, cash).allocations))
  {
    var ranked := Sorted(opt.targets);
    FoldTargets(ranked, c, value, Spendable(opt.cashWeight, value, cash));
    SortedPermutes(opt.targets);
    SortedDescending(opt.targets);
  }

  lemma {:induction false} FoldTargets(ranked: seq<TargetWeight>, c: Constraints, value: real, spendable: real)
    requires value > 0.0
    ensures AsTargets(Fold(ranked, c, value, spendable).0) == ranked
  {
    if ranked != [] {
      FoldTargets(ranked[..|ranked| - 1], c, value, spendable);
      var a := Fold(ranked, c, value, spendable).0;
      assert a[..|a| - 1] == Fold(ranked[..|ranked| - 1], c, value, spendable).0;
      assert ranked == ranked[..|ranked| - 1] + [ranked[|ranked| - 1]];
    }
  }

  /** Conservation: planned purchases plus what is left is the cash above the reserve. */
  lemma CashConserved(opt: OptimizationResult, c: Constraints, value: real, cash: real)
    requires value > 0.0 && ValidTargets(opt.targets)
    ensures var r := Planned(opt, c, value, cash);
            var spent := Sum(r.allocations, BuyCostOf());
            && spent + r.unallocatedCash == Max(0.0, cash - value * opt.cashWeight)
            && r.unallocatedCash >= 0.0
            && cash - spent >= Min(cash, value * opt.cashWeight)
  {
    hide Fold, ValidTarget, BuyCostOf, Sum;
    SortedValid(opt.targets);
    FoldCash(Sorted(opt.targets), c, value, Spendable(opt.cashWeight, value, cash));
  }

  /** What a plan says about one of its allocations. */
  ghost predicate Sound(a: PlannedAllocation, c: Constraints, value: real, unallocated: real)
    requires value > 0.0
  {
    var t := AsTarget(a);
    && (a.action.Buy? ==> a.lots > 0 && t.asset.currentValue + Cost(a) <= a.targetAmount)
    && (a.action.Sell? ==> 0 < a.lots <= t.asset.currentLots && t.asset.currentValue - Cost(a) >= a.targetAmount)
    && (a.action.Hold? ==> a.lots == 0)
    && (BuyEligible(t, c, value) ==>
          a.targetAmount - (t.asset.currentValue + BuyCost(a)) < LotCost(t.asset) || unallocated < LotCost(t.asset))
  }

  /**
   * No purchase overshoots its target, no sale undershoots it or sells more than is held, and the
   * plan is greedy-maximal: one more lot of an eligible underweight asset would overshoot or could
   * not be paid for from the cash left at the end.
   */
  lemma EveryAllocationSound(opt: OptimizationResult, c: Constraints, value: real, cash: real, i: nat)
    requires value > 0.0 && ValidTargets(opt.targets)
    requires i < |Planned(opt, c, value, cash).allocations|
    ensures var r := Planned(opt, c, value, cash);
            Sound(r.allocations[i], c, value, r.unallocatedCash)
  {
    var ranked, start := Sorted(opt.targets), Spendable(opt.cashWeight, value, cash);
    SortedValid(opt.targets);
    FoldAt(ranked, i, c, value, start);
    var left := Fold(ranked[..i], c, value, start).1;
    assert ranked[i] in ranked;
    DecisionBounded(ranked[i], c, value, left);
    BoundedIsSound(ranked[i], c, value, left, Allocate(ranked[i], c, value, left), Fold(ranked, c, value, start).1);
  }

  lemma BoundedIsSound(t: TargetWeight, c: Constraints, value: real, left: real, a: PlannedAllocation, final: real)
    requires value > 0.0 && Bounded(t, c, value, left, a) && final <= left - BuyCost(a)
    ensures Sound(a, c, value, final)
  {
    hide Cost, LotCost, BuyEligible, SellEligible, Delta;
    assert AsTarget(a) == t;
  }

  /**
   * Whatever ranks below has no influence: two lists whose rankings agree on their first `k` targets, from the same
   * portfolio and cash reserve, get the same first `k` allocations.
   */
  lemma SharedRanksSharedAllocations(xs: seq<TargetWeight>, ys: seq<TargetWeight>, k: nat, c: Constraints,
                                     cashWeight: real, value: real, cash: real)
    requires value > 0.0 && k <= |Sorted(xs)| && k <= |Sorted(ys)| && Sorted(xs)[..k] == Sorted(ys)[..k]
    ensures var one := Planned(OptimizationResult(xs, cashWeight), c, value, cash).allocations;
            var other := Planned(OptimizationResult(ys, cashWeight), c, value, cash).allocations;
            k <= |one| == |xs| && k <= |other| == |ys| && one[..k] == other[..k]
  {
    var start := Spendable(cashWeight, value, cash);
    SortedValid(xs);
    SortedValid(ys);
    FoldPrefix(Sorted(xs), k, c, value, start);
    FoldPrefix(Sorted(ys), k, c, value, start);
  }

  /** A target added to the list leaves every allocation it does not outrank as it was. */
  lemma LowerRankNeverInterferes(targets: seq<TargetWeight>, t: TargetWeight, c: Constraints,
                                 cashWeight: real, value: real, cash: real) returns (k: nat)
    requires value > 0.0
    ensures k <= |targets| && |Sorted(targets)| == |targets|
    ensures var before := Planned(OptimizationResult(targets, cashWeight), c, value, cash).allocations;
            var after := Planned(OptimizationResult(targets + [t], cashWeight), c, value, cash).allocations;
            |before| == |targets| && |after| == |targets| + 1 && after[..k] == before[..k]
    ensures forall i :: 0 <= i < |targets| ==> (i < k <==> !RanksAbove(t, Sorted(targets)[i]))
  {
    var ranked, start := Sorted(targets), Spendable(cashWeight, value, cash);
    SortedValid(targets);
    SortedDescending(targets);
    assert (targets + [t])[..|targets|] == targets;
    k := InsertSplits(ranked, t);
    var wider := Insert(ranked, t);
    assert wider[..k] == ranked[..k];
    FoldPrefix(ranked, k, c, value, start);
    FoldPrefix(wider, k, c, value, start);
  }

  // ------------------------------------------------- optimizer and planner together

  /**
   * The plan for the optimizer's targets keeps the investor's limits: cash stays above the required
   * reserve (or untouched when it starts below), and no purchase lifts a position above its cap.
   */
  lemma LimitsSurvivePlanning(assets: seq<AssetInput>, c: Constraints, opt: OptimizationResult,
                              value: real, cash: real, i: nat)
    requires PortfolioOptimizer.Validate(assets, c).None? && Typed(assets) && WaterFilled(assets, c, opt)
    requires value > 0.0
    requires i < |Planned(opt, c, value, cash).allocations|
    ensures var r := Planned(opt, c, value, cash);
            var a := r.allocations[i];
            && cash - Sum(r.allocations, BuyCostOf()) >= Min(cash, value * c.minCashWeight)
            && (a.action.Buy? ==> a.asset.currentValue + Cost(a) <= Cap(a.asset, c) * value)
            && Cap(a.asset, c) <= c.maxPositionWeight
            && (a.action.Sell? ==> a.asset.currentValue - Cost(a) >= 0.0 && a.lots <= a.asset.currentLots)
  {
    hide *;
    ReserveSurvives(assets, c, opt, value, cash);
    AllocationKeepsLimits(assets, c, opt, value, cash, i);
  }

  lemma ReserveSurvives(assets: seq<AssetInput>, c: Constraints, opt: OptimizationResult, value: real, cash: real)
    requires PortfolioOptimizer.Validate(assets, c).None? && Typed(assets) && WaterFilled(assets, c, opt) && value > 0.0
    ensures var r := Planned(opt, c, value, cash);
            cash - Sum(r.allocations, BuyCostOf()) >= Min(cash, value * c.minCashWeight)
  {
    hide *;
    PortfolioOptimizer.ValidateExact(assets, c);
    OptimizedTargetsValid(assets, c, opt);
    CashConserved(opt, c, value, cash);
    SmallerReserve(cash - Sum(Planned(opt, c, value, cash).allocations, BuyCostOf()), cash, value,
                   c.minCashWeight, opt.cashWeight);
  }

  lemma AllocationKeepsLimits(assets: seq<AssetInput>, c: Constraints, opt: OptimizationResult,
                              value: real, cash: real, i: nat)
    requires PortfolioOptimizer.Validate(assets, c).None? && Typed(assets) && WaterFilled(assets, c, opt) && value > 0.0
    requires i < |Planned(opt, c, value, cash).allocations|
    ensures var a := Planned(opt, c, value, cash).allocations[i];
            && (a.action.Buy? ==> a.asset.currentValue + Cost(a) <= Cap(a.asset, c) * value)
            && Cap(a.asset, c) <= c.maxPositionWeight
            && (a.action.Sell? ==> a.asset.currentValue - Cost(a) >= 0.0 && a.lots <= a.asset.currentLots)
  {
    hide *;
    PortfolioOptimizer.ValidateExact(assets, c);
    OptimizedTargetsValid(assets, c, opt);
    EveryAllocationSound(opt, c, value, cash, i);
    AllocationOfTarget(opt, c, value, cash, i);
    var r := Planned(opt, c, value, cash);
    SoundWithinCap(r.allocations[i], c, value, r.unallocatedCash);
  }

  lemma SmallerReserve(left: real, cash: real, value: real, low: real, high: real)
    requires low <= high && value > 0.0 && left >= Min(cash, value * high)
    ensures left >= Min(cash, value * low)
  {
    Scale(low, high, value);
  }

  lemma SoundWithinCap(a: PlannedAllocation, c: Constraints, value: real, unallocated: real)
    requires value > 0.0 && Sound(a, c, value, unallocated)
    requires a.targetAmount == a.targetWeight * value && 0.0 <= a.targetWeight <= Cap(a.asset, c)
    ensures a.action.Buy? ==> a.asset.currentValue + Cost(a) <= Cap(a.asset, c) * value
    ensures a.action.Sell? ==> a.asset.currentValue - Cost(a) >= 0.0 && a.lots <= a.asset.currentLots
  {
    hide Cost, Cap, LotCost, BuyEligible;
    Scale(a.targetWeight, Cap(a.asset, c), value);
    Scale(0.0, a.targetWeight, value);
  }

  lemma Scale(x: real, y: real, value: real)
    requires x <= y && value > 0.0
    ensures value * x <= value * y && x * value <= y * value
  {
  }

  lemma OptimizedTargetsValid(assets: seq<AssetInput>, c: Constraints, opt: OptimizationResult)
    requires Typed(assets) && ValidInput(assets, c) && WaterFilled(assets, c, opt)
    ensures ValidTargets(opt.targets)
    ensures c.minCashWeight <= opt.cashWeight
    ensures forall t :: t in opt.targets ==> 0.0 <= t.weight <= Cap(t.asset, c) <= c.maxPositionWeight
  {
    hide Cap, FilledTo, IsLevel, ValidAsset;
    PortfolioOptimizer.LimitsRespected(assets, c, opt);
    forall t | t in opt.targets ensures ValidTarget(t) {
      assert t.asset in assets;
    }
  }

  lemma AllocationOfTarget(opt: OptimizationResult, c: Constraints, value: real, cash: real, i: nat)
    requires value > 0.0 && ValidTargets(opt.targets) && i < |Planned(opt, c, value, cash).allocations|
    ensures var a := Planned(opt, c, value, cash).allocations[i];
            && TargetWeight(a.asset, a.targetWeight) in opt.targets
            && a.targetAmount == a.targetWeight * value
  {
    hide *;
    var ranked, start := Sorted(opt.targets), Spendable(opt.cashWeight, value, cash);
    SortedValid(opt.targets);
    SpendableNonNegative(opt, value, cash);
    PlannedIsFold(opt, c, value, cash, start);
    FoldAt(ranked, i, c, value, start);
    AllocatedTarget(ranked[i], c, value, Fold(ranked[..i], c, value, start).1);
    assert ranked[i] in ranked;
  }

  lemma SpendableNonNegative(opt: OptimizationResult, value: real, cash: real)
    ensures Spendable(opt.cashWeight, value, cash) == Max(0.0, cash - value * opt.cashWeight) >= 0.0
  {
  }

  lemma AllocatedTarget(t: TargetWeight, c: Constraints, value: real, spendable: real)
    requires value > 0.0
    ensures var a := Allocate(t, c, value, spendable);
            TargetWeight(a.asset, a.targetWeight) == t && a.targetAmount == a.targetWeight * value
  {
    hide Decide, Delta;
  }
}
