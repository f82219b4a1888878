/**
 * Replanning after a plan has been carried out at its own prices.  The planner converges: a plan's
 * trades are never undone, a second plan only buys, and a third plan does nothing.
 */
module Settlement {
  import opened Sums
  import opened Portfolio
  import opened StableSort
  import opened RebalancePlanner
  import opened RebalanceProperties

  /** The position after the allocation is carried out at the planned price. */
  function Settled(a: PlannedAllocation): AssetInput {
    match a.action
    case Buy => a.asset.(currentValue := a.asset.currentValue + Cost(a), currentLots := a.asset.currentLots + a.lots)
    case Sell => a.asset.(currentValue := a.asset.currentValue - Cost(a), currentLots := a.asset.currentLots - a.lots)
    case Hold => a.asset
  }

  function SaleValue(a: PlannedAllocation): real {
    if a.action.Sell? then Cost(a) else 0.0
  }

  function SaleValueOf(): PlannedAllocation -> real {
    (a: PlannedAllocation) => SaleValue(a)
  }

  function SettledCash(r: RebalanceResult, cash: real): real {
    cash - Sum(r.allocations, BuyCostOf()) + Sum(r.allocations, SaleValueOf())
  }

  function SettledTarget(a: PlannedAllocation): TargetWeight {
    TargetWeight(Settled(a), a.targetWeight)
  }

  function SettledTargets(allocations: seq<PlannedAllocation>): (r: seq<TargetWeight>)
    ensures |r| == |allocations| && forall i :: 0 <= i < |r| ==> r[i] == SettledTarget(allocations[i])
  {
    if allocations == [] then []
    else SettledTargets(allocations[..|allocations| - 1]) + [SettledTarget(allocations[|allocations| - 1])]
  }

  // ------------------------------------------------------- one settled target

  /** A settled position sits between where it was and its target. */
  ghost predicate Closer(t: TargetWeight, u: TargetWeight, value: real) {
    && u.weight == t.weight && u.asset == t.asset.(currentValue := u.asset.currentValue, currentLots := u.asset.currentLots)
    && (0.0 <= Delta(u, value) <= Delta(t, value) || Delta(t, value) <= Delta(u, value) <= 0.0)
    && ValidTarget(u)
  }

  lemma SettledCloser(t: TargetWeight, c: Constraints, value: real, spendable: real, a: PlannedAllocation)
    requires value > 0.0 && ValidTarget(t) && Bounded(t, c, value, spendable, a)
    ensures Closer(t, SettledTarget(a), value)
    ensures a.action.Buy? ==> Delta(SettledTarget(a), value) == Delta(t, value) - Cost(a)
    ensures a.action.Sell? ==> Delta(SettledTarget(a), value) == Delta(t, value) + Cost(a)
    ensures a.action.Hold? ==> SettledTarget(a) == t
  {
    hide Cost, BuyEligible, SellEligible;
    assert t.weight * value >= 0.0;
  }

  lemma QuotientMonotone(x: real, y: real, value: real)
    requires 0.0 <= x <= y && value > 0.0
    ensures x / value <= y / value
  {
  }

  /** Moving closer to the target never makes a target eligible. */
  lemma EligibilityShrinks(t: TargetWeight, u: TargetWeight, c: Constraints, value: real)
    requires value > 0.0 && Closer(t, u, value)
    ensures BuyEligible(u, c, value) ==> BuyEligible(t, c, value) && Delta(u, value) <= Delta(t, value)
    ensures SellEligible(u, c, value) ==> SellEligible(t, c, value) && Delta(t, value) <= Delta(u, value)
  {
    hide Delta;
    if 0.0 <= Delta(u, value) {
      QuotientMonotone(Abs(Delta(u, value)), Abs(Delta(t, value)), value);
    } else {
      QuotientMonotone(-Delta(u, value), -Delta(t, value), value);
    }
  }

  lemma NothingAffordable(u: TargetWeight, c: Constraints, value: real, spendable: real)
    requires value > 0.0 && ValidTarget(u) && spendable >= 0.0
    requires BuyEligible(u, c, value) ==> Delta(u, value) < LotCost(u.asset) || spendable < LotCost(u.asset)
    ensures !Allocate(u, c, value, spendable).action.Buy?
  {
    hide LotCost, WholeLots, Significant, Delta;
    if BuyEligible(u, c, value) {
      LotCostPositive(u.asset);
      WholeLotsBounds(Min(Delta(u, value), spendable), LotCost(u.asset));
    }
  }

  lemma NothingToSell(u: TargetWeight, c: Constraints, value: real, spendable: real)
    requires value > 0.0 && ValidTarget(u)
    requires SellEligible(u, c, value) ==> u.asset.currentLots == 0 || -Delta(u, value) < LotCost(u.asset)
    ensures !Allocate(u, c, value, spendable).action.Sell?
  {
    hide LotCost, WholeLots, Significant, Delta;
    if SellEligible(u, c, value) {
      LotCostPositive(u.asset);
      WholeLotsBounds(Abs(Delta(u, value)), LotCost(u.asset));
    }
  }

  /** After settlement there is nothing left to sell, whatever cash is around. */
  lemma SettledNeverSells(t: TargetWeight, c: Constraints, value: real, spendable: real, a: PlannedAllocation, later: real)
    requires value > 0.0 && ValidTarget(t) && Bounded(t, c, value, spendable, a)
    ensures !Allocate(SettledTarget(a), c, value, later).action.Sell?
  {
    hide Allocate, Delta, LotCost, Significant;
    var u := SettledTarget(a);
    SettledCloser(t, c, value, spendable, a);
    EligibilityShrinks(t, u, c, value);
    SameLotCost(t, u, value);
    NothingToSell(u, c, value, later);
  }

  lemma SameLotCost(t: TargetWeight, u: TargetWeight, value: real)
    requires Closer(t, u, value)
    ensures LotCost(u.asset) == LotCost(t.asset)
  {
  }

  /** After settlement nothing can be bought from the cash that the plan left. */
  lemma SettledNeverBuys(t: TargetWeight, c: Constraints, value: real, spendable: real, a: PlannedAllocation, later: real)
    requires value > 0.0 && ValidTarget(t) && Bounded(t, c, value, spendable, a)
    requires !a.action.Sell? && 0.0 <= later <= spendable - BuyCost(a)
    ensures Allocate(SettledTarget(a), c, value, later).action.Hold?
  {
    hide Allocate, Delta, LotCost, Significant;
    var u := SettledTarget(a);
    SettledCloser(t, c, value, spendable, a);
    EligibilityShrinks(t, u, c, value);
    SameLotCost(t, u, value);
    NothingAffordable(u, c, value, later);
    SettledNeverSells(t, c, value, spendable, a, later);
  }

  // ------------------------------------------------------- whole plans, in rank order

  ghost predicate NoSales(allocations: seq<PlannedAllocation>) {
    forall i :: 0 <= i < |allocations| ==> !allocations[i].action.Sell?
  }

  ghost predicate AllHold(allocations: seq<PlannedAllocation>) {
    forall i :: 0 <= i < |allocations| ==> allocations[i].action.Hold?
  }

  lemma AtBounded(ranked: seq<TargetWeight>, i: nat, c: Constraints, value: real, start: real) returns (left: real)
    requires value > 0.0 && start >= 0.0 && ValidTargets(ranked) && i < |ranked|
    ensures ValidTarget(ranked[i])
    ensures var fold := Fold(ranked, c, value, start);
            Bounded(ranked[i], c, value, left, fold.0[i]) && fold.1 <= left - BuyCost(fold.0[i])
  {
    hide Allocate, ValidTarget, BuyCost;
    left := Fold(ranked[..i], c, value, start).1;
    assert ranked[i] in ranked;
    FoldAt(ranked, i, c, value, start);
    DecisionBounded(ranked[i], c, value, left);
  }

  lemma SettledFoldValid(ranked: seq<TargetWeight>, c: Constraints, value: real, start: real)
    requires value > 0.0 && start >= 0.0 && ValidTargets(ranked)
    ensures ValidTargets(SettledTargets(Fold(ranked, c, value, start).0))
  {
    hide Bounded, Fold, ValidTarget, Delta, Cost;
    var next := SettledTargets(Fold(ranked, c, value, start).0);
    forall i | 0 <= i < |next| ensures ValidTarget(next[i]) {
      var left := AtBounded(ranked, i, c, value, start);
      SettledCloser(ranked[i], c, value, left, Fold(ranked, c, value, start).0[i]);
    }
  }

  lemma SecondFoldOnlyBuys(ranked: seq<TargetWeight>, c: Constraints, value: real, start: real, again: real)
    requires value > 0.0 && start >= 0.0 && again >= 0.0 && ValidTargets(ranked)
    ensures NoSales(Fold(SettledTargets(Fold(ranked, c, value, start).0), c, value, again).0)
  {
    hide Bounded, Fold, Allocate, SettledTarget, ValidTarget;
    var next := SettledTargets(Fold(ranked, c, value, start).0);
    SettledFoldValid(ranked, c, value, start);
    forall i | 0 <= i < |next| ensures !Fold(next, c, value, again).0[i].action.Sell? {
      var left := AtBounded(ranked, i, c, value, start);
      FoldAt(next, i, c, value, again);
      SettledNeverSells(ranked[i], c, value, left, Fold(ranked, c, value, start).0[i],
                        Fold(next[..i], c, value, again).1);
    }
  }

  lemma FoldAfterBuysHolds(ranked: seq<TargetWeight>, c: Constraints, value: real, start: real)
    requires value > 0.0 && start >= 0.0 && ValidTargets(ranked)
    requires NoSales(Fold(ranked, c, value, start).0)
    ensures var (allocations, left) := Fold(ranked, c, value, start);
            AllHold(Fold(SettledTargets(allocations), c, value, left).0)
  {
    hide Bounded, Fold, Allocate, SettledTarget, ValidTarget, BuyCost;
    var (allocations, final) := Fold(ranked, c, value, start);
    var next := SettledTargets(allocations);
    SettledFoldValid(ranked, c, value, start);
    FoldCash(ranked, c, value, start);
    forall i | 0 <= i < |next| ensures Fold(next, c, value, final).0[i].action.Hold? {
      var left := AtBounded(ranked, i, c, value, start);
      FoldAt(next, i, c, value, final);
      SettledNeverBuys(ranked[i], c, value, left, allocations[i], Fold(next[..i], c, value, final).1);
    }
  }

  // ------------------------------------------------------- whole plans, in input order

  function Carried(allocations: seq<PlannedAllocation>, t: TargetWeight): (u: TargetWeight)
    ensures SameRank(u, t)
  {
    if allocations == [] then t
    else if AsTarget(allocations[|allocations| - 1]) == t then SettledTarget(allocations[|allocations| - 1])
    else Carried(allocations[..|allocations| - 1], t)
  }

  function CarriedBy(allocations: seq<PlannedAllocation>): TargetWeight -> TargetWeight {
    t => Carried(allocations, t)
  }

  /** The same targets, in the same order, after the plan has been carried out. */
  function AfterPlan(opt: OptimizationResult, r: RebalanceResult): OptimizationResult {
    OptimizationResult(Map(opt.targets, CarriedBy(r.allocations)), opt.cashWeight)
  }

  ghost predicate NoRepeats(s: seq<TargetWeight>) {
    forall i, j :: 0 <= i < j < |s| ==> s[i] != s[j]
  }

  lemma {:induction false} NoRepeatsCounts(s: seq<TargetWeight>, x: TargetWeight)
    requires NoRepeats(s)
    ensures multiset(s)[x] <= 1
  {
    if s != [] {
      var init, last := s[..|s| - 1], s[|s| - 1];
      assert s == init + [last];
      NoRepeatsCounts(init, x);
      if x == last {
        assert x !in init;
        assert multiset(init)[x] == 0;
      }
    }
  }

  lemma RepeatCounts(s: seq<TargetWeight>, i: nat, j: nat)
    requires i < j < |s| && s[i] == s[j]
    ensures multiset(s)[s[i]] >= 2
  {
    assert s == s[..j] + s[j..];
    assert s[..j][i] in multiset(s[..j]) && s[j..][0] in multiset(s[j..]);
  }

  lemma NoRepeatsPermutation(s: seq<TargetWeight>, r: seq<TargetWeight>)
    requires NoRepeats(s) && multiset(s) == multiset(r)
    ensures NoRepeats(r)
  {
    forall i, j | 0 <= i < j < |r| ensures r[i] != r[j] {
      NoRepeatsCounts(s, r[i]);
      if r[i] == r[j] {
        RepeatCounts(r, i, j);
      }
    }
  }

  lemma {:induction false} CarriedAt(allocations: seq<PlannedAllocation>, i: nat)
    requires i < |allocations| && NoRepeats(AsTargets(allocations))
    ensures Carried(allocations, AsTarget(allocations[i])) == SettledTarget(allocations[i])
  {
    var n := |allocations| - 1;
    if i < n {
      assert AsTargets(allocations)[i] != AsTargets(allocations)[n];
      assert AsTargets(allocations[..n]) == AsTargets(allocations)[..n];
      CarriedAt(allocations[..n], i);
    }
  }

  /** Ranking the settled targets gives the settled allocations of the ranked targets. */
  lemma AfterPlanRanked(opt: OptimizationResult, c: Constraints, value: real, cash: real)
    requires value > 0.0 && DistinctTargets(opt.targets)
    ensures var r := Planned(opt, c, value, cash);
            Sorted(AfterPlan(opt, r).targets) == SettledTargets(r.allocations)
  {
    var r := Planned(opt, c, value, cash);
    var ranked := Sorted(opt.targets);
    FoldTargets(ranked, c, value, Spendable(opt.cashWeight, value, cash));
    SortedPermutes(opt.targets);
    NoRepeatsPermutation(opt.targets, ranked);
    SortedMap(opt.targets, CarriedBy(r.allocations));
    forall i | 0 <= i < |ranked| ensures CarriedBy(r.allocations)(ranked[i]) == SettledTarget(r.allocations[i]) {
      CarriedAt(r.allocations, i);
      assert AsTarget(r.allocations[i]) == AsTargets(r.allocations)[i];
    }
  }

  /** No plan after the first one ever sells again, whatever happens to the cash in between. */
  lemma SecondPlanNeverSells(opt: OptimizationResult, c: Constraints, value: real, cash: real, cashNow: real)
    requires value > 0.0 && ValidTargets(opt.targets) && DistinctTargets(opt.targets)
    ensures var r := Planned(opt, c, value, cash);
            NoSales(Planned(AfterPlan(opt, r), c, value, cashNow).allocations)
  {
    SortedValid(opt.targets);
    AfterPlanRanked(opt, c, value, cash);
    SecondFoldOnlyBuys(Sorted(opt.targets), c, value, Spendable(opt.cashWeight, value, cash),
                       Spendable(opt.cashWeight, value, cashNow));
  }

  lemma {:induction false} NoSaleValue(allocations: seq<PlannedAllocation>)
    requires NoSales(allocations)
    ensures Sum(allocations, SaleValueOf()) == 0.0
  {
    if allocations != [] {
      NoSaleValue(allocations[..|allocations| - 1]);
    }
  }

  /** Carrying out a plan without sales is a fixed point: planning again does nothing at all. */
  lemma BuyOnlyPlanIsFinal(opt: OptimizationResult, c: Constraints, value: real, cash: real)
    requires value > 0.0 && ValidTargets(opt.targets) && DistinctTargets(opt.targets)
    requires NoSales(Planned(opt, c, value, cash).allocations)
    ensures var r := Planned(opt, c, value, cash);
            AllHold(Planned(AfterPlan(opt, r), c, value, SettledCash(r, cash)).allocations)
  {
    var r := Planned(opt, c, value, cash);
    var start := Spendable(opt.cashWeight, value, cash);
    SortedValid(opt.targets);
    AfterPlanRanked(opt, c, value, cash);
    NoSaleValue(r.allocations);
    FoldCash(Sorted(opt.targets), c, value, start);
    assert Spendable(opt.cashWeight, value, SettledCash(r, cash)) == r.unallocatedCash;
    FoldAfterBuysHolds(Sorted(opt.targets), c, value, start);
  }

  lemma AfterPlanValid(opt: OptimizationResult, c: Constraints, value: real, cash: real)
    requires value > 0.0 && ValidTargets(opt.targets) && DistinctTargets(opt.targets)
    ensures var r := Planned(opt, c, value, cash);
            ValidTargets(AfterPlan(opt, r).targets) && DistinctTargets(AfterPlan(opt, r).targets)
  {
    var r := Planned(opt, c, value, cash);
    var next := AfterPlan(opt, r);
    SortedValid(opt.targets);
    AfterPlanRanked(opt, c, value, cash);
    SettledFoldValid(Sorted(opt.targets), c, value, Spendable(opt.cashWeight, value, cash));
    SortedValid(next.targets);
    forall i | 0 <= i < |opt.targets| ensures next.targets[i].asset.uid == opt.targets[i].asset.uid {
      CarriedUid(r.allocations, opt.targets[i]);
    }
  }

  lemma {:induction false} CarriedUid(allocations: seq<PlannedAllocation>, t: TargetWeight)
    ensures Carried(allocations, t).asset.uid == t.asset.uid
  {
    if allocations != [] {
      CarriedUid(allocations[..|allocations| - 1], t);
    }
  }

  // ------------------------------------------------------- conservation

  function PositionOf(): TargetWeight -> real {
    (t: TargetWeight) => t.asset.currentValue
  }

  /** What each position gains is what is paid for it, less what its sale brings in. */
  lemma {:induction false} SettledPositions(allocations: seq<PlannedAllocation>)
    ensures Sum(SettledTargets(allocations), PositionOf())
         == Sum(AsTargets(allocations), PositionOf()) + Sum(allocations, BuyCostOf()) - Sum(allocations, SaleValueOf())
  {
    hide Cost;
    if allocations != [] {
      var init, a := allocations[..|allocations| - 1], allocations[|allocations| - 1];
      SettledPositions(init);
      SumSnoc(SettledTargets(init), SettledTarget(a), PositionOf());
      SumSnoc(AsTargets(init), AsTarget(a), PositionOf());
      assert AsTargets(allocations) == AsTargets(init) + [AsTarget(a)];
    }
  }

  /**
   * Carrying a plan out at its own prices conserves the portfolio: the cash and the positions of the targets are worth
   * together what they were before. So a value that is their sum is the same for the next plan.
   */
  lemma WorthConserved(opt: OptimizationResult, c: Constraints, value: real, cash: real)
    requires value > 0.0 && DistinctTargets(opt.targets)
    ensures var r := Planned(opt, c, value, cash);
            SettledCash(r, cash) + Sum(AfterPlan(opt, r).targets, PositionOf()) == cash + Sum(opt.targets, PositionOf())
  {
    hide Sum, AfterPlan, BuyCostOf, SaleValueOf, PositionOf;
    var r := Planned(opt, c, value, cash);
    AfterPlanRanked(opt, c, value, cash);
    FoldTargets(Sorted(opt.targets), c, value, Spendable(opt.cashWeight, value, cash));
    SettledPositions(r.allocations);
    SortedPermutes(opt.targets);
    SumPermutation(opt.targets, Sorted(opt.targets), PositionOf());
    SortedPermutes(AfterPlan(opt, r).targets);
    SumPermutation(AfterPlan(opt, r).targets, SettledTargets(r.allocations), PositionOf());
  }

  /**
   * Convergence: after the first plan has been carried out at its prices the second plan only buys
   * (from what the sales brought in), and once that is carried out a third plan holds everything.
   */
  lemma ReplanningConverges(opt: OptimizationResult, c: Constraints, value: real, cash: real)
    requires value > 0.0 && ValidTargets(opt.targets) && DistinctTargets(opt.targets)
    ensures var first := Planned(opt, c, value, cash);
            var cash2 := SettledCash(first, cash);
            var opt2 := AfterPlan(opt, first);
            var second := Planned(opt2, c, value, cash2);
            var third := Planned(AfterPlan(opt2, second), c, value, SettledCash(second, cash2));
            NoSales(second.allocations) && AllHold(third.allocations)
  {
    var first := Planned(opt, c, value, cash);
    var cash2 := SettledCash(first, cash);
    AfterPlanValid(opt, c, value, cash);
    SecondPlanNeverSells(opt, c, value, cash, cash2);
    BuyOnlyPlanIsFinal(AfterPlan(opt, first), c, value, cash2);
  }
}
