/**
 * The closed form of the optimizer's redistribution loop: a single water level, with every
 * candidate filled to `min(cap, level * score)`.  Uniqueness, order-independence, monotonicity in
 * the investable weight and max-min fairness are proved here, about the closed form only.
 */
module WaterFilling {
  import opened Wrappers
  import opened Sums
  import opened Portfolio

  function Level(a: AssetInput, c: Constraints, level: real): real {
    Min(Cap(a, c), level * a.signalScore)
  }

  function LevelOf(c: Constraints, level: real): AssetInput -> real {
    a => Level(a, c, level)
  }

  function CapOf(c: Constraints): AssetInput -> real {
    a => Cap(a, c)
  }

  function ScoreOf(): AssetInput -> real {
    (a: AssetInput) => a.signalScore
  }

  function Investable(c: Constraints): real {
    1.0 - c.minCashWeight
  }

  predicate IsCandidate(a: AssetInput) {
    a.manualTargetWeight.None? && a.buyEnabled && a.signalScore > 0.0
  }

  function Candidates(assets: seq<AssetInput>): (r: seq<AssetInput>)
    ensures forall a :: a in r <==> a in assets && IsCandidate(a)
  {
    if assets == [] then []
    else
      var init, last := assets[..|assets| - 1], assets[|assets| - 1];
      assert assets == init + [last];
      if IsCandidate(last) then Candidates(init) + [last] else Candidates(init)
  }

  function ManualWeight(a: AssetInput, c: Constraints): real {
    if a.manualTargetWeight.Some? then Min(a.manualTargetWeight.value, Cap(a, c)) else 0.0
  }

  function ManualOf(c: Constraints): AssetInput -> real {
    a => ManualWeight(a, c)
  }

  /** The weight left for candidates once manual targets are placed. */
  function Budget(assets: seq<AssetInput>, c: Constraints): real {
    Investable(c) - Sum(assets, ManualOf(c))
  }

  /** `level` is a water level for `assets`: it exhausts the budget or fills every cap. */
  ghost predicate IsLevel(assets: seq<AssetInput>, c: Constraints, level: real) {
    && level >= 0.0
    && Sum(Candidates(assets), LevelOf(c, level))
       == Min(Budget(assets, c), Sum(Candidates(assets), CapOf(c)))
  }

  /** The weight of one asset at a water level. */
  function TargetAt(a: AssetInput, c: Constraints, level: real): real {
    if a.manualTargetWeight.Some? then ManualWeight(a, c)
    else if IsCandidate(a) then Level(a, c, level)
    else 0.0
  }

  function TargetOf(c: Constraints, level: real): AssetInput -> real {
    a => TargetAt(a, c, level)
  }

  /** What the optimizer must return. */
  ghost predicate WaterFilled(assets: seq<AssetInput>, c: Constraints, r: OptimizationResult) {
    && |r.targets| == |assets|
    && (forall i :: 0 <= i < |assets| ==> r.targets[i].asset == assets[i])
    && r.cashWeight == 1.0 - Sum(r.targets, WeightOf())
    && exists level :: FilledTo(assets, c, r, level)
  }

  ghost predicate FilledTo(assets: seq<AssetInput>, c: Constraints, r: OptimizationResult, level: real) {
    && IsLevel(assets, c, level)
    && forall t :: t in r.targets ==> t.weight == TargetAt(t.asset, c, level)
  }

  function WeightOf(): TargetWeight -> real {
    (t: TargetWeight) => t.weight
  }

  /** What `_validate` establishes. */
  ghost predicate ValidInput(assets: seq<AssetInput>, c: Constraints) {
    && 0.0 <= c.minCashWeight <= 1.0
    && 0.0 < c.maxPositionWeight <= 1.0
    && DistinctUids(assets)
    && (forall a :: a in assets ==> ValidAsset(a))
    && Sum(assets, RequestedOf()) <= Investable(c)
  }

  function Requested(a: AssetInput): real {
    if a.manualTargetWeight.Some? then a.manualTargetWeight.value else 0.0
  }

  function RequestedOf(): AssetInput -> real {
    a => Requested(a)
  }

  ghost predicate Typed(assets: seq<AssetInput>) {
    forall a :: a in assets ==> WeightTyped(a)
  }

  // ---------------------------------------------------------------- levels

  lemma LevelMonotone(a: AssetInput, c: Constraints, low: real, high: real)
    requires low <= high && a.signalScore >= 0.0
    ensures Level(a, c, low) <= Level(a, c, high)
  {
    hide Cap;
    CappedMonotone(Cap(a, c), low, high, a.signalScore);
  }

  lemma CappedMonotone(cap: real, low: real, high: real, score: real)
    requires low <= high && score >= 0.0
    ensures Min(cap, low * score) <= Min(cap, high * score)
  {
    assert low * score <= high * score;
  }

  /** Two levels with the same total fill every candidate alike. */
  lemma SameTotalSameWeights(cs: seq<AssetInput>, c: Constraints, low: real, high: real, a: AssetInput)
    requires low <= high
    requires forall x :: x in cs ==> x.signalScore >= 0.0
    requires Sum(cs, LevelOf(c, high)) <= Sum(cs, LevelOf(c, low))
    requires a in cs
    ensures Level(a, c, low) == Level(a, c, high)
  {
    forall x | x in cs ensures LevelOf(c, low)(x) <= LevelOf(c, high)(x) {
      LevelMonotone(x, c, low, high);
    }
    if Level(a, c, low) != Level(a, c, high) {
      SumStrict(cs, LevelOf(c, low), LevelOf(c, high), a);
    }
  }

  /** A larger total never means a smaller weight for any candidate. */
  lemma LargerTotalLargerWeights(cs: seq<AssetInput>, c: Constraints, l1: real, l2: real, a: AssetInput)
    requires forall x :: x in cs ==> x.signalScore >= 0.0
    requires Sum(cs, LevelOf(c, l1)) <= Sum(cs, LevelOf(c, l2))
    requires a in cs
    ensures Level(a, c, l1) <= Level(a, c, l2)
  {
    if l1 <= l2 {
      LevelMonotone(a, c, l1, l2);
    } else {
      SameTotalSameWeights(cs, c, l2, l1, a);
    }
  }

  lemma {:induction false} CandidatesSum(assets: seq<AssetInput>, f: AssetInput -> real, g: AssetInput -> real)
    requires forall a :: a in assets ==> g(a) == if IsCandidate(a) then f(a) else 0.0
    ensures Sum(Candidates(assets), f) == Sum(assets, g)
  {
    if assets != [] {
      var init, last := assets[..|assets| - 1], assets[|assets| - 1];
      assert last in assets;
      CandidatesSum(init, f, g);
      SumSnoc(Candidates(init), last, f);
    }
  }

  function OnCandidates(f: AssetInput -> real): AssetInput -> real {
    a => if IsCandidate(a) then f(a) else 0.0
  }

  /** Sums over the candidates do not depend on the order of the assets. */
  lemma CandidatesSumPermutation(xs: seq<AssetInput>, ys: seq<AssetInput>, f: AssetInput -> real)
    requires multiset(xs) == multiset(ys)
    ensures Sum(Candidates(xs), f) == Sum(Candidates(ys), f)
  {
    CandidatesSum(xs, f, OnCandidates(f));
    CandidatesSum(ys, f, OnCandidates(f));
    SumPermutation(xs, ys, OnCandidates(f));
  }

  // --------------------------------------------------------- main results

  /**
   * The allocation depends only on the collection of assets: any two results that meet the closed
   * form for permuted inputs give every asset the same weight.  With `ys == xs` this is uniqueness.
   */
  lemma OrderFreeAndUnique(xs: seq<AssetInput>, ys: seq<AssetInput>, c: Constraints,
                           r: OptimizationResult, s: OptimizationResult,
                           t: TargetWeight, u: TargetWeight)
    requires multiset(xs) == multiset(ys) && ValidInput(xs, c)
    requires WaterFilled(xs, c, r) && WaterFilled(ys, c, s)
    requires t in r.targets && u in s.targets && t.asset == u.asset
    ensures t.weight == u.weight
  {
    var l1 :| FilledTo(xs, c, r, l1);
    var l2 :| FilledTo(ys, c, s, l2);
    CandidatesSumPermutation(xs, ys, LevelOf(c, l2));
    CandidatesSumPermutation(xs, ys, CapOf(c));
    SumPermutation(xs, ys, ManualOf(c));
    assert t.asset in xs;
    if IsCandidate(t.asset) {
      LargerTotalLargerWeights(Candidates(xs), c, l1, l2, t.asset);
      LargerTotalLargerWeights(Candidates(xs), c, l2, l1, t.asset);
    }
  }

  /** Asking for a larger cash reserve never raises any weight, and leaves manual targets alone. */
  lemma LargerReserveNeverRaisesAWeight(assets: seq<AssetInput>, c: Constraints, d: Constraints,
                                        r: OptimizationResult, s: OptimizationResult,
                                        t: TargetWeight, u: TargetWeight)
    requires ValidInput(assets, c) && ValidInput(assets, d)
    requires d == c.(minCashWeight := d.minCashWeight) && c.minCashWeight <= d.minCashWeight
    requires WaterFilled(assets, c, r) && WaterFilled(assets, d, s)
    requires t in r.targets && u in s.targets && t.asset == u.asset
    ensures u.weight <= t.weight
    ensures t.asset.manualTargetWeight.Some? ==> u.weight == t.weight
  {
    var l1 :| FilledTo(assets, c, r, l1);
    var l2 :| FilledTo(assets, d, s, l2);
    assert t.asset in assets;
    var cs := Candidates(assets);
    SumEqual(assets, ManualOf(c), ManualOf(d));
    SumEqual(cs, CapOf(c), CapOf(d));
    SumEqual(cs, LevelOf(c, l2), LevelOf(d, l2));
    if IsCandidate(t.asset) {
      LargerTotalLargerWeights(cs, c, l2, l1, t.asset);
    }
  }

  /** Two candidates below their caps hold the same weight per unit of score. */
  lemma EqualWeightPerScore(assets: seq<AssetInput>, c: Constraints, r: OptimizationResult,
                            t: TargetWeight, u: TargetWeight)
    requires WaterFilled(assets, c, r) && t in r.targets && u in r.targets
    requires IsCandidate(t.asset) && IsCandidate(u.asset)
    requires t.weight < Cap(t.asset, c) && u.weight < Cap(u.asset, c)
    ensures t.weight * u.asset.signalScore == u.weight * t.asset.signalScore
  {
    hide Cap, IsLevel;
    var level :| FilledTo(assets, c, r, level);
    var x, y := t.asset.signalScore, u.asset.signalScore;
    assert t.weight == level * x && u.weight == level * y;
    assert (level * x) * y == (level * y) * x;
  }

  /** A feasible way of handing out the budget: within every cap, not more than the budget in all. */
  ghost predicate Feasible(assets: seq<AssetInput>, c: Constraints, f: AssetInput -> real) {
    && (forall a :: a in Candidates(assets) ==> 0.0 <= f(a) <= Cap(a, c))
    && Sum(Candidates(assets), f) <= Budget(assets, c)
  }

  /** A candidate below its cap means that the whole budget has been handed out. */
  lemma CapsNotAllReached(assets: seq<AssetInput>, c: Constraints, level: real, a: AssetInput)
    requires IsLevel(assets, c, level)
    requires a in Candidates(assets) && Level(a, c, level) < Cap(a, c)
    ensures Sum(Candidates(assets), LevelOf(c, level)) == Budget(assets, c)
  {
    SumStrict(Candidates(assets), LevelOf(c, level), CapOf(c), a);
  }

  /**
   * Max-min fairness: no feasible allocation gives one candidate more without taking weight from
   * another candidate whose weight per unit of score was no larger.
   */
  lemma MaxMinFair(assets: seq<AssetInput>, c: Constraints, level: real,
                   f: AssetInput -> real, a: AssetInput) returns (b: AssetInput)
    requires IsLevel(assets, c, level)
    requires Feasible(assets, c, f)
    requires a in Candidates(assets) && f(a) > Level(a, c, level)
    ensures b in Candidates(assets) && f(b) < Level(b, c, level)
    ensures NoMorePerScore(b, a, c, level)
  {
    BelowCap(a, c, level);
    CapsNotAllReached(assets, c, level, a);
    b := SumTradeOff(Candidates(assets), f, LevelOf(c, level), a);
    PerScore(b, a, c, level);
  }

  /** At this level `b` holds no more weight per unit of score than `a` (cross-multiplied). */
  ghost predicate NoMorePerScore(b: AssetInput, a: AssetInput, c: Constraints, level: real) {
    Level(b, c, level) * a.signalScore <= Level(a, c, level) * b.signalScore
  }

  lemma BelowCap(a: AssetInput, c: Constraints, level: real)
    requires Level(a, c, level) < Cap(a, c)
    ensures Level(a, c, level) == level * a.signalScore
  {
  }

  lemma PerScore(b: AssetInput, a: AssetInput, c: Constraints, level: real)
    requires Level(a, c, level) == level * a.signalScore
    requires a.signalScore >= 0.0
    ensures NoMorePerScore(b, a, c, level)
  {
    var w, sb, sa := Level(b, c, level), b.signalScore, a.signalScore;
    assert w <= level * sb;
    assert w * sa <= (level * sb) * sa;
    assert (level * sb) * sa == (level * sa) * sb;
  }

  // ---------------------------------------------------------------- who is given how much

  /** In plain terms: an asset that is to get weight in proportion to its score. */
  predicate Served(a: AssetInput) {
    a.manualTargetWeight.None? && a.buyEnabled && a.signalScore > 0.0
  }

  /** In plain terms: below the common limit of a position and, if it has one, below its own. */
  predicate BelowLimits(t: TargetWeight, c: Constraints) {
    && t.weight < c.maxPositionWeight
    && (t.asset.maxWeight.None? || t.asset.maxWeight.value == 0.0 || t.weight < t.asset.maxWeight.value)
  }

  /** Not above the limits. */
  predicate WithinLimits(t: TargetWeight, c: Constraints) {
    && t.weight <= c.maxPositionWeight
    && (t.asset.maxWeight.None? || t.asset.maxWeight.value == 0.0 || t.weight <= t.asset.maxWeight.value)
  }

  /** A manual target is placed as it is, or cut to the smaller of the limits. */
  predicate PlacedByHand(t: TargetWeight, c: Constraints) {
    t.asset.manualTargetWeight.Some? ==>
      && WithinLimits(t, c) && t.weight <= t.asset.manualTargetWeight.value
      && (t.weight == t.asset.manualTargetWeight.value || !BelowLimits(t, c))
  }

  /**
   * The result in terms of inputs and outputs alone: manual targets are placed up to the limits; nothing else but a
   * buyable asset with a positive score gets weight; these get it in proportion to their scores, one at its limit no
   * more per score than one below; and as long as one is below its limits, no cash is kept beyond the required.
   */
  ghost predicate FairlyFilled(assets: seq<AssetInput>, c: Constraints, r: OptimizationResult) {
    && |r.targets| == |assets| && (forall i :: 0 <= i < |assets| ==> r.targets[i].asset == assets[i])
    && (forall t :: t in r.targets ==> 0.0 <= t.weight && WithinLimits(t, c) && PlacedByHand(t, c))
    && (forall t :: t in r.targets && t.asset.manualTargetWeight.None? && !Served(t.asset) ==> t.weight == 0.0)
    && (forall t :: t in r.targets && Served(t.asset) && BelowLimits(t, c) ==> r.cashWeight == c.minCashWeight)
    && (forall t, u :: t in r.targets && u in r.targets && Served(t.asset) && Served(u.asset) && BelowLimits(u, c) ==>
          t.weight * u.asset.signalScore <= u.weight * t.asset.signalScore)
  }

  lemma LimitsAreCap(a: AssetInput, c: Constraints, weight: real)
    requires WeightTyped(a) && 0.0 < c.maxPositionWeight <= 1.0
    ensures WithinLimits(TargetWeight(a, weight), c) <==> weight <= Cap(a, c)
    ensures BelowLimits(TargetWeight(a, weight), c) <==> weight < Cap(a, c)
  {
  }

  lemma FilledShare(t: TargetWeight, u: TargetWeight, c: Constraints, level: real)
    requires t.asset.signalScore > 0.0 && u.asset.signalScore > 0.0
    requires t.weight == Level(t.asset, c, level) && u.weight == Level(u.asset, c, level) && u.weight < Cap(u.asset, c)
    ensures t.weight * u.asset.signalScore <= u.weight * t.asset.signalScore
  {
    hide Cap;
    var x, y := t.asset.signalScore, u.asset.signalScore;
    assert t.weight <= level * x && u.weight == level * y;
    LessScaled(t.weight, level * x, y);
    assert (level * x) * y == (level * y) * x;
  }

  lemma LessScaled(x: real, y: real, k: real)
    requires x <= y && k >= 0.0
    ensures x * k <= y * k
  {
  }
}
