/** The optimizer: validation, manual targets, then the proportional capped redistribution loop. */
module PortfolioOptimizer {
  import opened Wrappers
  import opened Sums
  import opened Portfolio
  import opened WaterFilling

  function Uids(assets: seq<AssetInput>): set<string> {
    set i | 0 <= i < |assets| :: assets[i].uid
  }

  function Validate(assets: seq<AssetInput>, c: Constraints): Option<OptimizationError> {
    if !(0.0 <= c.minCashWeight <= 1.0) then Some(BadMinCashWeight)
    else if !(0.0 < c.maxPositionWeight <= 1.0) then Some(BadMaxPositionWeight)
    else if |Uids(assets)| != |assets| then Some(DuplicateInstrument)
    else if exists a :: a in assets && (a.price <= 0.0 || a.lotSize <= 0) then Some(BadPriceOrLot)
    else if exists a :: a in assets && (a.currentValue < 0.0 || a.currentLots < 0) then Some(NegativePosition)
    else if exists a :: a in assets && !(0.0 <= a.signalScore <= 1.0) then Some(BadSignalScore)
    else if Sum(assets, RequestedOf()) > 1.0 - c.minCashWeight then Some(ManualTargetsExceedInvestable)
    else None
  }

  lemma {:induction false} UidsCardinality(assets: seq<AssetInput>)
    ensures |Uids(assets)| <= |assets|
    ensures |Uids(assets)| == |assets| <==> DistinctUids(assets)
  {
    if assets != [] {
      var init, last := assets[..|assets| - 1], assets[|assets| - 1];
      assert assets == init + [last];
      UidsCardinality(init);
      assert Uids(assets) == Uids(init) + {last.uid};
      if last.uid in Uids(init) {
        assert Uids(assets) == Uids(init);
        var i :| 0 <= i < |init| && init[i].uid == last.uid;
        assert assets[i].uid == assets[|assets| - 1].uid;
      }
    }
  }

  /** Validation accepts exactly the inputs on which the closed form is defined. */
  lemma ValidateExact(assets: seq<AssetInput>, c: Constraints)
    ensures Validate(assets, c).None? <==> ValidInput(assets, c)
  {
    UidsCardinality(assets);
    if Validate(assets, c).None? {
      forall a | a in assets ensures ValidAsset(a) {
      }
    }
  }

  /** The weight asked for by hand. */
  function ByHand(a: AssetInput): real {
    match a.manualTargetWeight
    case Some(weight) => weight
    case None => 0.0
  }

  function ByHandOf(): AssetInput -> real {
    (a: AssetInput) => ByHand(a)
  }

  /** What each error complains of. */
  ghost predicate Complains(e: OptimizationError, assets: seq<AssetInput>, c: Constraints) {
    match e
    case BadMinCashWeight => c.minCashWeight < 0.0 || c.minCashWeight > 1.0
    case BadMaxPositionWeight => c.maxPositionWeight <= 0.0 || c.maxPositionWeight > 1.0
    case DuplicateInstrument => exists i, j :: 0 <= i < j < |assets| && assets[i].uid == assets[j].uid
    case BadPriceOrLot => exists a :: a in assets && !(a.price > 0.0 && a.lotSize > 0)
    case NegativePosition => exists a :: a in assets && !(a.currentValue >= 0.0 && a.currentLots >= 0)
    case BadSignalScore => exists a :: a in assets && (a.signalScore < 0.0 || a.signalScore > 1.0)
    case ManualTargetsExceedInvestable => Sum(assets, ByHandOf()) + c.minCashWeight > 1.0
    case BadPortfolioValue => false
  }

  /** The order in which validation looks for them. */
  function ErrorRank(e: OptimizationError): nat {
    match e
    case BadMinCashWeight => 0
    case BadMaxPositionWeight => 1
    case DuplicateInstrument => 2
    case BadPriceOrLot => 3
    case NegativePosition => 4
    case BadSignalScore => 5
    case ManualTargetsExceedInvestable => 6
    case BadPortfolioValue => 7
  }

  /** Validation reports the first complaint there is, and none exactly if there is none. */
  lemma FirstComplaint(assets: seq<AssetInput>, c: Constraints, e: OptimizationError)
    ensures Validate(assets, c) == Some(e) <==>
              Complains(e, assets, c) && forall d :: ErrorRank(d) < ErrorRank(e) ==> !Complains(d, assets, c)
    ensures Validate(assets, c).None? ==> !Complains(e, assets, c)
  {
    hide Sum;
    UidsCardinality(assets);
    SumEqual(assets, ByHandOf(), RequestedOf());
    var found := Validate(assets, c);
    assert found.Some? ==> Complains(found.value, assets, c)
                           && forall d :: ErrorRank(d) < ErrorRank(found.value) ==> !Complains(d, assets, c);
    assert found.None? ==> forall d :: !Complains(d, assets, c);
    ErrorsRanked(e);
  }

  lemma ErrorsRanked(e: OptimizationError)
    ensures forall d :: ErrorRank(d) == ErrorRank(e) ==> d == e
  {
  }

  function WeightsOf(weights: map<string, real>): AssetInput -> real {
    (a: AssetInput) => if a.uid in weights then weights[a.uid] else 0.0
  }

  /** The candidates still below their cap at a level: the next round's participants. */
  function Below(cs: seq<AssetInput>, c: Constraints, level: real): (r: seq<AssetInput>)
    ensures |r| <= |cs|
    ensures forall a :: a in r <==> a in cs && Level(a, c, level) < Cap(a, c)
  {
    if cs == [] then []
    else
      var init, last := cs[..|cs| - 1], cs[|cs| - 1];
      assert cs == init + [last];
      if Level(last, c, level) < Cap(last, c) then Below(init, c, level) + [last] else Below(init, c, level)
  }

  lemma BelowSnoc(cs: seq<AssetInput>, a: AssetInput, c: Constraints, level: real)
    ensures Below(cs + [a], c, level)
         == if Level(a, c, level) < Cap(a, c) then Below(cs, c, level) + [a] else Below(cs, c, level)
  {
    assert (cs + [a])[..|cs|] == cs;
  }

  /** Raising the level only removes assets, so filtering in rounds is filtering once. */
  lemma {:induction false} BelowBelow(cs: seq<AssetInput>, c: Constraints, low: real, high: real)
    requires low <= high && forall a :: a in cs ==> a.signalScore > 0.0
    ensures Below(Below(cs, c, low), c, high) == Below(cs, c, high)
  {
    if cs != [] {
      var init, last := cs[..|cs| - 1], cs[|cs| - 1];
      assert last in cs;
      BelowBelow(init, c, low, high);
      BelowSnoc(Below(init, c, low), last, c, high);
      LevelMonotone(last, c, low, high);
    }
  }

  lemma {:induction false} BelowShorter(cs: seq<AssetInput>, c: Constraints, level: real)
    ensures |Below(cs, c, level)| == |cs| ==> forall a :: a in cs ==> Level(a, c, level) < Cap(a, c)
  {
    if cs != [] {
      assert cs == cs[..|cs| - 1] + [cs[|cs| - 1]];
      BelowShorter(cs[..|cs| - 1], c, level);
    }
  }

  lemma DistinctSnoc(xs: seq<AssetInput>, init: seq<AssetInput>, r: seq<AssetInput>)
    requires xs != [] && init == xs[..|xs| - 1] && DistinctUids(xs)
    requires DistinctUids(r) && forall a :: a in r ==> a in init
    ensures DistinctUids(r + [xs[|xs| - 1]])
  {
    forall i | 0 <= i < |r| ensures r[i].uid != xs[|xs| - 1].uid {
      assert r[i] in init;
    }
  }

  lemma {:induction false} CandidatesDistinct(assets: seq<AssetInput>)
    requires DistinctUids(assets)
    ensures DistinctUids(Candidates(assets))
  {
    if assets != [] {
      var init := assets[..|assets| - 1];
      CandidatesDistinct(init);
      DistinctSnoc(assets, init, Candidates(init));
    }
  }

  lemma {:induction false} BelowDistinct(cs: seq<AssetInput>, c: Constraints, level: real)
    requires DistinctUids(cs)
    ensures DistinctUids(Below(cs, c, level))
  {
    hide Level, Cap;
    if cs != [] {
      var init := cs[..|cs| - 1];
      BelowDistinct(init, c, level);
      DistinctSnoc(cs, init, Below(init, c, level));
    }
  }

  /** Assets already at their cap contribute nothing to the rise of the total. */
  lemma {:induction false} RiseOnlyBelow(cs: seq<AssetInput>, c: Constraints, low: real, high: real)
    requires low <= high && forall a :: a in cs ==> a.signalScore > 0.0
    ensures Sum(cs, LevelOf(c, high)) - Sum(cs, LevelOf(c, low))
         == Sum(Below(cs, c, low), LevelOf(c, high)) - Sum(Below(cs, c, low), LevelOf(c, low))
  {
    if cs != [] {
      var init, last := cs[..|cs| - 1], cs[|cs| - 1];
      assert last in cs;
      RiseOnlyBelow(init, c, low, high);
      LevelMonotone(last, c, low, high);
      SumSnoc(Below(init, c, low), last, LevelOf(c, high));
      SumSnoc(Below(init, c, low), last, LevelOf(c, low));
    }
  }

  /** `remaining * score / score_sum` */
  function Share(a: AssetInput, remaining: real, scoreSum: real): real
    requires scoreSum > 0.0
  {
    remaining * a.signalScore / scoreSum
  }

  /** What an uncapped asset holding its level is given in a round. */
  function Given(a: AssetInput, c: Constraints, held: real, remaining: real, scoreSum: real): real
    requires scoreSum > 0.0
  {
    Min(Share(a, remaining, scoreSum), Max(0.0, Cap(a, c) - held))
  }

  lemma ShareIsProportional(low: real, high: real, remaining: real, score: real, scoreSum: real)
    requires scoreSum > 0.0 && (high - low) * scoreSum == remaining
    ensures high * score == low * score + remaining * score / scoreSum
  {
    var step := high - low;
    assert remaining * score == step * score * scoreSum;
    assert remaining * score / scoreSum == step * score;
    assert high * score == low * score + step * score;
  }

  /** One asset's share of a round takes it exactly to the next level. */
  lemma ShareReachesLevel(a: AssetInput, c: Constraints, low: real, high: real, remaining: real, scoreSum: real)
    requires scoreSum > 0.0 && (high - low) * scoreSum == remaining && Level(a, c, low) < Cap(a, c)
    ensures Level(a, c, low) + Given(a, c, Level(a, c, low), remaining, scoreSum) == Level(a, c, high)
  {
    hide Cap;
    ShareIsProportional(low, high, remaining, a.signalScore, scoreSum);
  }

  /** One asset's rise between two levels is at most proportional to its score. */
  lemma RiseOfOne(a: AssetInput, c: Constraints, low: real, high: real)
    requires low <= high && a.signalScore > 0.0 && Level(a, c, low) < Cap(a, c)
    ensures Level(a, c, high) - Level(a, c, low) <= Times(high - low, a.signalScore)
    ensures Level(a, c, high) < Cap(a, c) ==> Level(a, c, high) - Level(a, c, low) == Times(high - low, a.signalScore)
    ensures low < high ==> Level(a, c, low) < Level(a, c, high)
  {
    hide Cap;
    var x, y := low * a.signalScore, high * a.signalScore;
    assert (high - low) * a.signalScore == y - x;
    if low < high {
      assert x < y;
    }
  }

  /** In one round the total rises at most proportionally, and exactly so when no cap is hit. */
  lemma {:induction false} RiseBounded(cs: seq<AssetInput>, c: Constraints, low: real, high: real)
    requires low <= high
    requires forall a :: a in cs ==> a.signalScore > 0.0 && Level(a, c, low) < Cap(a, c)
    ensures Sum(cs, LevelOf(c, high)) - Sum(cs, LevelOf(c, low)) <= Times(high - low, Sum(cs, ScoreOf()))
    ensures (forall a :: a in cs ==> Level(a, c, high) < Cap(a, c)) ==>
              Sum(cs, LevelOf(c, high)) - Sum(cs, LevelOf(c, low)) == Times(high - low, Sum(cs, ScoreOf()))
  {
    hide Level, Cap, Times;
    if cs == [] {
      TimesZero(high - low);
    } else {
      var init, last := cs[..|cs| - 1], cs[|cs| - 1];
      assert last in cs;
      RiseBounded(init, c, low, high);
      RiseOfOne(last, c, low, high);
      Distribute(high - low, Sum(init, ScoreOf()), last.signalScore);
    }
  }

  lemma RisePositive(cs: seq<AssetInput>, c: Constraints, low: real, high: real)
    requires low < high && cs != []
    requires forall a :: a in cs ==> a.signalScore > 0.0 && Level(a, c, low) < Cap(a, c)
    ensures Sum(cs, LevelOf(c, low)) < Sum(cs, LevelOf(c, high))
  {
    hide Level, Cap;
    forall a | a in cs ensures LevelOf(c, low)(a) < LevelOf(c, high)(a) {
      RiseOfOne(a, c, low, high);
    }
    SumStrict(cs, LevelOf(c, low), LevelOf(c, high), cs[0]);
  }

  lemma ScoreSumPositive(cs: seq<AssetInput>)
    requires cs != [] && forall a :: a in cs ==> a.signalScore > 0.0
    ensures Sum(cs, ScoreOf()) > 0.0
  {
    var zero := (a: AssetInput) => 0.0;
    SumScale(cs, ScoreOf(), 0.0, zero);
    SumStrict(cs, zero, ScoreOf(), cs[0]);
  }

  ghost predicate Holds(assets: seq<AssetInput>, weights: map<string, real>, f: AssetInput -> real) {
    forall a :: a in assets ==> a.uid in weights && weights[a.uid] == f(a)
  }

  ghost predicate Touched(assets: seq<AssetInput>, uid: string) {
    exists a :: a in assets && a.uid == uid
  }

  /** `after` differs from `before` at the given assets only. */
  ghost predicate OthersKept(assets: seq<AssetInput>, before: map<string, real>, after: map<string, real>) {
    forall uid :: uid in before && !Touched(assets, uid) ==> uid in after && after[uid] == before[uid]
  }

  lemma HoldsUpdate(assets: seq<AssetInput>, i: nat, weights: map<string, real>, w: real,
                    low: AssetInput -> real, high: AssetInput -> real)
    requires i < |assets| && DistinctUids(assets)
    requires Holds(assets[..i], weights, high) && Holds(assets[i..], weights, low)
    requires w == high(assets[i])
    ensures var after := weights[assets[i].uid := w];
            Holds(assets[..i + 1], after, high) && Holds(assets[i + 1..], after, low)
  {
    var after := weights[assets[i].uid := w];
    forall a | a in assets[..i + 1] ensures a.uid in after && after[a.uid] == high(a) {
      var j :| 0 <= j < i + 1 && assets[j] == a;
      if j < i {
        assert a in assets[..i];
      }
    }
    forall a | a in assets[i + 1..] ensures a.uid in after && after[a.uid] == low(a) {
      var j :| i + 1 <= j < |assets| && assets[j] == a;
      assert a in assets[i..];
    }
  }

  lemma IsTouched(assets: seq<AssetInput>, a: AssetInput)
    requires a in assets
    ensures Touched(assets, a.uid)
  {
  }

  lemma HandOutStarts(cs: seq<AssetInput>, c: Constraints, low: real, high: real)
    ensures Below(cs[..0], c, high) == []
    ensures Sum(cs[..0], LevelOf(c, high)) == Sum(cs[..0], LevelOf(c, low)) == 0.0
  {
  }

  /** The inner `for` loop: one proportional hand-out of `remaining` among the uncapped assets. */
  method HandOut(uncapped: seq<AssetInput>, before: map<string, real>, remaining: real, scoreSum: real,
                 c: Constraints, ghost low: real, ghost high: real)
    returns (weights: map<string, real>, distributed: real, nextRound: seq<AssetInput>)
    requires scoreSum > 0.0 && (high - low) * scoreSum == remaining
    requires DistinctUids(uncapped) && Holds(uncapped, before, LevelOf(c, low))
    requires forall a :: a in uncapped ==> Level(a, c, low) < Cap(a, c)
    ensures Holds(uncapped, weights, LevelOf(c, high))
    ensures OthersKept(uncapped, before, weights)
    ensures distributed == Sum(uncapped, LevelOf(c, high)) - Sum(uncapped, LevelOf(c, low))
    ensures nextRound == Below(uncapped, c, high)
  {
    hide Level, Cap, Given, Below, Sum, Touched;
    HandOutStarts(uncapped, c, low, high);
    weights, distributed, nextRound := before, 0.0, [];
    for i := 0 to |uncapped|
      invariant Holds(uncapped[..i], weights, LevelOf(c, high))
      invariant Holds(uncapped[i..], weights, LevelOf(c, low))
      invariant OthersKept(uncapped, before, weights)
      invariant distributed == Sum(uncapped[..i], LevelOf(c, high)) - Sum(uncapped[..i], LevelOf(c, low))
      invariant nextRound == Below(uncapped[..i], c, high)
    {
      var asset := uncapped[i];
      assert asset in uncapped && asset in uncapped[i..];
      IsTouched(uncapped, asset);
      var share := Given(asset, c, weights[asset.uid], remaining, scoreSum);
      ShareReachesLevel(asset, c, low, high, remaining, scoreSum);
      var filled := weights[asset.uid] + share;
      HoldsUpdate(uncapped, i, weights, filled, LevelOf(c, low), LevelOf(c, high));
      assert uncapped[..i + 1] == uncapped[..i] + [asset];
      SumSnoc(uncapped[..i], asset, LevelOf(c, high));
      SumSnoc(uncapped[..i], asset, LevelOf(c, low));
      BelowSnoc(uncapped[..i], asset, c, high);
      weights := weights[asset.uid := filled];
      distributed := distributed + share;
      if weights[asset.uid] < Cap(asset, c) {
        nextRound := nextRound + [asset];
      }
    }
    assert uncapped[..|uncapped|] == uncapped;
  }

  /** All weights start at zero; manual targets are then placed, capped. */
  method PlaceManual(assets: seq<AssetInput>, c: Constraints) returns (weights: map<string, real>)
    requires DistinctUids(assets)
    ensures Holds(assets, weights, ManualOf(c))
  {
    hide Cap;
    var zero := (a: AssetInput) => 0.0;
    weights := map i | 0 <= i < |assets| :: assets[i].uid := 0.0;
    for i := 0 to |assets|
      invariant Holds(assets[..i], weights, ManualOf(c))
      invariant Holds(assets[i..], weights, zero)
    {
      var asset := assets[i];
      assert asset in assets[i..];
      HoldsUpdate(assets, i, weights, ManualWeight(asset, c), zero, ManualOf(c));
      if asset.manualTargetWeight.Some? {
        weights := weights[asset.uid := Min(asset.manualTargetWeight.value, Cap(asset, c))];
      } else {
        assert weights[asset.uid := 0.0] == weights;
      }
    }
    assert assets[..|assets|] == assets;
  }

  /** The weights stand at some water level that exhausts the budget or fills every cap. */
  ghost predicate Filled(assets: seq<AssetInput>, c: Constraints, weights: map<string, real>) {
    exists level :: IsLevel(assets, c, level) && Holds(assets, weights, TargetOf(c, level))
  }

  /** The `while` loop over rounds, with the number of rounds it takes. */
  method Redistribute(assets: seq<AssetInput>, c: Constraints, placed: map<string, real>, budget: real)
    returns (weights: map<string, real>, ghost level: real, ghost rounds: nat)
    requires Typed(assets) && ValidInput(assets, c)
    requires budget == Budget(assets, c)
    requires Holds(assets, placed, ManualOf(c))
    ensures Filled(assets, c, weights)
    ensures IsLevel(assets, c, level) && Holds(assets, weights, TargetOf(c, level))
    ensures rounds <= |Candidates(assets)|
  {
    hide *;
    var candidates := Candidates(assets);
    StartingState(assets, c, placed);
    weights, level, rounds := placed, 0.0, 0;
    var remaining := budget;
    var uncapped := candidates;
    while remaining > 0.0 && uncapped != []
      invariant level >= 0.0 && 0.0 <= remaining == budget - Sum(candidates, LevelOf(c, level))
      invariant uncapped == Below(candidates, c, level)
      invariant Holds(assets, weights, TargetOf(c, level))
      invariant rounds + |uncapped| <= |candidates| || (remaining == 0.0 && rounds <= |candidates|)
      decreases |uncapped|, remaining > 0.0
    {
      ScoreSumPositive(uncapped);
      var scoreSum := Sum(uncapped, ScoreOf());
      if scoreSum <= 0.0 {
        assert false;
        break;
      }
      ghost var high := NextLevel(level, remaining, scoreSum);
      BelowDistinct(candidates, c, level);
      HoldsBelow(assets, c, level, weights);
      var handed, distributed, nextRound := HandOut(uncapped, weights, remaining, scoreSum, c, level, high);
      RoundFacts(candidates, c, level, high, remaining, scoreSum);
      if distributed <= 0.0 {
        assert false;
        break;
      }
      KeepTargets(assets, c, level, high, weights, handed);
      weights, level := handed, high;
      remaining := remaining - distributed;
      uncapped := nextRound;
      rounds := rounds + 1;
    }
    LevelReached(assets, c, level, remaining);
    IsFilled(assets, c, weights, level);
  }

  lemma IsFilled(assets: seq<AssetInput>, c: Constraints, weights: map<string, real>, level: real)
    requires IsLevel(assets, c, level) && Holds(assets, weights, TargetOf(c, level))
    ensures Filled(assets, c, weights)
  {
  }

  ghost function NextLevel(level: real, remaining: real, scoreSum: real): (high: real)
    requires remaining > 0.0 && scoreSum > 0.0
    ensures level < high && (high - level) * scoreSum == remaining
  {
    level + remaining / scoreSum
  }

  /** Before the first round every candidate is below its cap at level zero. */
  lemma StartingState(assets: seq<AssetInput>, c: Constraints, placed: map<string, real>)
    requires Typed(assets) && ValidInput(assets, c)
    requires Holds(assets, placed, ManualOf(c))
    ensures DistinctUids(assets) && DistinctUids(Candidates(assets))
    ensures forall a :: a in Candidates(assets) ==> a.signalScore > 0.0
    ensures Below(Candidates(assets), c, 0.0) == Candidates(assets)
    ensures Sum(Candidates(assets), LevelOf(c, 0.0)) == 0.0
    ensures Holds(assets, placed, TargetOf(c, 0.0))
    ensures Budget(assets, c) >= 0.0
  {
    CandidatesDistinct(assets);
    forall a | a in assets ensures Cap(a, c) > 0.0 && TargetAt(a, c, 0.0) == ManualWeight(a, c) {
      CapRange(a, c);
      assert 0.0 * a.signalScore == 0.0;
    }
    AllBelowAtZero(Candidates(assets), c);
    BudgetNonNegative(assets, c);
  }

  lemma HoldsBelow(assets: seq<AssetInput>, c: Constraints, level: real, weights: map<string, real>)
    requires Holds(assets, weights, TargetOf(c, level))
    ensures Holds(Below(Candidates(assets), c, level), weights, LevelOf(c, level))
  {
  }

  lemma AllBelowAtZero(cs: seq<AssetInput>, c: Constraints)
    requires forall a :: a in cs ==> Cap(a, c) > 0.0
    ensures Below(cs, c, 0.0) == cs
    ensures Sum(cs, LevelOf(c, 0.0)) == 0.0
  {
    if cs != [] {
      assert cs == cs[..|cs| - 1] + [cs[|cs| - 1]];
      AllBelowAtZero(cs[..|cs| - 1], c);
    }
  }

  lemma RoundFacts(cs: seq<AssetInput>, c: Constraints, low: real, high: real, remaining: real, scoreSum: real)
    requires forall a :: a in cs ==> a.signalScore > 0.0
    requires Below(cs, c, low) != [] && scoreSum == Sum(Below(cs, c, low), ScoreOf())
    requires low < high && (high - low) * scoreSum == remaining
    ensures var rise := Sum(cs, LevelOf(c, high)) - Sum(cs, LevelOf(c, low));
            && rise == Sum(Below(cs, c, low), LevelOf(c, high)) - Sum(Below(cs, c, low), LevelOf(c, low))
            && 0.0 < rise <= remaining
            && (rise == remaining || |Below(cs, c, high)| < |Below(cs, c, low)|)
    ensures Below(Below(cs, c, low), c, high) == Below(cs, c, high)
  {
    hide *;
    var participants := Below(cs, c, low);
    RiseOnlyBelow(cs, c, low, high);
    BelowBelow(cs, c, low, high);
    RisePositive(participants, c, low, high);
    RiseBounded(participants, c, low, high);
    TimesIs(high - low, scoreSum);
    BelowShorter(participants, c, high);
  }

  lemma KeepTargets(assets: seq<AssetInput>, c: Constraints, low: real, high: real,
                    before: map<string, real>, after: map<string, real>)
    requires DistinctUids(assets) && low <= high
    requires Holds(assets, before, TargetOf(c, low))
    requires Holds(Below(Candidates(assets), c, low), after, LevelOf(c, high))
    requires OthersKept(Below(Candidates(assets), c, low), before, after)
    ensures Holds(assets, after, TargetOf(c, high))
  {
    hide Level, Cap, TargetAt, Candidates, Below;
    forall a | a in assets ensures a.uid in after && after[a.uid] == TargetAt(a, c, high) {
      KeepTarget(assets, a, c, low, high);
      if a !in Below(Candidates(assets), c, low) {
        NotTouched(assets, a, c, low);
      }
    }
  }

  /** A participant is a candidate below its cap; everyone else keeps the target it has. */
  lemma KeepTarget(assets: seq<AssetInput>, a: AssetInput, c: Constraints, low: real, high: real)
    requires a in assets && low <= high
    ensures a in Below(Candidates(assets), c, low) ==> TargetAt(a, c, high) == Level(a, c, high)
    ensures a !in Below(Candidates(assets), c, low) ==> TargetAt(a, c, high) == TargetAt(a, c, low)
  {
    hide Level, Cap;
    if a !in Below(Candidates(assets), c, low) && IsCandidate(a) {
      FullStaysFull(a, c, low, high);
    }
  }

  lemma NotTouched(assets: seq<AssetInput>, a: AssetInput, c: Constraints, low: real)
    requires DistinctUids(assets) && a in assets && a !in Below(Candidates(assets), c, low)
    ensures !Touched(Below(Candidates(assets), c, low), a.uid)
  {
    hide Level, Cap, Candidates, Below;
    forall b | b in Below(Candidates(assets), c, low) ensures b.uid != a.uid {
      assert b in assets;
    }
  }

  lemma FullStaysFull(a: AssetInput, c: Constraints, low: real, high: real)
    requires low <= high && a.signalScore >= 0.0 && !(Level(a, c, low) < Cap(a, c))
    ensures Level(a, c, low) == Level(a, c, high)
  {
    LevelMonotone(a, c, low, high);
  }

  lemma LevelReached(assets: seq<AssetInput>, c: Constraints, level: real, remaining: real)
    requires level >= 0.0 && 0.0 <= remaining == Budget(assets, c) - Sum(Candidates(assets), LevelOf(c, level))
    requires remaining == 0.0 || Below(Candidates(assets), c, level) == []
    ensures IsLevel(assets, c, level)
  {
    var cs := Candidates(assets);
    SumMonotone(cs, LevelOf(c, level), CapOf(c));
    if Below(cs, c, level) == [] {
      forall a | a in cs ensures LevelOf(c, level)(a) == CapOf(c)(a) {
        assert a !in Below(cs, c, level);
      }
      SumEqual(cs, LevelOf(c, level), CapOf(c));
    }
  }

  lemma BudgetNonNegative(assets: seq<AssetInput>, c: Constraints)
    requires ValidInput(assets, c)
    ensures Budget(assets, c) >= 0.0
  {
    SumMonotone(assets, ManualOf(c), RequestedOf());
  }

  /** `optimize`: validation errors first, otherwise the water-filled targets in input order. */
  method Optimize(assets: seq<AssetInput>, c: Constraints)
    returns (r: Result<OptimizationResult, OptimizationError>, ghost rounds: nat)
    requires Typed(assets)
    ensures r.Failure? <==> !ValidInput(assets, c)
    ensures r.Failure? ==> Validate(assets, c) == Some(r.error)
    ensures r.Success? ==> WaterFilled(assets, c, r.value) && FairlyFilled(assets, c, r.value)
    ensures rounds <= |Candidates(assets)|
  {
    hide Level, Cap, ManualWeight, FairlyFilled;
    ValidateExact(assets, c);
    rounds := 0;
    var error := Validate(assets, c);
    if error.Some? {
      return Failure(error.value), 0;
    }
    var investable := 1.0 - c.minCashWeight;
    var placed := PlaceManual(assets, c);
    SumEqual(assets, WeightsOf(placed), ManualOf(c));
    var remaining := investable - Sum(assets, WeightsOf(placed));
    var weights;
    ghost var level;
    weights, level, rounds := Redistribute(assets, c, placed, remaining);
    var targets := seq(|assets|, i requires 0 <= i < |assets| && assets[i].uid in weights =>
                                   TargetWeight(assets[i], weights[assets[i].uid]));
    TotalsAgree(assets, targets, weights);
    var total := Sum(assets, WeightsOf(weights));
    r := Success(OptimizationResult(targets, 1.0 - total));
    assert FilledTo(assets, c, r.value, level);
    FilledFairly(assets, c, r.value);
  }

  lemma {:induction false} TotalsAgree(assets: seq<AssetInput>, targets: seq<TargetWeight>, weights: map<string, real>)
    requires |targets| == |assets|
    requires forall i :: 0 <= i < |assets| ==> assets[i].uid in weights && targets[i].weight == weights[assets[i].uid]
    ensures Sum(targets, WeightOf()) == Sum(assets, WeightsOf(weights))
  {
    if assets != [] {
      TotalsAgree(assets[..|assets| - 1], targets[..|targets| - 1], weights);
    }
  }

  // --------------------------------------------------------- limits of the result

  /** Long-only, capped, and with at least the required cash left. */
  lemma LimitsRespected(assets: seq<AssetInput>, c: Constraints, r: OptimizationResult)
    requires Typed(assets) && ValidInput(assets, c) && WaterFilled(assets, c, r)
    ensures forall t :: t in r.targets ==> 0.0 <= t.weight <= Cap(t.asset, c) <= c.maxPositionWeight
    ensures c.minCashWeight <= r.cashWeight <= 1.0
    ensures r.cashWeight == Max(c.minCashWeight,
              1.0 - Sum(assets, ManualOf(c)) - Sum(Candidates(assets), CapOf(c)))
  {
    hide Level, Cap, ManualWeight, TargetAt, ValidInput;
    var level :| FilledTo(assets, c, r, level);
    forall t | t in r.targets ensures 0.0 <= t.weight <= Cap(t.asset, c) <= c.maxPositionWeight {
      assert t.asset in assets;
      TargetWithin(assets, t.asset, c, level);
    }
    TotalAtLevel(assets, c, r, level);
    BudgetNonNegative(assets, c);
    SumNonNegative(r.targets, WeightOf());
    CapsPositive(assets, c);
  }

  lemma TargetWithin(assets: seq<AssetInput>, a: AssetInput, c: Constraints, level: real)
    requires Typed(assets) && ValidInput(assets, c) && a in assets && level >= 0.0
    ensures 0.0 <= TargetAt(a, c, level) <= Cap(a, c) <= c.maxPositionWeight
  {
    CapRange(a, c);
    assert ValidAsset(a);
    assert level * a.signalScore >= 0.0;
  }

  lemma TotalAtLevel(assets: seq<AssetInput>, c: Constraints, r: OptimizationResult, level: real)
    requires |r.targets| == |assets| && FilledTo(assets, c, r, level)
    requires forall i :: 0 <= i < |assets| ==> r.targets[i].asset == assets[i]
    ensures Sum(r.targets, WeightOf())
         == Sum(assets, ManualOf(c)) + Min(Budget(assets, c), Sum(Candidates(assets), CapOf(c)))
  {
    hide Level, Cap;
    CandidatesSum(assets, LevelOf(c, level), OnCandidates(LevelOf(c, level)));
    SumPlus(assets, ManualOf(c), OnCandidates(LevelOf(c, level)), TargetOf(c, level));
    TargetTotal(assets, r.targets, c, level);
  }

  lemma CapsPositive(assets: seq<AssetInput>, c: Constraints)
    requires Typed(assets) && ValidInput(assets, c)
    ensures Sum(Candidates(assets), CapOf(c)) >= 0.0
    ensures 0.0 <= c.minCashWeight <= 1.0
  {
    forall a | a in Candidates(assets) ensures CapOf(c)(a) >= 0.0 {
      CapRange(a, c);
    }
    SumNonNegative(Candidates(assets), CapOf(c));
  }

  lemma {:induction false} TargetTotal(assets: seq<AssetInput>, targets: seq<TargetWeight>, c: Constraints, level: real)
    requires |targets| == |assets|
    requires forall i :: 0 <= i < |assets| ==> targets[i].asset == assets[i]
    requires forall t :: t in targets ==> t.weight == TargetAt(t.asset, c, level)
    ensures Sum(targets, WeightOf()) == Sum(assets, TargetOf(c, level))
  {
    if assets != [] {
      var n := |assets| - 1;
      assert targets[n] in targets;
      TargetTotal(assets[..n], targets[..n], c, level);
    }
  }

  // --------------------------------------------------------- the result in plain terms

  lemma LevelRange(a: AssetInput, c: Constraints, level: real)
    requires WeightTyped(a) && ValidAsset(a) && 0.0 < c.maxPositionWeight <= 1.0 && level >= 0.0
    ensures 0.0 <= Level(a, c, level) <= Cap(a, c)
  {
    hide Cap, WeightTyped;
    CapRange(a, c);
    ProductNonNegative(level, a.signalScore);
  }

  lemma ProductNonNegative(x: real, y: real)
    requires x >= 0.0 && y >= 0.0
    ensures x * y >= 0.0
  {
  }

  lemma ManualInPlainTerms(a: AssetInput, c: Constraints)
    requires WeightTyped(a) && 0.0 < c.maxPositionWeight <= 1.0 && a.manualTargetWeight.Some?
    ensures var t := TargetWeight(a, ManualWeight(a, c)); PlacedByHand(t, c) && WithinLimits(t, c) && 0.0 <= t.weight
  {
    hide Cap, WithinLimits, BelowLimits;
    CapRange(a, c);
    LimitsAreCap(a, c, ManualWeight(a, c));
  }

  lemma TargetInPlainTerms(a: AssetInput, c: Constraints, level: real)
    requires WeightTyped(a) && ValidAsset(a) && 0.0 < c.maxPositionWeight <= 1.0 && level >= 0.0
    ensures var t := TargetWeight(a, TargetAt(a, c, level));
            && PlacedByHand(t, c) && WithinLimits(t, c) && 0.0 <= t.weight
            && (a.manualTargetWeight.None? && !Served(a) ==> t.weight == 0.0)
            && (Served(a) ==> t.weight == Level(a, c, level) && IsCandidate(a))
  {
    hide Cap, Level, WithinLimits, BelowLimits, ManualWeight, ValidAsset, WeightTyped;
    CapRange(a, c);
    LimitsAreCap(a, c, TargetAt(a, c, level));
    if a.manualTargetWeight.Some? {
      ManualInPlainTerms(a, c);
    } else {
      LevelRange(a, c, level);
    }
  }

  /** Every water-filled result gives each asset what it is due, told from inputs and outputs alone. */
  lemma FilledFairly(assets: seq<AssetInput>, c: Constraints, r: OptimizationResult)
    requires Typed(assets) && ValidInput(assets, c) && WaterFilled(assets, c, r)
    ensures FairlyFilled(assets, c, r)
  {
    hide Level, Cap, ManualWeight, TargetAt, IsLevel, PlacedByHand, WithinLimits, BelowLimits, ValidAsset, WeightTyped, Served;
    var level :| FilledTo(assets, c, r, level);
    LevelNonNegative(assets, c, level);
    forall t | t in r.targets
      ensures 0.0 <= t.weight && WithinLimits(t, c) && PlacedByHand(t, c)
      ensures t.asset.manualTargetWeight.None? && !Served(t.asset) ==> t.weight == 0.0
      ensures Served(t.asset) && BelowLimits(t, c) ==> r.cashWeight == c.minCashWeight
    {
      assert t.asset in assets;
      TargetInPlainTerms(t.asset, c, level);
      LimitsAreCap(t.asset, c, t.weight);
      if Served(t.asset) && BelowLimits(t, c) {
        NoCashBeyond(assets, c, r, level, t.asset);
      }
    }
    forall t, u | t in r.targets && u in r.targets && Served(t.asset) && Served(u.asset) && BelowLimits(u, c)
      ensures t.weight * u.asset.signalScore <= u.weight * t.asset.signalScore
    {
      assert t.asset in assets && u.asset in assets;
      TargetInPlainTerms(t.asset, c, level);
      TargetInPlainTerms(u.asset, c, level);
      LimitsAreCap(u.asset, c, u.weight);
      ServedScores(t.asset);
      ServedScores(u.asset);
      FilledShare(t, u, c, level);
    }
  }

  lemma ServedScores(a: AssetInput)
    requires Served(a)
    ensures a.signalScore > 0.0
  {
  }

  lemma LevelNonNegative(assets: seq<AssetInput>, c: Constraints, level: real)
    requires IsLevel(assets, c, level)
    ensures level >= 0.0
  {
  }

  lemma NoCashBeyond(assets: seq<AssetInput>, c: Constraints, r: OptimizationResult, level: real, a: AssetInput)
    requires |r.targets| == |assets| && FilledTo(assets, c, r, level) && r.cashWeight == 1.0 - Sum(r.targets, WeightOf())
    requires forall i :: 0 <= i < |assets| ==> r.targets[i].asset == assets[i]
    requires a in assets && IsCandidate(a) && Level(a, c, level) < Cap(a, c)
    ensures r.cashWeight == c.minCashWeight
  {
    hide Level, Cap, TargetAt, ManualWeight;
    TotalAtLevel(assets, c, r, level);
    CapsNotAllReached(assets, c, level, a);
  }
}
