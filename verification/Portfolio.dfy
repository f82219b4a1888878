/** Shared helper types. */
module Wrappers {
  datatype Option<+T> = None | Some(value: T)

  datatype Result<+T, +E> = Success(value: T) | Failure(error: E)
}

/** The portfolio data transfer objects; `Decimal` is idealised as `real`. */
module Portfolio {
  import opened Wrappers
  import opened Sums

  datatype AssetInput = AssetInput(
    uid: string,
    signalScore: real,
    currentValue: real,
    currentLots: int,
    price: real,
    lotSize: int,
    buyEnabled: bool,
    sellEnabled: bool,
    maxWeight: Option<real>,
    manualTargetWeight: Option<real>,
    priority: int,
    cooldownActive: bool)

  datatype Constraints = Constraints(
    maxPositionWeight: real,
    minCashWeight: real,
    rebalanceThreshold: real)

  datatype TargetWeight = TargetWeight(asset: AssetInput, weight: real)

  datatype OptimizationResult = OptimizationResult(targets: seq<TargetWeight>, cashWeight: real)

  datatype OptimizationError =
    | BadMinCashWeight
    | BadMaxPositionWeight
    | DuplicateInstrument
    | BadPriceOrLot
    | NegativePosition
    | BadSignalScore
    | ManualTargetsExceedInvestable
    | BadPortfolioValue

  /** `max_weight` and `manual_target_weight` are validated as weights in [0, 1] when stored. */
  predicate WeightTyped(a: AssetInput) {
    && (a.maxWeight.Some? ==> 0.0 <= a.maxWeight.value <= 1.0)
    && (a.manualTargetWeight.Some? ==> 0.0 <= a.manualTargetWeight.value <= 1.0)
  }

  /** `min(max_position_weight, max_weight or 1)`: an absent and a zero max weight both mean no own cap. */
  function Cap(a: AssetInput, c: Constraints): real {
    Min(c.maxPositionWeight,
        if a.maxWeight.Some? && a.maxWeight.value != 0.0 then a.maxWeight.value else 1.0)
  }

  function LotCost(a: AssetInput): real {
    a.price * a.lotSize as real
  }

  ghost predicate DistinctUids(assets: seq<AssetInput>) {
    forall i, j :: 0 <= i < j < |assets| ==> assets[i].uid != assets[j].uid
  }

  predicate ValidAsset(a: AssetInput) {
    && a.price > 0.0 && a.lotSize > 0
    && a.currentValue >= 0.0 && a.currentLots >= 0
    && 0.0 <= a.signalScore <= 1.0
  }

  lemma CapRange(a: AssetInput, c: Constraints)
    requires WeightTyped(a) && 0.0 < c.maxPositionWeight <= 1.0
    ensures 0.0 < Cap(a, c) <= c.maxPositionWeight
    ensures a.maxWeight.Some? && a.maxWeight.value != 0.0 ==> Cap(a, c) <= a.maxWeight.value
  {
  }
}
