/** The execution data transfer objects and the risk gate every trade passes. */
module RiskManager {
  import opened Sums

  datatype TradeMode = OFF | SIGNAL_ONLY | DRY_RUN | SANDBOX | REAL_MANUAL_CONFIRM | REAL_AUTO_SAFE

  datatype OrderType = LIMIT | MARKET

  datatype OrderDirection = BUY | SELL

  /** `sha256(f"{plan_id}:{instrument_uid}:{direction}")`, taken as injective. */
  datatype IdempotencyKey = IdempotencyKey(plan: int, uid: string, direction: OrderDirection)

  datatype PlannedOrderData = PlannedOrderData(
    uid: string,
    direction: OrderDirection,
    lots: int,
    lotSize: int,
    orderType: OrderType,
    limitPrice: real,
    tradeMode: TradeMode,
    key: IdempotencyKey)

  datatype RiskContext = RiskContext(
    killSwitch: bool,
    tradeMode: TradeMode,
    requiredTradeMode: TradeMode,
    accountId: string,
    expectedAccountId: string,
    inWatchlist: bool,
    directionAllowed: bool,
    apiTradeAvailable: bool,
    orderTypeAvailable: bool,
    priceTime: int,
    now: int,
    maxPriceAge: int,
    marketPrice: real,
    maxSlippage: real,
    cashAvailable: real,
    positionLots: int,
    positionValue: real,
    portfolioValue: real,
    maxPositionWeight: real,
    maxTradeAmount: real,
    dailyTrades: int,
    maxDailyTrades: int,
    cooldownActive: bool,
    duplicateActiveOrder: bool,
    idempotencyKeyExists: bool)

  datatype RiskReason =
    | KillSwitchActive
    | WrongTradeMode
    | AccountMismatch
    | NotInWatchlist
    | DirectionDisabled
    | TradingStatusRejects
    | StalePrice
    | SlippageExceeded
    | AmountExceeded
    | DailyLimitReached
    | CooldownRunning
    | KeyExists
    | DuplicateOrder
    | InsufficientCash
    | WeightExceeded
    | ShortPosition

  datatype RiskDecision = RiskDecision(permitted: bool, reasons: seq<RiskReason>)

  const TICK := 0.01

  function TradeAmount(o: PlannedOrderData): real {
    o.limitPrice * o.lotSize as real * o.lots as real
  }

  /** The gate's slippage test, `abs(limit / market - 1) > slippage + 0.01 / market`. */
  predicate SlippageRejected(limit: real, market: real, slippage: real)
    requires market > 0.0
  {
    Abs(limit / market - 1.0) > slippage + TICK / market
  }

  predicate TooHeavy(ctx: RiskContext, projected: real) {
    ctx.portfolioValue <= 0.0 || projected / ctx.portfolioValue > ctx.maxPositionWeight
  }

  /** When each reason applies. */
  predicate Applies(r: RiskReason, o: PlannedOrderData, ctx: RiskContext)
    requires ctx.marketPrice > 0.0
  {
    match r
    case KillSwitchActive => ctx.killSwitch
    case WrongTradeMode => ctx.tradeMode != ctx.requiredTradeMode || o.tradeMode != ctx.requiredTradeMode
    case AccountMismatch => ctx.accountId == "" || ctx.accountId != ctx.expectedAccountId
    case NotInWatchlist => !ctx.inWatchlist
    case DirectionDisabled => !ctx.directionAllowed
    case TradingStatusRejects => !ctx.apiTradeAvailable || !ctx.orderTypeAvailable
    case StalePrice => ctx.now - ctx.priceTime > ctx.maxPriceAge
    case SlippageExceeded => SlippageRejected(o.limitPrice, ctx.marketPrice, ctx.maxSlippage)
    case AmountExceeded => TradeAmount(o) > ctx.maxTradeAmount
    case DailyLimitReached => ctx.dailyTrades >= ctx.maxDailyTrades
    case CooldownRunning => ctx.cooldownActive
    case KeyExists => ctx.idempotencyKeyExists
    case DuplicateOrder => ctx.duplicateActiveOrder
    case InsufficientCash => o.direction.BUY? && TradeAmount(o) > ctx.cashAvailable
    case WeightExceeded => o.direction.BUY? && TooHeavy(ctx, ctx.positionValue + TradeAmount(o))
    case ShortPosition => o.direction.SELL? && o.lots > ctx.positionLots
  }

  /** The order in which the gate reports its reasons. */
  function Rank(r: RiskReason): (k: nat)
    ensures k < 16
  {
    match r
    case KillSwitchActive => 0
    case WrongTradeMode => 1
    case AccountMismatch => 2
    case NotInWatchlist => 3
    case DirectionDisabled => 4
    case TradingStatusRejects => 5
    case StalePrice => 6
    case SlippageExceeded => 7
    case AmountExceeded => 8
    case DailyLimitReached => 9
    case CooldownRunning => 10
    case KeyExists => 11
    case DuplicateOrder => 12
    case InsufficientCash => 13
    case WeightExceeded => 14
    case ShortPosition => 15
  }

  /** `reasons` lists, in reporting order, the reasons ranked below `k` that apply. */
  ghost predicate Reports(reasons: seq<RiskReason>, k: nat, o: PlannedOrderData, ctx: RiskContext)
    requires ctx.marketPrice > 0.0
  {
    && (forall r :: r in reasons <==> Rank(r) < k && Applies(r, o, ctx))
    && forall i, j :: 0 <= i < j < |reasons| ==> Rank(reasons[i]) < Rank(reasons[j])
  }

  lemma RankInjective(r: RiskReason, s: RiskReason)
    requires Rank(r) == Rank(s)
    ensures r == s
  {
  }

  /** `if test: reasons.append(r)` */
  method Report(reasons: seq<RiskReason>, r: RiskReason, test: bool, ghost o: PlannedOrderData, ghost ctx: RiskContext)
    returns (more: seq<RiskReason>)
    requires ctx.marketPrice > 0.0
    requires Reports(reasons, Rank(r), o, ctx) && test == Applies(r, o, ctx)
    ensures Reports(more, Rank(r) + 1, o, ctx)
  {
    hide Applies;
    more := reasons;
    if test {
      more := more + [r];
    }
    forall s ensures s in more <==> Rank(s) < Rank(r) + 1 && Applies(s, o, ctx) {
      if Rank(s) == Rank(r) {
        RankInjective(s, r);
      }
    }
  }

  method CheckPriceAndLimits(found: seq<RiskReason>, o: PlannedOrderData, ctx: RiskContext)
    returns (reasons: seq<RiskReason>)
    requires ctx.marketPrice > 0.0 && Reports(found, Rank(StalePrice), o, ctx)
    ensures Reports(reasons, Rank(CooldownRunning), o, ctx)
  {
    hide TradeAmount, SlippageRejected, Reports, TooHeavy;
    reasons := Report(found, StalePrice, ctx.now - ctx.priceTime > ctx.maxPriceAge, o, ctx);
    var slipped := SlippageRejected(o.limitPrice, ctx.marketPrice, ctx.maxSlippage);
    reasons := Report(reasons, SlippageExceeded, slipped, o, ctx);
    reasons := Report(reasons, AmountExceeded, TradeAmount(o) > ctx.maxTradeAmount, o, ctx);
    reasons := Report(reasons, DailyLimitReached, ctx.dailyTrades >= ctx.maxDailyTrades, o, ctx);
  }

  method CheckRepeats(found: seq<RiskReason>, o: PlannedOrderData, ctx: RiskContext)
    returns (reasons: seq<RiskReason>)
    requires ctx.marketPrice > 0.0 && Reports(found, Rank(CooldownRunning), o, ctx)
    ensures Reports(reasons, Rank(InsufficientCash), o, ctx)
  {
    hide TradeAmount, SlippageRejected, Reports, TooHeavy;
    reasons := Report(found, CooldownRunning, ctx.cooldownActive, o, ctx);
    reasons := Report(reasons, KeyExists, ctx.idempotencyKeyExists, o, ctx);
    reasons := Report(reasons, DuplicateOrder, ctx.duplicateActiveOrder, o, ctx);
  }

  method CheckDirection(found: seq<RiskReason>, o: PlannedOrderData, ctx: RiskContext)
    returns (reasons: seq<RiskReason>)
    requires ctx.marketPrice > 0.0 && Reports(found, Rank(InsufficientCash), o, ctx)
    ensures Reports(reasons, 16, o, ctx)
  {
    hide TradeAmount, SlippageRejected, Reports, TooHeavy;
    var amount := TradeAmount(o);
    var buy := o.direction.BUY?;
    reasons := Report(found, InsufficientCash, buy && amount > ctx.cashAvailable, o, ctx);
    reasons := Report(reasons, WeightExceeded, buy && TooHeavy(ctx, ctx.positionValue + amount), o, ctx);
    reasons := Report(reasons, ShortPosition, !buy && o.lots > ctx.positionLots, o, ctx);
  }

  /** `evaluate`: permitted exactly when no reason applies; the reasons that do are listed once, in order. */
  method Evaluate(o: PlannedOrderData, ctx: RiskContext) returns (d: RiskDecision)
    requires ctx.marketPrice > 0.0
    ensures d.permitted <==> forall r :: !Applies(r, o, ctx)
    ensures forall r :: r in d.reasons <==> Applies(r, o, ctx)
    ensures forall i, j :: 0 <= i < j < |d.reasons| ==> Rank(d.reasons[i]) < Rank(d.reasons[j])
  {
    hide TradeAmount, SlippageRejected, Reports, TooHeavy;
    NothingReported(o, ctx);
    var reasons := Report([], KillSwitchActive, ctx.killSwitch, o, ctx);
    var wrongMode := ctx.tradeMode != ctx.requiredTradeMode || o.tradeMode != ctx.requiredTradeMode;
    reasons := Report(reasons, WrongTradeMode, wrongMode, o, ctx);
    var mismatch := ctx.accountId == "" || ctx.accountId != ctx.expectedAccountId;
    reasons := Report(reasons, AccountMismatch, mismatch, o, ctx);
    reasons := Report(reasons, NotInWatchlist, !ctx.inWatchlist, o, ctx);
    reasons := Report(reasons, DirectionDisabled, !ctx.directionAllowed, o, ctx);
    reasons := Report(reasons, TradingStatusRejects, !ctx.apiTradeAvailable || !ctx.orderTypeAvailable, o, ctx);
    reasons := CheckPriceAndLimits(reasons, o, ctx);
    reasons := CheckRepeats(reasons, o, ctx);
    reasons := CheckDirection(reasons, o, ctx);
    AllReported(reasons, o, ctx);
    d := RiskDecision(reasons == [], reasons);
  }

  lemma NothingReported(o: PlannedOrderData, ctx: RiskContext)
    requires ctx.marketPrice > 0.0
    ensures Reports([], 0, o, ctx)
  {
  }

  lemma AllReported(reasons: seq<RiskReason>, o: PlannedOrderData, ctx: RiskContext)
    requires ctx.marketPrice > 0.0 && Reports(reasons, 16, o, ctx)
    ensures forall r :: r in reasons <==> Applies(r, o, ctx)
    ensures forall i, j :: 0 <= i < j < |reasons| ==> Rank(reasons[i]) < Rank(reasons[j])
    ensures reasons == [] <==> forall r :: !Applies(r, o, ctx)
  {
    hide Applies, Rank;
    NoReasons(reasons, o, ctx);
  }

  lemma NoReasons(reasons: seq<RiskReason>, o: PlannedOrderData, ctx: RiskContext)
    requires ctx.marketPrice > 0.0
    requires forall r :: r in reasons <==> Applies(r, o, ctx)
    ensures reasons == [] <==> forall r :: !Applies(r, o, ctx)
  {
    if reasons != [] {
      assert Applies(reasons[0], o, ctx);
    }
  }

  /** The gate's tolerance is exactly one tick on either side of the slippage band. */
  lemma SlippageBand(limit: real, market: real, slippage: real)
    requires market > 0.0
    ensures !SlippageRejected(limit, market, slippage) <==>
              market * (1.0 - slippage) - TICK <= limit <= market * (1.0 + slippage) + TICK
  {
    var q, t := limit / market, TICK / market;
    assert q * market == limit && t * market == TICK;
    BandScaled(q, t, market, slippage);
  }

  lemma BandScaled(q: real, t: real, market: real, slippage: real)
    requires market > 0.0
    ensures Abs(q - 1.0) <= slippage + t <==>
              market * (1.0 - slippage) - t * market <= q * market <= market * (1.0 + slippage) + t * market
  {
    CompareScaled(q, 1.0 + slippage + t, market);
    CompareScaled(1.0 - slippage - t, q, market);
    assert (1.0 + slippage + t) * market == market * (1.0 + slippage) + t * market;
    assert (1.0 - slippage - t) * market == market * (1.0 - slippage) - t * market;
  }

  lemma CompareScaled(x: real, y: real, k: real)
    requires k > 0.0
    ensures x <= y <==> x * k <= y * k
  {
    if x > y {
      assert x * k > y * k;
    }
  }
}
