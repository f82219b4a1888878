/** The baseline signal engine, over exact reals. */
module Signals {
  import opened Wrappers
  import opened Sums

  datatype Candle = Candle(time: int, close: real, volume: int, complete: bool)

  datatype Recommendation = BUY | SELL | HOLD | WAIT

  datatype SignalError = BadThreshold | TooFewCandles | BadClose | BadVolume

  datatype SignalResult = SignalResult(
    trend: real,
    movingAverage: real,
    volatility: real,
    volume: real,
    drawdown: real,
    final: real,
    recommendation: Recommendation,
    price: real)

  const MINIMUM_CANDLES := 20

  function Clamp(x: real): real {
    Max(0.0, Min(1.0, x))
  }

  /** `quantize(0.000001, ROUND_HALF_UP)` of a clamped value. */
  function Score(x: real): real {
    (Clamp(x) * 1_000_000.0 + 0.5).Floor as real / 1_000_000.0
  }

  // ------------------------------------------------------------- ordering by time

  function CompleteOnes(candles: seq<Candle>): seq<Candle> {
    if candles == [] then []
    else
      var last := candles[|candles| - 1];
      CompleteOnes(candles[..|candles| - 1]) + if last.complete then [last] else []
  }

  /** Puts a candle after those of the same time: insertion from the end is stable, as `sorted` is. */
  function Insert(s: seq<Candle>, c: Candle): seq<Candle> {
    if s != [] && c.time < s[|s| - 1].time then Insert(s[..|s| - 1], c) + [s[|s| - 1]] else s + [c]
  }

  function ByTime(candles: seq<Candle>): seq<Candle> {
    if candles == [] then [] else Insert(ByTime(candles[..|candles| - 1]), candles[|candles| - 1])
  }

  function Ordered(candles: seq<Candle>): seq<Candle> {
    ByTime(CompleteOnes(candles))
  }

  function Closes(candles: seq<Candle>): (r: seq<real>)
    ensures |r| == |candles| && forall i :: 0 <= i < |r| ==> r[i] == candles[i].close
  {
    seq(|candles|, i requires 0 <= i < |candles| => candles[i].close)
  }

  function Volumes(candles: seq<Candle>): (r: seq<real>)
    ensures |r| == |candles| && forall i :: 0 <= i < |r| ==> r[i] == candles[i].volume as real
  {
    seq(|candles|, i requires 0 <= i < |candles| => candles[i].volume as real)
  }

  // ------------------------------------------------------------- the features

  function Total(xs: seq<real>): real {
    if xs == [] then 0.0 else Total(xs[..|xs| - 1]) + xs[|xs| - 1]
  }

  function Last(xs: seq<real>, n: nat): (r: seq<real>)
    ensures |r| == if n <= |xs| then n else |xs|
  {
    if n <= |xs| then xs[|xs| - n..] else xs
  }

  /** `fmean`; no feature asks for the mean of nothing. */
  function Mean(xs: seq<real>): real {
    if xs == [] then 0.0 else Total(xs) / |xs| as real
  }

  function AbsoluteReturn(previous: real, current: real): real
    requires previous > 0.0
  {
    Abs(current / previous - 1.0)
  }

  /** The absolute return of each pair of neighbours. */
  function AbsoluteReturns(closes: seq<real>): (r: seq<real>)
    requires Positive(closes)
    ensures |r| == if closes == [] then 0 else |closes| - 1
    ensures forall i :: 0 <= i < |r| ==> r[i] == AbsoluteReturn(closes[i], closes[i + 1])
  {
    seq(if closes == [] then 0 else |closes| - 1, i requires 0 <= i < |closes| - 1 => AbsoluteReturn(closes[i], closes[i + 1]))
  }

  function Peak(xs: seq<real>): real {
    if |xs| == 0 then 0.0 else if |xs| == 1 then xs[0] else Max(Peak(xs[..|xs| - 1]), xs[|xs| - 1])
  }

  predicate Positive(closes: seq<real>) {
    forall i :: 0 <= i < |closes| ==> closes[i] > 0.0
  }

  function Trend(closes: seq<real>): real
    requires closes != [] && Positive(closes)
  {
    Clamp(0.5 + (closes[|closes| - 1] / closes[0] - 1.0) / 0.20)
  }

  lemma {:induction false} TotalPositive(xs: seq<real>)
    requires Positive(xs)
    ensures xs != [] ==> Total(xs) > 0.0
    ensures Total(xs) >= 0.0
  {
    if xs != [] {
      TotalPositive(xs[..|xs| - 1]);
    }
  }

  lemma MeanPositive(xs: seq<real>)
    requires xs != [] && Positive(xs)
    ensures Mean(xs) > 0.0
  {
    TotalPositive(xs);
    QuotientPositive(Total(xs), |xs| as real);
  }

  lemma QuotientPositive(x: real, y: real)
    requires x > 0.0 && y > 0.0
    ensures x / y > 0.0
  {
  }

  function MovingAverage(closes: seq<real>): real
    requires closes != [] && Positive(closes)
  {
    MeanPositive(Last(closes, 20));
    Clamp(0.5 + (Mean(Last(closes, 5)) / Mean(Last(closes, 20)) - 1.0) / 0.10)
  }

  function Volatility(closes: seq<real>): real
    requires Positive(closes)
  {
    Clamp(1.0 - Mean(AbsoluteReturns(closes)) / 0.05)
  }

  function VolumeScore(volumes: seq<real>): real {
    var baseline := Mean(Last(volumes, 20));
    if baseline == 0.0 then 0.5 else Clamp(0.5 + (Mean(Last(volumes, 5)) / baseline - 1.0))
  }

  function Drawdown(closes: seq<real>): real
    requires closes != [] && Positive(closes)
  {
    PeakIsMax(closes);
    Clamp(1.0 - (Peak(closes) - closes[|closes| - 1]) / Peak(closes) / 0.20)
  }

  lemma {:induction false} PeakIsMax(xs: seq<real>)
    requires xs != []
    ensures forall i :: 0 <= i < |xs| ==> xs[i] <= Peak(xs)
    ensures exists i :: 0 <= i < |xs| && xs[i] == Peak(xs)
  {
    var n := |xs| - 1;
    if n > 0 {
      PeakIsMax(xs[..n]);
    }
    if Peak(xs) != xs[n] {
      var i :| 0 <= i < n && xs[..n][i] == Peak(xs[..n]);
      assert xs[i] == Peak(xs);
    }
  }

  function Directional(trend: real, movingAverage: real, volume: real): real {
    trend * 0.40 + movingAverage * 0.40 + volume * 0.20
  }

  function Confidence(directional: real, volatility: real, drawdown: real): real {
    if directional >= 0.5 then (volatility + drawdown) / 2.0 else (volatility + (1.0 - drawdown)) / 2.0
  }

  /** The directional score drawn towards neutral. */
  function Tempered(directional: real, confidence: real): real {
    0.5 + (directional - 0.5) * confidence
  }

  function FinalScore(directional: real, volatility: real, drawdown: real): real {
    Clamp(Tempered(directional, Confidence(directional, volatility, drawdown)))
  }

  /** `_recommend` */
  function Recommend(score: real, threshold: real): Recommendation {
    if score >= threshold then BUY
    else if score <= 1.0 - threshold then SELL
    else if 0.45 <= score <= 0.55 then HOLD
    else WAIT
  }

  function Evaluated(closes: seq<real>, volumes: seq<real>, threshold: real): SignalResult
    requires closes != [] && Positive(closes)
  {
    var trend, average, volatility := Trend(closes), MovingAverage(closes), Volatility(closes);
    var volume, drawdown := VolumeScore(volumes), Drawdown(closes);
    var final := FinalScore(Directional(trend, average, volume), volatility, drawdown);
    SignalResult(Score(trend), Score(average), Score(volatility), Score(volume), Score(drawdown), Score(final),
                 Recommend(final, threshold), closes[|closes| - 1])
  }

  /** `calculate` */
  function Calculate(candles: seq<Candle>, threshold: real): Result<SignalResult, SignalError> {
    var ordered := Ordered(candles);
    var closes, volumes := Closes(ordered), Volumes(ordered);
    if !(0.5 < threshold <= 1.0) then Failure(BadThreshold)
    else if |ordered| < MINIMUM_CANDLES then Failure(TooFewCandles)
    else if !Positive(closes) then Failure(BadClose)
    else if exists i :: 0 <= i < |volumes| && volumes[i] < 0.0 then Failure(BadVolume)
    else Success(Evaluated(closes, volumes, threshold))
  }
}
