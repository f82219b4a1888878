/**
 * The signal engine's formulas, told on markets that move in two steps: one first price, fifteen prices in the middle and
 * five recent ones, each level with its own price and volume.
 */
module SignalOutcomes {
  import opened Wrappers
  import opened Sums
  import opened Signals
  import opened SignalProperties

  function Steps(first: real, middle: real, recent: real): (r: seq<real>)
    ensures |r| == 21 && r[0] == first
    ensures forall i :: 1 <= i < 16 ==> r[i] == middle
    ensures forall i :: 16 <= i < 21 ==> r[i] == recent
  {
    seq(21, i => if i == 0 then first else if i < 16 then middle else recent)
  }

  lemma {:induction false} TotalAppend(xs: seq<real>, ys: seq<real>)
    ensures Total(xs + ys) == Total(xs) + Total(ys)
  {
    if ys == [] {
      assert xs + ys == xs;
    } else {
      TotalAppend(xs, ys[..|ys| - 1]);
      assert (xs + ys)[..|xs + ys| - 1] == xs + ys[..|ys| - 1];
    }
  }

  /** Fifteen of one and five of another. */
  lemma MeanOfTwo(xs: seq<real>, x: real, y: real)
    requires |xs| == 20 && (forall i :: 0 <= i < 15 ==> xs[i] == x) && forall i :: 15 <= i < 20 ==> xs[i] == y
    ensures Mean(xs) == (15.0 * x + 5.0 * y) / 20.0
  {
    hide Total;
    TotalAppend(xs[..15], xs[15..]);
    assert xs[..15] + xs[15..] == xs;
    TotalFlat(xs[..15], x);
    TotalFlat(xs[15..], y);
  }

  lemma StepMeans(first: real, middle: real, recent: real)
    ensures Mean(Last(Steps(first, middle, recent), 5)) == recent
    ensures Mean(Last(Steps(first, middle, recent), 20)) == (15.0 * middle + 5.0 * recent) / 20.0
  {
    hide Mean, Steps;
    var xs := Steps(first, middle, recent);
    MeanFlat(Last(xs, 5), recent);
    MeanOfTwo(Last(xs, 20), middle, recent);
  }

  // ------------------------------------------------------------- the features

  function Clamped(x: real): real {
    if x < 0.0 then 0.0 else if x > 1.0 then 1.0 else x
  }

  function Size(x: real): real {
    if x < 0.0 then -x else x
  }

  function Largest(x: real, y: real, z: real): real {
    if x >= y && x >= z then x else if y >= z then y else z
  }

  lemma LargestPositive(x: real, y: real, z: real)
    requires x > 0.0 && y > 0.0 && z > 0.0
    ensures Largest(x, y, z) > 0.0
  {
  }

  lemma ClampedIs(x: real)
    ensures Clamp(x) == Clamped(x)
  {
  }

  lemma StepTrend(first: real, middle: real, recent: real)
    requires first > 0.0 && middle > 0.0 && recent > 0.0
    ensures Trend(Steps(first, middle, recent)) == Clamped(0.5 + (recent / first - 1.0) / 0.20)
    ensures MovingAverage(Steps(first, middle, recent))
         == Clamped(0.5 + (recent / ((15.0 * middle + 5.0 * recent) / 20.0) - 1.0) / 0.10)
  {
    hide Mean, Clamp;
    StepMeans(first, middle, recent);
    ClampedIs(0.5 + (recent / first - 1.0) / 0.20);
    ClampedIs(0.5 + (recent / ((15.0 * middle + 5.0 * recent) / 20.0) - 1.0) / 0.10);
  }

  lemma TotalTwo(r: seq<real>, x: real, y: real)
    requires |r| == 20 && forall i :: 0 <= i < 20 ==> r[i] == if i == 0 then x else if i == 15 then y else 0.0
    ensures Total(r) == x + y
  {
    hide Total;
    assert r == r[..1] + (r[1..15] + (r[15..16] + r[16..]));
    TotalAppend(r[..1], r[1..15] + (r[15..16] + r[16..]));
    TotalAppend(r[1..15], r[15..16] + r[16..]);
    TotalAppend(r[15..16], r[16..]);
    TotalFlat(r[..1], x);
    TotalFlat(r[1..15], 0.0);
    TotalFlat(r[15..16], y);
    TotalFlat(r[16..], 0.0);
  }

  /** The change from one price to the next. */
  lemma ReturnAt(first: real, middle: real, recent: real, i: nat)
    requires first > 0.0 && middle > 0.0 && recent > 0.0 && i < 20
    ensures AbsoluteReturns(Steps(first, middle, recent))[i]
         == if i == 0 then Size(middle / first - 1.0) else if i == 15 then Size(recent / middle - 1.0) else 0.0
  {
    hide Steps;
    ByItself(middle);
    ByItself(recent);
    var closes := Steps(first, middle, recent);
    assert AbsoluteReturns(closes)[i] == AbsoluteReturn(closes[i], closes[i + 1]);
  }

  /** The prices change twice in twenty steps. */
  lemma StepReturns(first: real, middle: real, recent: real)
    requires first > 0.0 && middle > 0.0 && recent > 0.0
    ensures Mean(AbsoluteReturns(Steps(first, middle, recent)))
         == (Size(middle / first - 1.0) + Size(recent / middle - 1.0)) / 20.0
  {
    hide Steps, Total, AbsoluteReturn, Size;
    var r := AbsoluteReturns(Steps(first, middle, recent));
    forall i: nat | i < 20
      ensures r[i] == if i == 0 then Size(middle / first - 1.0) else if i == 15 then Size(recent / middle - 1.0) else 0.0
    {
      ReturnAt(first, middle, recent, i);
    }
    TotalTwo(r, Size(middle / first - 1.0), Size(recent / middle - 1.0));
  }

  lemma StepVolatility(first: real, middle: real, recent: real)
    requires first > 0.0 && middle > 0.0 && recent > 0.0
    ensures Volatility(Steps(first, middle, recent))
         == Clamped(1.0 - (Size(middle / first - 1.0) + Size(recent / middle - 1.0)) / 20.0 / 0.05)
  {
    hide Mean, Clamp, AbsoluteReturns;
    StepReturns(first, middle, recent);
    ClampedIs(1.0 - Mean(AbsoluteReturns(Steps(first, middle, recent))) / 0.05);
  }

  lemma StepDrawdown(first: real, middle: real, recent: real)
    requires first > 0.0 && middle > 0.0 && recent > 0.0
    ensures Drawdown(Steps(first, middle, recent))
         == Clamped(1.0 - (Largest(first, middle, recent) - recent) / Largest(first, middle, recent) / 0.20)
  {
    hide Peak, Clamp;
    var closes := Steps(first, middle, recent);
    PeakIsMax(closes);
    assert closes[0] <= Peak(closes) && closes[1] <= Peak(closes) && closes[16] <= Peak(closes);
    assert Peak(closes) == Largest(first, middle, recent);
    ClampedIs(1.0 - (Peak(closes) - recent) / Peak(closes) / 0.20);
  }

  lemma StepVolume(first: real, middle: real, recent: real)
    requires 15.0 * middle + 5.0 * recent > 0.0
    ensures VolumeScore(Steps(first, middle, recent))
         == Clamped(0.5 + (recent / ((15.0 * middle + 5.0 * recent) / 20.0) - 1.0))
  {
    hide Mean, Clamp;
    StepMeans(first, middle, recent);
    ClampedIs(0.5 + (recent / ((15.0 * middle + 5.0 * recent) / 20.0) - 1.0));
  }

  // ------------------------------------------------------------- the candles

  function Candles(first: real, middle: real, recent: real, usual: int, lately: int): (r: seq<Candle>)
    ensures |r| == 21
    ensures forall i :: 0 <= i < 21 ==>
              r[i] == Candle(i, Steps(first, middle, recent)[i], if i < 16 then usual else lately, true)
  {
    var closes := Steps(first, middle, recent);
    seq(21, i requires 0 <= i < 21 => Candle(i, closes[i], if i < 16 then usual else lately, true))
  }

  lemma {:induction false} InOrderAlready(candles: seq<Candle>)
    requires forall i, j :: 0 <= i < j < |candles| ==> candles[i].time <= candles[j].time
    ensures ByTime(candles) == candles
  {
    if candles != [] {
      InOrderAlready(candles[..|candles| - 1]);
    }
  }

  lemma CandlesOrdered(first: real, middle: real, recent: real, usual: int, lately: int)
    ensures var candles := Candles(first, middle, recent, usual, lately);
            && Ordered(candles) == candles && Closes(candles) == Steps(first, middle, recent)
            && Volumes(candles) == Steps(usual as real, usual as real, lately as real)
  {
    hide ByTime, CompleteOnes;
    var candles := Candles(first, middle, recent, usual, lately);
    forall c | c in candles ensures c.complete {
      var i :| 0 <= i < 21 && candles[i] == c;
    }
    AllComplete(candles);
    InOrderAlready(candles);
  }

  // ------------------------------------------------------------- the signal

  /** Buy from the threshold up, sell from its mirror image down, hold around the middle, and else wait. */
  function Advice(score: real, threshold: real): Recommendation {
    if score >= threshold then BUY
    else if score + threshold <= 1.0 then SELL
    else if 0.45 <= score && score <= 0.55 then HOLD
    else WAIT
  }

  /** The share of the directional score's distance from the middle that is kept. */
  function Kept(directional: real, volatility: real, drawdown: real): real {
    if directional < 0.5 then (volatility + 1.0 - drawdown) / 2.0 else (volatility + drawdown) / 2.0
  }

  /** Drawn towards the middle. */
  function Drawn(directional: real, volatility: real, drawdown: real): real {
    0.5 + (directional - 0.5) * Kept(directional, volatility, drawdown)
  }

  /** The weights of the features, and how volatility and drawdown draw the score towards the middle. */
  function Combined(trend: real, average: real, volatility: real, volume: real, drawdown: real): real {
    var directional := 0.4 * trend + 0.4 * average + 0.2 * volume;
    Clamped(Drawn(directional, volatility, drawdown))
  }

  lemma CombinedIs(trend: real, average: real, volatility: real, volume: real, drawdown: real)
    ensures FinalScore(Directional(trend, average, volume), volatility, drawdown)
         == Combined(trend, average, volatility, volume, drawdown)
  {
    hide Clamp, Clamped, Directional, Tempered, Confidence, Drawn;
    var directional := 0.4 * trend + 0.4 * average + 0.2 * volume;
    DirectionalIs(trend, average, volume);
    TemperedIs(directional, volatility, drawdown);
    ClampedIs(Drawn(directional, volatility, drawdown));
  }

  lemma DirectionalIs(trend: real, average: real, volume: real)
    ensures Directional(trend, average, volume) == 0.4 * trend + 0.4 * average + 0.2 * volume
  {
  }

  lemma TemperedIs(directional: real, volatility: real, drawdown: real)
    ensures Tempered(directional, Confidence(directional, volatility, drawdown))
         == Drawn(directional, volatility, drawdown)
  {
    assert Confidence(directional, volatility, drawdown) == Kept(directional, volatility, drawdown);
  }

  lemma AdviceIs(score: real, threshold: real)
    ensures Recommend(score, threshold) == Advice(score, threshold)
  {
  }

  /** Rounded half up to six decimals. */
  predicate Rounds(score: real, x: real) {
    (score * 1_000_000.0).Floor as real == score * 1_000_000.0 && x - 0.000_000_5 < score <= x + 0.000_000_5
  }

  lemma ScoreRounds(x: real)
    requires 0.0 <= x <= 1.0
    ensures Rounds(Score(x), x)
  {
    hide Clamp;
    ClampedIs(x);
    var n := (x * 1_000_000.0 + 0.5).Floor;
    assert Score(x) == n as real / 1_000_000.0;
    assert Score(x) * 1_000_000.0 == n as real;
    assert n as real <= x * 1_000_000.0 + 0.5 < n as real + 1.0;
  }

  lemma FeatureRounds(x: real)
    ensures Rounds(Score(Clamped(x)), Clamped(x))
  {
    hide Score, Rounds;
    ScoreRounds(Clamped(x));
  }

  lemma CombinedRounds(trend: real, average: real, volatility: real, volume: real, drawdown: real)
    ensures var final := Combined(trend, average, volatility, volume, drawdown); Rounds(Score(final), final)
  {
    hide Score, Rounds, Clamped, Drawn;
    var directional := 0.4 * trend + 0.4 * average + 0.2 * volume;
    FeatureRounds(Drawn(directional, volatility, drawdown));
  }

  /**
   * The signal of a market that moved in two steps, computed from its three prices and two volumes: from the first price
   * to the recent one (trend), from the average of twenty to that of five (moving average, and volume likewise), by the
   * two jumps (volatility) and from the highest price down (drawdown).
   */
  lemma StepSignal(first: real, middle: real, recent: real, usual: int, lately: int, threshold: real)
    requires first > 0.0 && middle > 0.0 && recent > 0.0 && usual > 0 && lately >= 0 && 0.5 < threshold <= 1.0
    ensures var trend := Clamped(0.5 + (recent / first - 1.0) / 0.20);
            var average := Clamped(0.5 + (recent / ((15.0 * middle + 5.0 * recent) / 20.0) - 1.0) / 0.10);
            var volatility := Clamped(1.0 - (Size(middle / first - 1.0) + Size(recent / middle - 1.0)) / 20.0 / 0.05);
            var volume := Clamped(0.5 + (lately as real / ((15.0 * usual as real + 5.0 * lately as real) / 20.0) - 1.0));
            var top := Largest(first, middle, recent);
            var drawdown := Clamped(1.0 - (top - recent) / top / 0.20);
            var final := Combined(trend, average, volatility, volume, drawdown);
            var r := Calculate(Candles(first, middle, recent, usual, lately), threshold);
            && r.Success? && r.value.price == recent && r.value.recommendation == Advice(final, threshold)
            && Rounds(r.value.trend, trend) && Rounds(r.value.movingAverage, average)
            && Rounds(r.value.volatility, volatility) && Rounds(r.value.volume, volume)
            && Rounds(r.value.drawdown, drawdown) && Rounds(r.value.final, final)
  {
    hide Trend, MovingAverage, Volatility, VolumeScore, Drawdown, FinalScore, Directional, Ordered, Score, Recommend, Rounds,
         Clamped, Combined, Size, Largest, Advice;
    var closes, volumes := Steps(first, middle, recent), Steps(usual as real, usual as real, lately as real);
    CandlesOrdered(first, middle, recent, usual, lately);
    StepTrend(first, middle, recent);
    StepVolatility(first, middle, recent);
    StepVolume(usual as real, usual as real, lately as real);
    StepDrawdown(first, middle, recent);
    LargestPositive(first, middle, recent);
    CombinedIs(Trend(closes), MovingAverage(closes), Volatility(closes), VolumeScore(volumes), Drawdown(closes));
    AdviceIs(FinalScore(Directional(Trend(closes), MovingAverage(closes), VolumeScore(volumes)),
                        Volatility(closes), Drawdown(closes)), threshold);
    FeatureRounds(0.5 + (recent / first - 1.0) / 0.20);
    FeatureRounds(0.5 + (recent / ((15.0 * middle + 5.0 * recent) / 20.0) - 1.0) / 0.10);
    FeatureRounds(1.0 - (Size(middle / first - 1.0) + Size(recent / middle - 1.0)) / 20.0 / 0.05);
    FeatureRounds(0.5 + (lately as real / ((15.0 * usual as real + 5.0 * lately as real) / 20.0) - 1.0));
    FeatureRounds(1.0 - (Largest(first, middle, recent) - recent) / Largest(first, middle, recent) / 0.20);
    CombinedRounds(Trend(closes), MovingAverage(closes), Volatility(closes), VolumeScore(volumes), Drawdown(closes));
  }

  // ------------------------------------------------------------- when there is none

  function CompleteCount(candles: seq<Candle>): nat {
    |set i | 0 <= i < |candles| && candles[i].complete|
  }

  lemma {:induction false} CompleteOnesCounted(candles: seq<Candle>)
    ensures |CompleteOnes(candles)| == CompleteCount(candles)
  {
    var complete := set i | 0 <= i < |candles| && candles[i].complete;
    if candles != [] {
      var n := |candles| - 1;
      CompleteOnesCounted(candles[..n]);
      var before := set i | 0 <= i < |candles[..n]| && candles[..n][i].complete;
      assert complete == if candles[n].complete then before + {n} else before;
    }
  }

  lemma {:induction false} CompleteOnesAre(candles: seq<Candle>)
    ensures forall c :: c in CompleteOnes(candles) <==> c in candles && c.complete
  {
    if candles != [] {
      var n := |candles| - 1;
      CompleteOnesAre(candles[..n]);
      assert candles == candles[..n] + [candles[n]];
    }
  }

  lemma PricesGood(ordered: seq<Candle>)
    ensures Positive(Closes(ordered)) <==> forall c :: c in ordered ==> c.close > 0.0
  {
    if Positive(Closes(ordered)) {
      forall c | c in ordered ensures c.close > 0.0 {
        var i :| 0 <= i < |ordered| && ordered[i] == c;
        assert Closes(ordered)[i] == c.close;
      }
    }
  }

  lemma VolumesGood(ordered: seq<Candle>)
    ensures (exists i :: 0 <= i < |Volumes(ordered)| && Volumes(ordered)[i] < 0.0) <==> exists c :: c in ordered && c.volume < 0
  {
    var volumes := Volumes(ordered);
    if exists c :: c in ordered && c.volume < 0 {
      var c :| c in ordered && c.volume < 0;
      var i :| 0 <= i < |ordered| && ordered[i] == c;
      assert volumes[i] < 0.0;
    }
    if exists i :: 0 <= i < |volumes| && volumes[i] < 0.0 {
      var i :| 0 <= i < |volumes| && volumes[i] < 0.0;
      assert ordered[i].volume < 0 && ordered[i] in ordered;
    }
  }

  /** There is no signal exactly for a bad threshold, fewer than twenty complete candles, or a bad price or volume in one. */
  lemma FailsExactly(candles: seq<Candle>, threshold: real)
    ensures Calculate(candles, threshold).Failure? <==>
              || threshold <= 0.5 || threshold > 1.0
              || CompleteCount(candles) < 20
              || (exists c :: c in candles && c.complete && c.close <= 0.0)
              || (exists c :: c in candles && c.complete && c.volume < 0)
  {
    hide ByTime, CompleteOnes, Evaluated, CompleteCount, Positive;
    var ordered := Ordered(candles);
    CompleteOnesCounted(candles);
    CompleteOnesAre(candles);
    ByTimeSorts(CompleteOnes(candles));
    SameElements(ordered, CompleteOnes(candles));
    PricesGood(ordered);
    VolumesGood(ordered);
  }

  lemma SameElements(xs: seq<Candle>, ys: seq<Candle>)
    requires multiset(xs) == multiset(ys)
    ensures |xs| == |ys| && forall c :: c in xs <==> c in ys
  {
    assert |multiset(xs)| == |xs| && |multiset(ys)| == |ys|;
    assert forall c :: c in xs <==> c in multiset(xs);
    assert forall c :: c in ys <==> c in multiset(ys);
  }
}
