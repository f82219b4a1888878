/** What the signal does not depend on, and what a recommendation implies. */
module SignalProperties {
  import opened Wrappers
  import opened Sums
  import opened Signals

  // ------------------------------------------------------------- recommendations

  lemma Product(x: real, y: real)
    requires x >= 0.0 && 0.0 <= y <= 1.0
    ensures 0.0 <= x * y <= x
  {
    var p := x * (1.0 - y);
    assert p >= 0.0 && p == x - x * y;
  }

  /** The final score lies between neutral and the directional score, so the last clamp never acts. */
  lemma FinalBetween(directional: real, volatility: real, drawdown: real)
    requires 0.0 <= directional <= 1.0 && 0.0 <= volatility <= 1.0 && 0.0 <= drawdown <= 1.0
    ensures var final := FinalScore(directional, volatility, drawdown);
            && (directional >= 0.5 ==> 0.5 <= final <= directional)
            && (directional <= 0.5 ==> directional <= final <= 0.5)
            && final == Tempered(directional, Confidence(directional, volatility, drawdown))
  {
    hide Confidence, Tempered;
    ConfidenceInRange(directional, volatility, drawdown);
    Between(directional, Confidence(directional, volatility, drawdown));
  }

  lemma ConfidenceInRange(directional: real, volatility: real, drawdown: real)
    requires 0.0 <= volatility <= 1.0 && 0.0 <= drawdown <= 1.0
    ensures 0.0 <= Confidence(directional, volatility, drawdown) <= 1.0
  {
  }

  lemma Between(directional: real, confidence: real)
    requires 0.0 <= directional <= 1.0 && 0.0 <= confidence <= 1.0
    ensures var final := Tempered(directional, confidence);
            && (directional >= 0.5 ==> 0.5 <= final <= directional)
            && (directional <= 0.5 ==> directional <= final <= 0.5)
  {
    if directional >= 0.5 {
      Product(directional - 0.5, confidence);
    } else {
      Product(0.5 - directional, confidence);
      assert (directional - 0.5) * confidence == -((0.5 - directional) * confidence);
    }
  }

  function DirectionalOf(candles: seq<Candle>): real
    requires Calculate(candles, 1.0).Success?
  {
    var closes, volumes := Closes(Ordered(candles)), Volumes(Ordered(candles));
    Directional(Trend(closes), MovingAverage(closes), VolumeScore(volumes))
  }

  /**
   * A purchase is only recommended if direction alone reaches the threshold, a sale only if it is as far on the
   * other side; volatility and drawdown can hold a recommendation back but never bring one about.
   */
  lemma RecommendationFollowsDirection(candles: seq<Candle>, threshold: real)
    requires Calculate(candles, threshold).Success?
    ensures Calculate(candles, 1.0).Success?
    ensures var r := Calculate(candles, threshold).value;
            && (r.recommendation.BUY? ==> DirectionalOf(candles) >= threshold)
            && (r.recommendation.SELL? ==> DirectionalOf(candles) <= 1.0 - threshold)
            && 0.0 <= r.final <= 1.0
  {
    hide Trend, MovingAverage, VolumeScore, Volatility, Drawdown, FinalScore, Ordered, Score;
    var closes, volumes := Closes(Ordered(candles)), Volumes(Ordered(candles));
    FeaturesInRange(closes, volumes);
    var directional := DirectionalOf(candles);
    FinalBetween(directional, Volatility(closes), Drawdown(closes));
    ScoreInRange(FinalScore(directional, Volatility(closes), Drawdown(closes)));
  }

  lemma FeaturesInRange(closes: seq<real>, volumes: seq<real>)
    requires closes != [] && Positive(closes)
    ensures 0.0 <= Trend(closes) <= 1.0 && 0.0 <= MovingAverage(closes) <= 1.0 && 0.0 <= VolumeScore(volumes) <= 1.0
    ensures 0.0 <= Volatility(closes) <= 1.0 && 0.0 <= Drawdown(closes) <= 1.0
    ensures 0.0 <= Directional(Trend(closes), MovingAverage(closes), VolumeScore(volumes)) <= 1.0
  {
    hide Mean, Last, AbsoluteReturns, Peak;
  }

  /** A stored score is within half a unit of its last digit of the exact one, and in range. */
  lemma ScoreInRange(x: real)
    ensures 0.0 <= Score(x) <= 1.0
    ensures Abs(Score(x) - Clamp(x)) <= 0.000_000_5
  {
    var y := Clamp(x) * 1_000_000.0 + 0.5;
    assert y.Floor as real <= y < y.Floor as real + 1.0;
  }

  // ------------------------------------------------------------- a flat market

  ghost predicate Flat(xs: seq<real>, x: real) {
    forall i :: 0 <= i < |xs| ==> xs[i] == x
  }

  lemma {:induction false} TotalFlat(xs: seq<real>, x: real)
    requires Flat(xs, x)
    ensures Total(xs) == Times(|xs| as real, x)
  {
    if xs != [] {
      TotalFlat(xs[..|xs| - 1], x);
    }
  }

  lemma MeanFlat(xs: seq<real>, x: real)
    requires Flat(xs, x) && xs != []
    ensures Mean(xs) == x
  {
    TotalFlat(xs, x);
    assert Total(xs) / |xs| as real * |xs| as real == Total(xs);
  }

  lemma {:induction false} PeakFlat(xs: seq<real>, x: real)
    requires Flat(xs, x) && xs != []
    ensures Peak(xs) == x
  {
    if |xs| > 1 {
      PeakFlat(xs[..|xs| - 1], x);
    }
  }

  lemma ByItself(x: real)
    requires x != 0.0
    ensures x / x == 1.0
  {
  }

  lemma FlatPrices(closes: seq<real>, price: real)
    requires |closes| >= MINIMUM_CANDLES && price > 0.0 && Flat(closes, price) && Positive(closes)
    ensures Trend(closes) == 0.5 && MovingAverage(closes) == 0.5 && Drawdown(closes) == 1.0
  {
    hide Mean, Peak;
    MeanFlat(Last(closes, 5), price);
    MeanFlat(Last(closes, 20), price);
    PeakFlat(closes, price);
    ByItself(price);
  }

  lemma FlatReturns(closes: seq<real>, price: real)
    requires |closes| >= MINIMUM_CANDLES && price > 0.0 && Flat(closes, price) && Positive(closes)
    ensures Volatility(closes) == 1.0
  {
    hide Mean, AbsoluteReturns;
    var changes := AbsoluteReturns(closes);
    ByItself(price);
    forall i | 0 <= i < |changes| ensures changes[i] == 0.0 {
      assert closes[i] == price && closes[i + 1] == price;
    }
    MeanFlat(changes, 0.0);
  }

  lemma FlatVolumes(volumes: seq<real>, volume: real)
    requires |volumes| >= MINIMUM_CANDLES && Flat(volumes, volume)
    ensures VolumeScore(volumes) == 0.5
  {
    hide Mean;
    MeanFlat(Last(volumes, 5), volume);
    MeanFlat(Last(volumes, 20), volume);
    if volume != 0.0 {
      ByItself(volume);
    }
  }

  /** Where neither price nor volume moves, every feature is neutral or calm, and the signal is to hold. */
  lemma FlatMarketHolds(candles: seq<Candle>, price: real, volume: int, threshold: real)
    requires |candles| >= MINIMUM_CANDLES && price > 0.0 && volume >= 0 && 0.5 < threshold <= 1.0
    requires forall c :: c in candles ==> c.complete && c.close == price && c.volume == volume
    ensures Calculate(candles, threshold)
         == Success(SignalResult(0.5, 0.5, 1.0, 0.5, 1.0, 0.5, HOLD, price))
  {
    hide Trend, MovingAverage, Volatility, VolumeScore, Drawdown, ByTime, CompleteOnes;
    AllComplete(candles);
    ByTimeSorts(candles);
    var ordered := Ordered(candles);
    assert |multiset(ordered)| == |ordered| && |multiset(candles)| == |candles|;
    forall i | 0 <= i < |ordered| ensures ordered[i] in candles {
      assert ordered[i] in multiset(ordered);
    }
    FlatPrices(Closes(ordered), price);
    FlatReturns(Closes(ordered), price);
    FlatVolumes(Volumes(ordered), volume as real);
    assert Score(0.5) == 0.5 && Score(1.0) == 1.0;
  }

  lemma {:induction false} AllComplete(candles: seq<Candle>)
    requires forall c :: c in candles ==> c.complete
    ensures CompleteOnes(candles) == candles
  {
    if candles != [] {
      assert candles[|candles| - 1] in candles;
      AllComplete(candles[..|candles| - 1]);
    }
  }

  // ------------------------------------------------------------- units

  /** Prices in other units, volumes in other units. */
  function InUnits(candles: seq<Candle>, k: real, j: int): (r: seq<Candle>)
    ensures |r| == |candles|
    ensures forall i :: 0 <= i < |r| ==> r[i] == Converted(candles[i], k, j)
  {
    seq(|candles|, i requires 0 <= i < |candles| => Converted(candles[i], k, j))
  }

  function Converted(c: Candle, k: real, j: int): Candle {
    c.(close := Times(k, c.close), volume := j * c.volume)
  }

  function Scaled(xs: seq<real>, k: real): (r: seq<real>)
    ensures |r| == |xs| && forall i :: 0 <= i < |r| ==> r[i] == Times(k, xs[i])
  {
    seq(|xs|, i requires 0 <= i < |xs| => Times(k, xs[i]))
  }

  lemma InUnitsAppend(a: seq<Candle>, b: seq<Candle>, k: real, j: int)
    ensures InUnits(a + b, k, j) == InUnits(a, k, j) + InUnits(b, k, j)
  {
  }

  lemma {:induction false} CompleteInUnits(candles: seq<Candle>, k: real, j: int)
    ensures CompleteOnes(InUnits(candles, k, j)) == InUnits(CompleteOnes(candles), k, j)
  {
    if candles != [] {
      var init, last := candles[..|candles| - 1], candles[|candles| - 1];
      CompleteInUnits(init, k, j);
      assert InUnits(candles, k, j)[..|candles| - 1] == InUnits(init, k, j);
      InUnitsAppend(CompleteOnes(init), if last.complete then [last] else [], k, j);
    }
  }

  lemma {:induction false} InsertInUnits(s: seq<Candle>, c: Candle, k: real, j: int)
    ensures Insert(InUnits(s, k, j), Converted(c, k, j)) == InUnits(Insert(s, c), k, j)
  {
    if s != [] {
      var init := s[..|s| - 1];
      InsertInUnits(init, c, k, j);
      assert InUnits(s, k, j)[..|s| - 1] == InUnits(init, k, j);
    }
  }

  lemma {:induction false} ByTimeInUnits(candles: seq<Candle>, k: real, j: int)
    ensures ByTime(InUnits(candles, k, j)) == InUnits(ByTime(candles), k, j)
  {
    if candles != [] {
      var init, last := candles[..|candles| - 1], candles[|candles| - 1];
      ByTimeInUnits(init, k, j);
      assert InUnits(candles, k, j)[..|candles| - 1] == InUnits(init, k, j);
      InsertInUnits(ByTime(init), last, k, j);
    }
  }

  lemma IntTimes(j: int, x: int)
    ensures (j * x) as real == Times(j as real, x as real)
  {
  }

  lemma OrderedInUnits(candles: seq<Candle>, k: real, j: int)
    ensures |Ordered(InUnits(candles, k, j))| == |Ordered(candles)|
    ensures Closes(Ordered(InUnits(candles, k, j))) == Scaled(Closes(Ordered(candles)), k)
    ensures Volumes(Ordered(InUnits(candles, k, j))) == Scaled(Volumes(Ordered(candles)), j as real)
  {
    hide Times, ByTime, CompleteOnes;
    CompleteInUnits(candles, k, j);
    ByTimeInUnits(CompleteOnes(candles), k, j);
    var ordered := Ordered(candles);
    assert Ordered(InUnits(candles, k, j)) == InUnits(ordered, k, j);
    forall i | 0 <= i < |ordered| ensures (j * ordered[i].volume) as real == Times(j as real, ordered[i].volume as real) {
      IntTimes(j, ordered[i].volume);
    }
  }

  // ------------------------------------------------------------- features under a change of units

  lemma ScaledInit(xs: seq<real>, k: real)
    requires xs != []
    ensures Scaled(xs, k)[..|xs| - 1] == Scaled(xs[..|xs| - 1], k)
    ensures Scaled(xs, k)[|xs| - 1] == Times(k, xs[|xs| - 1])
  {
    hide Times;
  }

  lemma {:induction false} TotalScaled(xs: seq<real>, k: real)
    ensures Total(Scaled(xs, k)) == Times(k, Total(xs))
  {
    hide Times;
    if xs == [] {
      TimesZero(k);
    } else {
      TotalScaled(xs[..|xs| - 1], k);
      ScaledInit(xs, k);
      Distribute(k, Total(xs[..|xs| - 1]), xs[|xs| - 1]);
    }
  }

  lemma MeanScaled(xs: seq<real>, k: real)
    ensures Mean(Scaled(xs, k)) == Times(k, Mean(xs))
  {
    hide Times;
    TotalScaled(xs, k);
    if xs == [] {
      TimesZero(k);
    } else {
      ScaledQuotient(k, Total(xs), |xs| as real);
    }
  }

  lemma ScaledQuotient(k: real, x: real, y: real)
    requires y != 0.0
    ensures Times(k, x) / y == Times(k, x / y)
  {
    var q := x / y;
    assert q * y == x;
    assert (k * q) * y == k * x;
  }

  lemma SameQuotient(k: real, x: real, y: real)
    requires k > 0.0 && y != 0.0
    ensures Times(k, y) != 0.0 && Times(k, x) / Times(k, y) == x / y
  {
    var q := x / y;
    assert q * y == x;
    assert q * (k * y) == k * x;
  }

  lemma LastScaled(xs: seq<real>, k: real, n: nat)
    ensures Last(Scaled(xs, k), n) == Scaled(Last(xs, n), k)
  {
    hide Times;
  }

  lemma PositiveScaled(xs: seq<real>, k: real)
    requires k > 0.0
    ensures Positive(Scaled(xs, k)) <==> Positive(xs)
    ensures (exists i :: 0 <= i < |xs| && Scaled(xs, k)[i] < 0.0) <==> exists i :: 0 <= i < |xs| && xs[i] < 0.0
  {
    hide Times;
    forall i | 0 <= i < |xs|
      ensures Scaled(xs, k)[i] > 0.0 <==> xs[i] > 0.0
      ensures Scaled(xs, k)[i] < 0.0 <==> xs[i] < 0.0
    {
      SignKept(k, xs[i]);
    }
    if Positive(Scaled(xs, k)) {
      forall i | 0 <= i < |xs| ensures xs[i] > 0.0 {
        assert Scaled(xs, k)[i] > 0.0;
      }
    }
  }

  lemma SignKept(k: real, x: real)
    requires k > 0.0
    ensures Times(k, x) > 0.0 <==> x > 0.0
    ensures Times(k, x) < 0.0 <==> x < 0.0
  {
  }

  lemma MaxTimes(k: real, x: real, y: real)
    requires k > 0.0
    ensures Max(Times(k, x), Times(k, y)) == Times(k, Max(x, y))
  {
    hide Times;
    Distribute(k, x, y);
    SignKept(k, x - y);
  }

  lemma {:induction false} PeakScaled(xs: seq<real>, k: real)
    requires k > 0.0
    ensures Peak(Scaled(xs, k)) == Times(k, Peak(xs))
  {
    hide Times, Max;
    if xs == [] {
      TimesZero(k);
    } else if |xs| > 1 {
      PeakScaled(xs[..|xs| - 1], k);
      ScaledInit(xs, k);
      MaxTimes(k, Peak(xs[..|xs| - 1]), xs[|xs| - 1]);
    }
  }

  lemma ReturnScaled(previous: real, current: real, k: real)
    requires k > 0.0 && previous > 0.0
    ensures Times(k, previous) > 0.0
    ensures AbsoluteReturn(Times(k, previous), Times(k, current)) == AbsoluteReturn(previous, current)
  {
    hide Times, Abs;
    SignKept(k, previous);
    SameQuotient(k, current, previous);
  }

  lemma ReturnsScaled(closes: seq<real>, k: real)
    requires k > 0.0 && Positive(closes) && Positive(Scaled(closes, k))
    ensures AbsoluteReturns(Scaled(closes, k)) == AbsoluteReturns(closes)
  {
    hide Times, AbsoluteReturn;
    var a, b := AbsoluteReturns(closes), AbsoluteReturns(Scaled(closes, k));
    forall i | 0 <= i < |a| ensures a[i] == b[i] {
      ReturnScaled(closes[i], closes[i + 1], k);
    }
  }

  lemma TrendScaled(closes: seq<real>, k: real)
    requires k > 0.0 && closes != [] && Positive(closes) && Positive(Scaled(closes, k))
    ensures Trend(Scaled(closes, k)) == Trend(closes)
  {
    hide Times, Clamp;
    SameQuotient(k, closes[|closes| - 1], closes[0]);
  }

  lemma MovingAverageScaled(closes: seq<real>, k: real)
    requires k > 0.0 && closes != [] && Positive(closes) && Positive(Scaled(closes, k))
    ensures MovingAverage(Scaled(closes, k)) == MovingAverage(closes)
  {
    hide Times, Clamp, Mean, Last;
    LastScaled(closes, k, 5);
    LastScaled(closes, k, 20);
    MeanScaled(Last(closes, 5), k);
    MeanScaled(Last(closes, 20), k);
    LastPositive(closes);
    SameQuotient(k, Mean(Last(closes, 5)), Mean(Last(closes, 20)));
  }

  lemma DrawdownScaled(closes: seq<real>, k: real)
    requires k > 0.0 && closes != [] && Positive(closes) && Positive(Scaled(closes, k))
    ensures Drawdown(Scaled(closes, k)) == Drawdown(closes)
  {
    hide Times, Clamp, Peak;
    var last := closes[|closes| - 1];
    PeakScaled(closes, k);
    PeakIsMax(closes);
    Distribute(k, Peak(closes), last);
    SameQuotient(k, Peak(closes) - last, Peak(closes));
  }

  lemma VolatilityScaled(closes: seq<real>, k: real)
    requires k > 0.0 && Positive(closes) && Positive(Scaled(closes, k))
    ensures Volatility(Scaled(closes, k)) == Volatility(closes)
  {
    hide Times, Clamp, Mean, AbsoluteReturns;
    ReturnsScaled(closes, k);
  }

  lemma LastPositive(closes: seq<real>)
    requires closes != [] && Positive(closes)
    ensures Mean(Last(closes, 20)) > 0.0
  {
    MeanPositive(Last(closes, 20));
  }

  lemma VolumeScaled(volumes: seq<real>, j: real)
    requires j > 0.0
    ensures VolumeScore(Scaled(volumes, j)) == VolumeScore(volumes)
  {
    hide Times, Mean, Last, Clamp;
    LastScaled(volumes, j, 5);
    LastScaled(volumes, j, 20);
    MeanScaled(Last(volumes, 5), j);
    MeanScaled(Last(volumes, 20), j);
    var baseline := Mean(Last(volumes, 20));
    if baseline == 0.0 {
      TimesZero(j);
    } else {
      SameQuotient(j, Mean(Last(volumes, 5)), baseline);
    }
  }

  lemma EvaluatedScaled(closes: seq<real>, volumes: seq<real>, k: real, j: real, threshold: real)
    requires k > 0.0 && j > 0.0 && closes != [] && Positive(closes) && Positive(Scaled(closes, k))
    ensures Evaluated(Scaled(closes, k), Scaled(volumes, j), threshold)
         == var r := Evaluated(closes, volumes, threshold); r.(price := Times(k, r.price))
  {
    hide Times, Trend, MovingAverage, Volatility, VolumeScore, Drawdown, Score, FinalScore, Recommend, Directional;
    TrendScaled(closes, k);
    MovingAverageScaled(closes, k);
    VolatilityScaled(closes, k);
    DrawdownScaled(closes, k);
    VolumeScaled(volumes, j);
  }

  /** The signal does not depend on the units of prices and volumes: only the reported price changes. */
  lemma UnitsDoNotMatter(candles: seq<Candle>, k: real, j: int, threshold: real)
    requires k > 0.0 && j > 0
    ensures var r, s := Calculate(candles, threshold), Calculate(InUnits(candles, k, j), threshold);
            if r.Failure? then s == r else s == Success(r.value.(price := Times(k, r.value.price)))
  {
    hide Times, Ordered, Evaluated, Positive;
    var closes, volumes := Closes(Ordered(candles)), Volumes(Ordered(candles));
    OrderedInUnits(candles, k, j);
    PositiveScaled(closes, k);
    PositiveScaled(volumes, j as real);
    if Positive(closes) && closes != [] {
      EvaluatedScaled(closes, volumes, k, j as real, threshold);
    }
  }

  // ------------------------------------------------------------- order of the candles

  ghost predicate DistinctTimes(candles: seq<Candle>) {
    forall i, j :: 0 <= i < j < |candles| ==> candles[i].time != candles[j].time
  }

  ghost predicate Chronological(candles: seq<Candle>) {
    forall i, j :: 0 <= i < j < |candles| ==> candles[i].time <= candles[j].time
  }

  lemma {:induction false} InsertKeeps(s: seq<Candle>, c: Candle)
    ensures multiset(Insert(s, c)) == multiset(s) + multiset{c}
  {
    if s != [] && c.time < s[|s| - 1].time {
      assert s == s[..|s| - 1] + [s[|s| - 1]];
      InsertKeeps(s[..|s| - 1], c);
    }
  }

  lemma {:induction false} InsertSorted(s: seq<Candle>, c: Candle)
    requires Chronological(s)
    ensures Chronological(Insert(s, c))
  {
    if s != [] && c.time < s[|s| - 1].time {
      var init, last := s[..|s| - 1], s[|s| - 1];
      InsertSorted(init, c);
      InsertKeeps(init, c);
      forall x | x in Insert(init, c) ensures x.time <= last.time {
        assert x in multiset(Insert(init, c));
        assert x in init || x == c;
      }
    }
  }

  /** Ordering keeps the candles and sorts them by time. */
  lemma {:induction false} ByTimeSorts(candles: seq<Candle>)
    ensures Chronological(ByTime(candles)) && multiset(ByTime(candles)) == multiset(candles)
  {
    if candles != [] {
      var init, last := candles[..|candles| - 1], candles[|candles| - 1];
      assert candles == init + [last];
      ByTimeSorts(init);
      InsertSorted(ByTime(init), last);
      InsertKeeps(ByTime(init), last);
    }
  }

  lemma {:induction false} CompleteCounts(candles: seq<Candle>, c: Candle)
    ensures multiset(CompleteOnes(candles))[c] == if c.complete then multiset(candles)[c] else 0
  {
    if candles != [] {
      var init, last := candles[..|candles| - 1], candles[|candles| - 1];
      assert candles == init + [last];
      CompleteCounts(init, c);
    }
  }

  /** Equal times mean equal candles. */
  ghost predicate TimesIdentify(m: multiset<Candle>) {
    forall c, d :: c in m && d in m && c.time == d.time ==> c == d && m[c] == 1
  }

  lemma LastIsLatest(a: seq<Candle>, c: Candle)
    requires Chronological(a) && c in a
    ensures c.time <= a[|a| - 1].time
  {
  }

  lemma MultisetInit(a: seq<Candle>)
    requires a != []
    ensures multiset(a[..|a| - 1]) == multiset(a) - multiset{a[|a| - 1]}
  {
    assert a == a[..|a| - 1] + [a[|a| - 1]];
  }

  lemma SameLast(a: seq<Candle>, b: seq<Candle>)
    requires Chronological(a) && Chronological(b) && multiset(a) == multiset(b) && TimesIdentify(multiset(a))
    requires a != [] && b != []
    ensures a[|a| - 1] == b[|b| - 1]
  {
    var x, y := a[|a| - 1], b[|b| - 1];
    assert x in multiset(b) && y in multiset(a);
    LastIsLatest(a, y);
    LastIsLatest(b, x);
  }

  lemma {:induction false} SortedUnique(a: seq<Candle>, b: seq<Candle>)
    requires Chronological(a) && Chronological(b) && multiset(a) == multiset(b) && TimesIdentify(multiset(a))
    ensures a == b
  {
    hide TimesIdentify, Chronological;
    assert |multiset(a)| == |a| && |multiset(b)| == |b|;
    if a != [] {
      SameLast(a, b);
      var x, first, second := a[|a| - 1], a[..|a| - 1], b[..|b| - 1];
      MultisetInit(a);
      MultisetInit(b);
      InitIdentify(a);
      InitChronological(a);
      InitChronological(b);
      SortedUnique(first, second);
      assert a == first + [x] && b == second + [x];
    }
  }

  lemma InitChronological(a: seq<Candle>)
    requires a != [] && Chronological(a)
    ensures Chronological(a[..|a| - 1])
  {
  }

  lemma InitIdentify(a: seq<Candle>)
    requires a != [] && TimesIdentify(multiset(a))
    ensures TimesIdentify(multiset(a[..|a| - 1]))
  {
    MultisetInit(a);
  }

  lemma DistinctIdentify(candles: seq<Candle>)
    requires DistinctTimes(candles)
    ensures TimesIdentify(multiset(candles))
  {
    forall c, d | c in multiset(candles) && d in multiset(candles) && c.time == d.time
      ensures c == d && multiset(candles)[c] == 1
    {
      var i :| 0 <= i < |candles| && candles[i] == c;
      var j :| 0 <= j < |candles| && candles[j] == d;
      assert i == j;
      OnceAt(candles, i);
    }
  }

  lemma OnceAt(candles: seq<Candle>, i: nat)
    requires i < |candles| && DistinctTimes(candles)
    ensures multiset(candles)[candles[i]] == 1
  {
    var before, after := candles[..i], candles[i + 1..];
    assert candles == before + [candles[i]] + after;
    assert candles[i] !in before && candles[i] !in after;
  }

  /** If no two complete candles have the same time, the order of the candles is irrelevant. */
  lemma OrderDoesNotMatter(candles: seq<Candle>, shuffled: seq<Candle>, threshold: real)
    requires multiset(candles) == multiset(shuffled) && DistinctTimes(CompleteOnes(candles))
    ensures Calculate(shuffled, threshold) == Calculate(candles, threshold)
  {
    hide Evaluated, ByTime, CompleteOnes;
    var a, b := CompleteOnes(candles), CompleteOnes(shuffled);
    forall c ensures multiset(a)[c] == multiset(b)[c] {
      CompleteCounts(candles, c);
      CompleteCounts(shuffled, c);
    }
    assert multiset(a) == multiset(b);
    DistinctIdentify(a);
    ByTimeSorts(a);
    ByTimeSorts(b);
    SortedUnique(ByTime(a), ByTime(b));
  }
}
