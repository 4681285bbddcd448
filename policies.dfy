/** The rule-based signal policies of strategy_manager.py. Each is a pure
    function of the window (and of indicator values the model takes as given)
    that answers 1 (buy), -1 (sell) or 0 (hold), and answers 0 whenever the
    window is shorter than the policy's minimum length. */
module Policies {
  import opened Wrappers
  import opened Market

  function Abs(x: real): real {
    if x < 0.0 then -x else x
  }

  /** Simple moving average of the last `n` values (TA-Lib `SMA`). */
  function Sma(s: seq<real>, n: nat): real
    requires |s| > 0 && n > 0
  {
    Mean(Tail(s, n))
  }

  /** MLStrategy.get_signal: the classifier's vote on the last feature row. */
  function MlSignal(w: Window, ind: Indicators): (r: int)
    ensures |w| < 30 ==> r == 0
    ensures -1 <= r <= 1
    ensures r != 0 ==> ind.mlPrediction == Some(r)
    ensures |w| >= 30 && ind.mlPrediction.Some? ==> r == ind.mlPrediction.value
    ensures |w| >= 30 && ind.mlPrediction.None? ==> r == 0
  {
    if |w| < 30 then 0
    else
      match ind.mlPrediction
      case None => 0
      case Some(v) => v
  }

  const MeanReversionLookback: nat := 20

  /** MeanReversionStrategy.get_signal, written without a square root: with
      `std` the square root of `variance`, `z < -2` is `mean - price > 2 * std`,
      that is `price < mean` and `(mean - price)^2 > 4 * variance`. The lemma
      MeanReversionIsZScoreRule proves that this is the source's z-score rule. */
  function MeanReversion(w: Window): (r: int)
    ensures |w| < MeanReversionLookback ==> r == 0
    ensures -1 <= r <= 1
    ensures |w| >= MeanReversionLookback && Variance(Tail(Closes(w), MeanReversionLookback)) == 0.0 ==> r == 0
    ensures r == 1 ==> Last(Closes(w)) < Mean(Tail(Closes(w), MeanReversionLookback))
    ensures r == -1 ==> Last(Closes(w)) > Mean(Tail(Closes(w), MeanReversionLookback))
  {
    if |w| < MeanReversionLookback then 0
    else
      var recent := Tail(Closes(w), MeanReversionLookback);
      var mean := Mean(recent);
      var variance := Variance(recent);
      var price := Last(Closes(w));
      if variance > 0.0 then
        if price < mean && Square(mean - price) > 4.0 * variance then 1
        else if price > mean && Square(price - mean) > 4.0 * variance then -1
        else 0
      else 0
  }

  /** The source's rule over the z-score `(price - mean) / std`: buy beyond two
      deviations below the mean, sell beyond two above, nothing when `std` is 0. */
  function ZScoreRule(price: real, mean: real, std: real): int {
    if std > 0.0 then
      var z := (price - mean) / std;
      if z < -2.0 then 1 else if z > 2.0 then -1 else 0
    else 0
  }

  lemma DifferenceOfSquares(a: real, b: real)
    ensures a * a - b * b == (a - b) * (a + b)
  {
  }

  lemma SquareIncreasing(a: real, b: real)
    requires 0.0 <= b < a
    ensures b * b < a * a
  {
    DifferenceOfSquares(a, b);
    MulPositive(a - b, a + b);
  }

  lemma SquareMonotone(a: real, b: real)
    requires a >= 0.0 && b >= 0.0
    ensures a > b <==> Square(a) > Square(b)
  {
    assert Square(a) == a * a && Square(b) == b * b;
    if a > b {
      SquareIncreasing(a, b);
    } else if b > a {
      SquareIncreasing(b, a);
    }
  }

  lemma BelowTwoDeviations(d: real, std: real)
    requires std > 0.0
    ensures d / std < -2.0 <==> -d > 2.0 * std
    ensures d / std > 2.0 <==> d > 2.0 * std
  {
    RatioCompare(d, std, -2.0);
    RatioCompare(d, std, 2.0);
  }

  /** For every `std >= 0` whose square is the window's sample variance (so
      for the rolling standard deviation pandas computes), the sqrt-free rule is
      exactly the z-score rule of the source. */
  lemma MeanReversionIsZScoreRule(w: Window, std: real)
    requires |w| >= MeanReversionLookback && std >= 0.0
    requires std * std == Variance(Tail(Closes(w), MeanReversionLookback))
    ensures MeanReversion(w) == ZScoreRule(Last(Closes(w)), Mean(Tail(Closes(w), MeanReversionLookback)), std)
  {
    var recent := Tail(Closes(w), MeanReversionLookback);
    var mean := Mean(recent);
    var price := Last(Closes(w));
    var variance := Variance(recent);
    if std > 0.0 {
      MulPositive(std, std);
      assert Square(2.0 * std) == 4.0 * variance;
      BelowTwoDeviations(price - mean, std);
      if price < mean {
        SquareMonotone(mean - price, 2.0 * std);
      } else if price > mean {
        SquareMonotone(price - mean, 2.0 * std);
      }
    } else {
      assert variance == 0.0;
    }
  }

  /** A close three deviations above the mean is a sell, three below a buy,
      and one within a single deviation of the mean is a hold. */
  lemma MeanReversionThreeSigma(w: Window, std: real)
    requires |w| >= MeanReversionLookback && std > 0.0
    requires std * std == Variance(Tail(Closes(w), MeanReversionLookback))
    ensures Last(Closes(w)) - Mean(Tail(Closes(w), MeanReversionLookback)) == 3.0 * std ==> MeanReversion(w) == -1
    ensures Last(Closes(w)) - Mean(Tail(Closes(w), MeanReversionLookback)) == -3.0 * std ==> MeanReversion(w) == 1
    ensures Abs(Last(Closes(w)) - Mean(Tail(Closes(w), MeanReversionLookback))) <= std ==> MeanReversion(w) == 0
  {
    var d := Last(Closes(w)) - Mean(Tail(Closes(w), MeanReversionLookback));
    MeanReversionIsZScoreRule(w, std);
    BelowTwoDeviations(d, std);
  }

  /** TrendFollowingStrategy.get_signal: price above EMA20 above EMA50 buys,
      the strict reverse ordering sells. */
  function TrendFollowing(w: Window, ind: Indicators): (r: int)
    ensures |w| < 50 ==> r == 0
    ensures -1 <= r <= 1
    ensures r == 1 <==> |w| >= 50 && Last(Closes(w)) > ind.ema20 > ind.ema50
    ensures r == -1 <==> |w| >= 50 && Last(Closes(w)) < ind.ema20 < ind.ema50
  {
    if |w| < 50 then 0
    else
      var price := Last(Closes(w));
      if price > ind.ema20 > ind.ema50 then 1
      else if price < ind.ema20 < ind.ema50 then -1
      else 0
  }

  /** RSIDivergenceStrategy.get_signal: oversold and rising buys, overbought
      and falling sells. */
  function RsiDivergence(w: Window, ind: Indicators): (r: int)
    ensures |w| < 30 ==> r == 0
    ensures -1 <= r <= 1
    ensures r == 1 ==> ind.rsi < 30.0 && ind.rsi > ind.prevRsi
    ensures r == -1 ==> ind.rsi > 70.0 && ind.rsi < ind.prevRsi
    ensures 30.0 <= ind.rsi <= 70.0 ==> r == 0
  {
    if |w| < 30 then 0
    else if ind.rsi < 30.0 && ind.rsi > ind.prevRsi then 1
    else if ind.rsi > 70.0 && ind.rsi < ind.prevRsi then -1
    else 0
  }

  /** BollingerBandStrategy.get_signal: a close within 0.1% of the lower band
      buys; otherwise one within 0.1% of the upper band sells. */
  function BollingerBand(w: Window, ind: Indicators): (r: int)
    ensures |w| < 25 ==> r == 0
    ensures -1 <= r <= 1
    ensures r == 1 <==> |w| >= 25 && Last(Closes(w)) <= ind.lowerBand * 1.001
    ensures r == -1 ==> Last(Closes(w)) >= ind.upperBand * 0.999
  {
    if |w| < 25 then 0
    else
      var price := Last(Closes(w));
      if price <= ind.lowerBand * 1.001 then 1
      else if price >= ind.upperBand * 0.999 then -1
      else 0
  }

  const FastPeriod: nat := 10
  const SlowPeriod: nat := 20

  /** SMACrossoverStrategy.get_signal: compares the ordering of the 10- and
      20-period averages on the last and on the previous period; only a change
      of ordering gives a signal. */
  function SmaCrossover(w: Window): (r: int)
    ensures |w| < SlowPeriod + 5 ==> r == 0
    ensures -1 <= r <= 1
    ensures r != 0 ==> |w| >= SlowPeriod + 5
    ensures r == 1 ==>
      var c := Closes(w); var before := c[..|c| - 1];
      Sma(before, FastPeriod) <= Sma(before, SlowPeriod) && Sma(c, FastPeriod) > Sma(c, SlowPeriod)
    ensures r == -1 ==>
      var c := Closes(w); var before := c[..|c| - 1];
      Sma(before, FastPeriod) >= Sma(before, SlowPeriod) && Sma(c, FastPeriod) < Sma(c, SlowPeriod)
  {
    if |w| < SlowPeriod + 5 then 0
    else
      var c := Closes(w);
      var before := c[..|c| - 1];
      var fast, slow := Sma(c, FastPeriod), Sma(c, SlowPeriod);
      var prevFast, prevSlow := Sma(before, FastPeriod), Sma(before, SlowPeriod);
      if prevFast <= prevSlow && fast > slow then 1
      else if prevFast >= prevSlow && fast < slow then -1
      else 0
  }

  /** A window whose fast average stays strictly above the slow one on both
      periods gives no signal: the crossover is a one-period comparison, not a
      remembered state. */
  lemma NoCrossoverWithoutFlip(w: Window)
    requires |w| >= SlowPeriod + 5
    requires var c := Closes(w); var before := c[..|c| - 1];
      Sma(before, FastPeriod) > Sma(before, SlowPeriod) && Sma(c, FastPeriod) > Sma(c, SlowPeriod)
    ensures SmaCrossover(w) == 0
  {
  }

  const ScalpingLookback: nat := 5

  /** ScalpingStrategy.get_signal: a move of more than 0.2% over the last five
      closes, confirmed by a last volume above 1.2 times their mean volume. */
  function Scalping(w: Window): (r: int)
    requires ValidWindow(w)
    ensures |w| < ScalpingLookback ==> r == 0
    ensures -1 <= r <= 1
    ensures r != 0 ==> (|w| >= ScalpingLookback &&
      Last(Volumes(w)) > Mean(Tail(Volumes(w), ScalpingLookback)) * 1.2)
    ensures r == 1 ==> Last(Closes(w)) > 1.002 * Closes(w)[|w| - ScalpingLookback]
    ensures r == -1 ==> Last(Closes(w)) < 0.998 * Closes(w)[|w| - ScalpingLookback]
  {
    if |w| < ScalpingLookback then 0
    else
      var prices := Tail(Closes(w), ScalpingLookback);
      var volumes := Tail(Volumes(w), ScalpingLookback);
      assert prices[0] == w[|w| - ScalpingLookback].close;
      var change := (Last(prices) - prices[0]) / prices[0];
      var volumeAvg := Mean(volumes);
      var volume := Last(volumes);
      RatioCompare(Last(prices) - prices[0], prices[0], 0.002);
      RatioCompare(Last(prices) - prices[0], prices[0], -0.002);
      if change > 0.002 && volume > volumeAvg * 1.2 then 1
      else if change < -0.002 && volume > volumeAvg * 1.2 then -1
      else 0
  }

  /** MomentumStrategy.get_signal: rate of change beyond +-2 in the direction
      the MACD line stands relative to its signal line. */
  function Momentum(w: Window, ind: Indicators): (r: int)
    ensures |w| < 20 ==> r == 0
    ensures -1 <= r <= 1
    ensures r == 1 <==> |w| >= 20 && ind.roc > 2.0 && ind.macd > ind.macdSignal
    ensures r == -1 <==> |w| >= 20 && ind.roc < -2.0 && ind.macd < ind.macdSignal
  {
    if |w| < 20 then 0
    else if ind.roc > 2.0 && ind.macd > ind.macdSignal then 1
    else if ind.roc < -2.0 && ind.macd < ind.macdSignal then -1
    else 0
  }

  const BreakoutLookback: nat := 20

  /** BreakoutStrategy.get_signal: a close within 0.5% of (or beyond) the
      20-period high after a previous close not above it buys, the mirror
      image at the 20-period low sells; both need volume above its mean. */
  function Breakout(w: Window): (r: int)
    ensures |w| < BreakoutLookback + 5 ==> r == 0
    ensures -1 <= r <= 1
    ensures r != 0 ==> (|w| >= BreakoutLookback + 5 &&
      Last(Volumes(w)) > Mean(Tail(Volumes(w), BreakoutLookback)))
    ensures r == 1 ==> (Closes(w)[|w| - 2] <= Max(Tail(Highs(w), BreakoutLookback)) &&
      Last(Closes(w)) > Max(Tail(Highs(w), BreakoutLookback)) * 0.995)
    ensures r == -1 ==> (Closes(w)[|w| - 2] >= Min(Tail(Lows(w), BreakoutLookback)) &&
      Last(Closes(w)) < Min(Tail(Lows(w), BreakoutLookback)) * 1.005)
  {
    if |w| < BreakoutLookback + 5 then 0
    else
      var recentHigh := Max(Tail(Highs(w), BreakoutLookback));
      var recentLow := Min(Tail(Lows(w), BreakoutLookback));
      var price := Last(Closes(w));
      var prevPrice := Closes(w)[|w| - 2];
      var avgVolume := Mean(Tail(Volumes(w), BreakoutLookback));
      var volume := Last(Volumes(w));
      if price > recentHigh * 0.995 && volume > avgVolume && prevPrice <= recentHigh then 1
      else if price < recentLow * 1.005 && volume > avgVolume && prevPrice >= recentLow then -1
      else 0
  }

  const VolumeSpikeLookback: nat := 20

  /** VolumeSpikeStrategy.get_signal: a last volume above twice the 20-period
      mean volume, in the direction of the last price move. The volume ratio
      is taken as 0 when the mean volume is 0. */
  function VolumeSpike(w: Window): (r: int)
    ensures |w| < VolumeSpikeLookback ==> r == 0
    ensures -1 <= r <= 1
    ensures r != 0 <==> (|w| >= VolumeSpikeLookback &&
      Mean(Tail(Volumes(w), VolumeSpikeLookback)) > 0.0 &&
      Last(Volumes(w)) > 2.0 * Mean(Tail(Volumes(w), VolumeSpikeLookback)) &&
      Last(Closes(w)) != Closes(w)[|w| - 2])
    ensures r == 1 ==> Last(Closes(w)) > Closes(w)[|w| - 2]
    ensures r == -1 ==> Last(Closes(w)) < Closes(w)[|w| - 2]
  {
    if |w| < VolumeSpikeLookback then 0
    else
      var volumeMa := Mean(Tail(Volumes(w), VolumeSpikeLookback));
      var volume := Last(Volumes(w));
      var price := Last(Closes(w));
      var prevPrice := Closes(w)[|w| - 2];
      var ratio := if volumeMa > 0.0 then volume / volumeMa else 0.0;
      RatioCompareWhenPositive(volume, volumeMa, 2.0);
      if ratio > 2.0 then
        if price > prevPrice then 1
        else if price < prevPrice then -1
        else 0
      else 0
  }

  /** The largest of the last `n` highs of a valid window is positive. */
  lemma PositiveHighs(w: Window, n: nat)
    requires ValidWindow(w) && |w| > 0 && n > 0
    ensures Max(Tail(Highs(w), n)) > 0.0
  {
    var hs := Tail(Highs(w), n);
    var hi :| 0 <= hi < |hs| && hs[hi] == Max(hs);
    assert hs[hi] == w[|w| - |hs| + hi].high;
  }

  /** The smallest of the last `n` lows of a valid window is positive. */
  lemma PositiveLows(w: Window, n: nat)
    requires ValidWindow(w) && |w| > 0 && n > 0
    ensures Min(Tail(Lows(w), n)) > 0.0
  {
    var ls := Tail(Lows(w), n);
    var li :| 0 <= li < |ls| && ls[li] == Min(ls);
    assert ls[li] == w[|w| - |ls| + li].low;
  }

  const PivotLookback: nat := 50

  /** The two bounce tests of SupportResistanceStrategy.get_signal, on the
      last two closes and the pivot levels. */
  function Bounce(price: real, prevPrice: real, pivotHigh: real, pivotLow: real): (r: int)
    requires pivotHigh > 0.0 && pivotLow > 0.0
    ensures -1 <= r <= 1
    ensures r == -1 <==> price < prevPrice && Abs(price - pivotHigh) < 0.01 * pivotHigh
    ensures r == 1 ==> price > prevPrice && Abs(price - pivotLow) < 0.01 * pivotLow
  {
    RatioCompare(Abs(price - pivotHigh), pivotHigh, 0.01);
    RatioCompare(Abs(price - pivotLow), pivotLow, 0.01);
    var resistanceDistance := Abs(price - pivotHigh) / pivotHigh;
    var supportDistance := Abs(price - pivotLow) / pivotLow;
    if resistanceDistance < 0.01 && price < prevPrice then -1
    else if supportDistance < 0.01 && price > prevPrice then 1
    else 0
  }

  /** SupportResistanceStrategy.get_signal: a falling close within 1% of the
      50-period high sells; otherwise a rising close within 1% of the
      50-period low buys. */
  function SupportResistance(w: Window): (r: int)
    requires ValidWindow(w)
    ensures |w| < PivotLookback ==> r == 0
    ensures -1 <= r <= 1
    ensures r == -1 ==> (Last(Closes(w)) < Closes(w)[|w| - 2] &&
      Abs(Last(Closes(w)) - Max(Tail(Highs(w), PivotLookback))) < 0.01 * Max(Tail(Highs(w), PivotLookback)))
    ensures r == 1 ==> (Last(Closes(w)) > Closes(w)[|w| - 2] &&
      Abs(Last(Closes(w)) - Min(Tail(Lows(w), PivotLookback))) < 0.01 * Min(Tail(Lows(w), PivotLookback)))
  {
    if |w| < PivotLookback then 0
    else
      PositiveHighs(w, PivotLookback);
      PositiveLows(w, PivotLookback);
      Bounce(Last(Closes(w)), Closes(w)[|w| - 2], Max(Tail(Highs(w), PivotLookback)), Min(Tail(Lows(w), PivotLookback)))
  }

  const FibonacciLookback: nat := 50
  const FibonacciRatios: seq<real> := [0.236, 0.382, 0.5, 0.618, 0.786]

  /** A retracement level of the range below `high`. */
  function Level(high: real, ratio: real, range: real): real {
    high - ratio * range
  }

  /** The price is within 0.5% of the level, measured relative to the price. */
  predicate NearLevel(price: real, level: real) {
    Abs(price - level) < 0.005 * price
  }

  /** The loop of FibonacciRetracementStrategy.get_signal over the retracement
      levels, in order: the first level within 0.5% of the price that agrees
      with the side of the 20-period average decides; a near level that does not
      agree lets the scan go on. */
  function FibonacciScan(ratios: seq<real>, high: real, range: real, price: real, sma: real): (r: int)
    requires price > 0.0
    ensures -1 <= r <= 1
    ensures r == 1 ==> price > sma
    ensures r == -1 ==> price < sma
    ensures r != 0 ==> exists k :: 0 <= k < |ratios| && NearLevel(price, Level(high, ratios[k], range))
    decreases |ratios|
  {
    if ratios == [] then 0
    else
      var level := Level(high, ratios[0], range);
      var rest := FibonacciScan(ratios[1..], high, range, price, sma);
      assert rest != 0 ==> exists k :: 0 <= k < |ratios| && NearLevel(price, Level(high, ratios[k], range)) by {
        if rest != 0 {
          var k :| 0 <= k < |ratios[1..]| && NearLevel(price, Level(high, ratios[1..][k], range));
          assert ratios[1..][k] == ratios[k + 1];
        }
      }
      RatioCompare(Abs(price - level), price, 0.005);
      if Abs(price - level) / price < 0.005 then
        if price > sma && level > sma then 1
        else if price < sma && level < sma then -1
        else rest
      else rest
  }

  /** FibonacciRetracementStrategy.get_signal over the last 50 highs and lows. */
  function Fibonacci(w: Window): (r: int)
    requires ValidWindow(w)
    ensures |w| < FibonacciLookback ==> r == 0
    ensures -1 <= r <= 1
    ensures r == 1 ==> Last(Closes(w)) > Sma(Closes(w), 20)
    ensures r == -1 ==> Last(Closes(w)) < Sma(Closes(w), 20)
  {
    if |w| < FibonacciLookback then 0
    else
      var recentHigh := Max(Tail(Highs(w), FibonacciLookback));
      var recentLow := Min(Tail(Lows(w), FibonacciLookback));
      var price := Last(Closes(w));
      assert price == w[|w| - 1].close;
      FibonacciScan(FibonacciRatios, recentHigh, recentHigh - recentLow, price, Sma(Closes(w), 20))
  }

  /** StochasticOscillatorStrategy.get_signal: %K and %D below 20 with %K
      rising buys; both above 80 with %K falling sells. */
  function Stochastic(w: Window, ind: Indicators): (r: int)
    ensures |w| < 14 ==> r == 0
    ensures -1 <= r <= 1
    ensures r == 1 <==> |w| >= 14 && ind.slowK < 20.0 && ind.slowD < 20.0 && ind.slowK > ind.prevSlowK
    ensures r == -1 <==> |w| >= 14 && ind.slowK > 80.0 && ind.slowD > 80.0 && ind.slowK < ind.prevSlowK
  {
    if |w| < 14 then 0
    else if ind.slowK < 20.0 && ind.slowD < 20.0 && ind.slowK > ind.prevSlowK then 1
    else if ind.slowK > 80.0 && ind.slowD > 80.0 && ind.slowK < ind.prevSlowK then -1
    else 0
  }

  /** VolumePriceAnalysisStrategy.get_signal: a last volume above 1.5 times its
      20-period average together with a rate of change beyond +-2. */
  function VolumePrice(w: Window, ind: Indicators): (r: int)
    ensures |w| < 20 ==> r == 0
    ensures -1 <= r <= 1
    ensures r != 0 ==> |w| >= 20 && Last(Volumes(w)) > Sma(Volumes(w), 20) * 1.5
    ensures r == 1 ==> ind.roc > 2.0
    ensures r == -1 ==> ind.roc < -2.0
  {
    if |w| < 20 then 0
    else
      var volume := Last(Volumes(w));
      var avgVolume := Sma(Volumes(w), 20);
      if volume > avgVolume * 1.5 && ind.roc > 2.0 then 1
      else if volume > avgVolume * 1.5 && ind.roc < -2.0 then -1
      else 0
  }

  /** The policies a strategy registry can hold, as one tagged variant whose
      single capability is `get_signal`. */
  datatype Policy =
    | MlPolicy
    | MeanReversionPolicy
    | TrendFollowingPolicy
    | RsiDivergencePolicy
    | BollingerBandPolicy
    | SmaCrossoverPolicy
    | ScalpingPolicy
    | MomentumPolicy
    | BreakoutPolicy
    | VolumeSpikePolicy
    | SupportResistancePolicy
    | FibonacciPolicy
    | StochasticPolicy
    | VolumePricePolicy
    | AdaptivePolicy

  /** The shortest window on which each policy may answer anything but 0. */
  function MinWindow(p: Policy): nat {
    match p
    case MlPolicy => 30
    case MeanReversionPolicy => MeanReversionLookback
    case TrendFollowingPolicy => 50
    case RsiDivergencePolicy => 30
    case BollingerBandPolicy => 25
    case SmaCrossoverPolicy => SlowPeriod + 5
    case ScalpingPolicy => ScalpingLookback
    case MomentumPolicy => 20
    case BreakoutPolicy => BreakoutLookback + 5
    case VolumeSpikePolicy => VolumeSpikeLookback
    case SupportResistancePolicy => PivotLookback
    case FibonacciPolicy => FibonacciLookback
    case StochasticPolicy => 14
    case VolumePricePolicy => 20
    case AdaptivePolicy => 50
  }

  /** Dispatch of `get_signal` to the stateless policies (the adaptive policy
      keeps weights and is answered by its own object). */
  function RuleSignal(p: Policy, w: Window, ind: Indicators): (r: int)
    requires ValidWindow(w) && p != AdaptivePolicy
    ensures -1 <= r <= 1
    ensures |w| < MinWindow(p) ==> r == 0
  {
    match p
    case MlPolicy => MlSignal(w, ind)
    case MeanReversionPolicy => MeanReversion(w)
    case TrendFollowingPolicy => TrendFollowing(w, ind)
    case RsiDivergencePolicy => RsiDivergence(w, ind)
    case BollingerBandPolicy => BollingerBand(w, ind)
    case SmaCrossoverPolicy => SmaCrossover(w)
    case ScalpingPolicy => Scalping(w)
    case MomentumPolicy => Momentum(w, ind)
    case BreakoutPolicy => Breakout(w)
    case VolumeSpikePolicy => VolumeSpike(w)
    case SupportResistancePolicy => SupportResistance(w)
    case FibonacciPolicy => Fibonacci(w)
    case StochasticPolicy => Stochastic(w, ind)
    case VolumePricePolicy => VolumePrice(w, ind)
  }
}
