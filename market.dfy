/** The market window every policy reads: an ordered sequence of OHLCV periods,
    oldest first, and the arithmetic the policies apply to its columns
    (pandas `tail`, `mean`, `max`, `min` and the sample standard deviation). */
module Market {
  import opened Wrappers

  /** One period of the window. */
  datatype Bar = Bar(open: real, high: real, low: real, close: real, volume: real)

  type Window = seq<Bar>

  /** A vote of a classifier: sell, hold or buy. */
  type Vote = v: int | -1 <= v <= 1

  /** Indicator values that the source obtains from TA-Lib, pandas and the
      trained classifier. They are functions of the window that this model does
      not compute; each field is the last (or, for `prev…`, the second to last)
      value of the named series. */
  datatype Indicators = Indicators(
    ema20: real, ema50: real,                 // EMA(close, 20), EMA(close, 50)
    rsi: real, prevRsi: real,                 // RSI(close, 14)
    upperBand: real, lowerBand: real,         // BBANDS(close, 20, 2, 2)
    roc: real,                                // ROC(close, 10)
    macd: real, macdSignal: real,             // MACD(close, 12, 26, 9)
    slowK: real, slowD: real, prevSlowK: real,// STOCH(high, low, close, 14, 3, 3)
    trendSlope: real,                         // LINEARREG_SLOPE(close, 20)
    volatility: real,                         // close.pct_change().std() * sqrt(24)
    mlPrediction: Option<Vote>)               // classifier output, None when no feature row survives

  /** The source divides by closes, highs and lows without a check; the model
      takes the market's prices as positive and volumes as non-negative. */
  ghost predicate ValidWindow(w: Window) {
    forall i :: 0 <= i < |w| ==>
      w[i].high > 0.0 && w[i].low > 0.0 && w[i].close > 0.0 && w[i].volume >= 0.0
  }

  function Closes(w: Window): (c: seq<real>)
    ensures |c| == |w| && forall i {:trigger c[i]} :: 0 <= i < |w| ==> c[i] == w[i].close
  {
    seq(|w|, i requires 0 <= i < |w| => w[i].close)
  }

  function Highs(w: Window): (c: seq<real>)
    ensures |c| == |w| && forall i {:trigger c[i]} :: 0 <= i < |w| ==> c[i] == w[i].high
  {
    seq(|w|, i requires 0 <= i < |w| => w[i].high)
  }

  function Lows(w: Window): (c: seq<real>)
    ensures |c| == |w| && forall i {:trigger c[i]} :: 0 <= i < |w| ==> c[i] == w[i].low
  {
    seq(|w|, i requires 0 <= i < |w| => w[i].low)
  }

  function Volumes(w: Window): (c: seq<real>)
    ensures |c| == |w| && forall i {:trigger c[i]} :: 0 <= i < |w| ==> c[i] == w[i].volume
  {
    seq(|w|, i requires 0 <= i < |w| => w[i].volume)
  }

  /** pandas `tail(n)`: the last `n` items, or all of them when there are fewer. */
  function Tail(s: seq<real>, n: nat): (r: seq<real>)
    ensures |r| == if |s| <= n then |s| else n
    ensures forall i :: 0 <= i < |r| ==> r[i] == s[|s| - |r| + i]
  {
    if |s| <= n then s else s[|s| - n..]
  }

  function Last(s: seq<real>): real
    requires |s| > 0
  {
    s[|s| - 1]
  }

  function Sum(s: seq<real>): real
    decreases |s|
  {
    if s == [] then 0.0 else Sum(s[..|s| - 1]) + s[|s| - 1]
  }

  function Mean(s: seq<real>): real
    requires |s| > 0
  {
    Sum(s) / |s| as real
  }

  /** pandas `max()` of a non-empty column. */
  function Max(s: seq<real>): (m: real)
    requires |s| > 0
    ensures m in s
    ensures forall i :: 0 <= i < |s| ==> s[i] <= m
    decreases |s|
  {
    if |s| == 1 then s[0]
    else
      var m := Max(s[..|s| - 1]);
      if s[|s| - 1] > m then s[|s| - 1] else m
  }

  /** pandas `min()` of a non-empty column. */
  function Min(s: seq<real>): (m: real)
    requires |s| > 0
    ensures m in s
    ensures forall i :: 0 <= i < |s| ==> m <= s[i]
    decreases |s|
  {
    if |s| == 1 then s[0]
    else
      var m := Min(s[..|s| - 1]);
      if s[|s| - 1] < m then s[|s| - 1] else m
  }

  /** Sum of squared deviations from `m`. */
  function SquaredDeviations(s: seq<real>, m: real): (r: real)
    ensures r >= 0.0
    decreases |s|
  {
    if s == [] then 0.0
    else SquaredDeviations(s[..|s| - 1], m) + Square(s[|s| - 1] - m)
  }

  function Square(x: real): (r: real)
    ensures r >= 0.0
  {
    if x >= 0.0 then x * x else (-x) * (-x)
  }

  /** The sample variance (pandas' default of one degree of freedom); the
      rolling standard deviation of the source is its square root. */
  function Variance(s: seq<real>): (v: real)
    requires |s| >= 2
    ensures v >= 0.0
  {
    SquaredDeviations(s, Mean(s)) / (|s| - 1) as real
  }

  lemma {:induction false} SumNonNegative(s: seq<real>)
    requires forall i :: 0 <= i < |s| ==> s[i] >= 0.0
    ensures Sum(s) >= 0.0
    decreases |s|
  {
    if s != [] {
      SumNonNegative(s[..|s| - 1]);
    }
  }

  lemma MulPositive(x: real, y: real)
    requires x > 0.0 && y > 0.0
    ensures x * y > 0.0
  {
  }

  /** `num / den` against a threshold, for a positive `den`, without the division. */
  lemma RatioCompare(num: real, den: real, t: real)
    requires den > 0.0
    ensures num / den > t <==> num > t * den
    ensures num / den < t <==> num < t * den
  {
    var q := num / den;
    assert num == q * den;
    if q > t {
      MulPositive(q - t, den);
    } else if q < t {
      MulPositive(t - q, den);
    }
  }

  /** RatioCompare for a denominator whose sign is not known in advance. */
  lemma RatioCompareWhenPositive(num: real, den: real, t: real)
    ensures den > 0.0 ==> (num / den > t <==> num > t * den)
    ensures den > 0.0 ==> (num / den < t <==> num < t * den)
  {
    if den > 0.0 {
      RatioCompare(num, den, t);
    }
  }
}
