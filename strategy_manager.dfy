/** StrategyManager of strategy_manager.py: a registry of named policies, the
    name of the active one, the FailSafes gates in front of its signal, and a
    first-match table that picks a policy from the market regime. */
module Strategies {
  import opened Wrappers
  import opened Market
  import opened Policies
  import opened Adaptive
  import opened Risk

  const DefaultStrategy: string := "ml_strategy"

  /** The registry, name to policy. */
  const Registry: map<string, Policy> := map[
    "ml_strategy" := MlPolicy,
    "mean_reversion" := MeanReversionPolicy,
    "trend_following" := TrendFollowingPolicy,
    "rsi_divergence" := RsiDivergencePolicy,
    "bollinger_bands" := BollingerBandPolicy,
    "sma_crossover" := SmaCrossoverPolicy,
    "scalping" := ScalpingPolicy,
    "momentum" := MomentumPolicy,
    "breakout" := BreakoutPolicy,
    "volume_spike" := VolumeSpikePolicy,
    "support_resistance" := SupportResistancePolicy,
    "fibonacci_retracement" := FibonacciPolicy,
    "stochastic_oscillator" := StochasticPolicy,
    "volume_price_analysis" := VolumePricePolicy,
    "adaptive_strategy" := AdaptivePolicy]

  /** The signal of the registered policy `name`; the adaptive policy answers
      with the given weights. */
  function PolicySignal(name: string, weights: map<string, real>, w: Window, ind: Indicators): (r: int)
    requires name in Registry && ValidWindow(w)
    ensures -1 <= r <= 1
    ensures |w| < MinWindow(Registry[name]) ==> r == 0
  {
    var policy := Registry[name];
    if policy == AdaptivePolicy then AdaptiveSignal(weights, w, ind) else RuleSignal(policy, w, ind)
  }

  /** The four market metrics auto_switch_strategy reads, with the window length. */
  datatype Regime = Regime(volatility: real, trendStrength: real, volumeRatio: real, rsi: real, length: nat)

  const SwitchMinWindow: nat := 50
  const VolumeLookback: nat := 20

  /** Last volume over the mean of the last 20; 1 when that mean is not positive. */
  function VolumeRatio(w: Window): (r: real)
    requires |w| > 0
    ensures ValidWindow(w) ==> r >= 0.0
    ensures Mean(Tail(Volumes(w), VolumeLookback)) <= 0.0 ==> r == 1.0
    ensures Mean(Tail(Volumes(w), VolumeLookback)) > 0.0 ==> r * Mean(Tail(Volumes(w), VolumeLookback)) == Last(Volumes(w))
  {
    var volumes := Volumes(w);
    var average := Mean(Tail(volumes, VolumeLookback));
    if average > 0.0 then
      RatioCompare(Last(volumes), average, 0.0);
      Last(volumes) / average
    else 1.0
  }

  function RegimeOf(w: Window, ind: Indicators): Regime
    requires |w| > 0
  {
    Regime(ind.volatility, Abs(ind.trendSlope), VolumeRatio(w), ind.rsi, |w|)
  }

  /** The names auto_switch_strategy may select. */
  const SwitchTargets: set<string> := {
    "mean_reversion", "momentum", "sma_crossover", "volume_spike",
    "rsi_divergence", "breakout", "scalping", "support_resistance"}

  /** The decision table of auto_switch_strategy, first match wins. */
  function ChooseStrategy(m: Regime): (name: string)
    ensures name in SwitchTargets && name in Registry
  {
    if m.volatility > 0.05 && m.trendStrength < 0.001 then "mean_reversion"
    else if m.volatility > 0.05 && m.trendStrength > 0.002 then "momentum"
    else if m.volatility < 0.02 then "sma_crossover"
    else if m.volumeRatio > 2.0 then "volume_spike"
    else if m.rsi < 30.0 || m.rsi > 70.0 then "rsi_divergence"
    else if m.length > 100 && m.trendStrength > 0.001 then "breakout"
    else if m.volatility > 0.03 then "scalping"
    else "support_resistance"
  }

  /** The table again, as eight numbered (condition, target) rows. */
  predicate RuleFires(k: nat, m: Regime) {
    match k
    case 0 => m.volatility > 0.05 && m.trendStrength < 0.001
    case 1 => m.volatility > 0.05 && m.trendStrength > 0.002
    case 2 => m.volatility < 0.02
    case 3 => m.volumeRatio > 2.0
    case 4 => m.rsi < 30.0 || m.rsi > 70.0
    case 5 => m.length > 100 && m.trendStrength > 0.001
    case 6 => m.volatility > 0.03
    case _ => true
  }

  function RuleTarget(k: nat): string {
    match k
    case 0 => "mean_reversion"
    case 1 => "momentum"
    case 2 => "sma_crossover"
    case 3 => "volume_spike"
    case 4 => "rsi_divergence"
    case 5 => "breakout"
    case 6 => "scalping"
    case _ => "support_resistance"
  }

  const RuleCount: nat := 8

  /** Exactly one row decides: the chosen name is the target of the first row
      that fires, and of no other row. */
  lemma FirstMatchWins(m: Regime, k: nat)
    requires k < RuleCount && RuleFires(k, m)
    requires forall j :: 0 <= j < k ==> !RuleFires(j, m)
    ensures ChooseStrategy(m) == RuleTarget(k)
    ensures forall j :: 0 <= j < RuleCount && j != k ==> RuleTarget(j) != ChooseStrategy(m)
  {
    if k > 0 { assert !RuleFires(0, m); }
    if k > 1 { assert !RuleFires(1, m); }
    if k > 2 { assert !RuleFires(2, m); }
    if k > 3 { assert !RuleFires(3, m); }
    if k > 4 { assert !RuleFires(4, m); }
    if k > 5 { assert !RuleFires(5, m); }
    if k > 6 { assert !RuleFires(6, m); }
  }

  /** High volatility with a weak trend selects mean reversion whatever the
      volume and the RSI say. */
  lemma VolatileRangeMeansReversion(m: Regime, volumeRatio: real, rsi: real)
    requires m.volatility > 0.05 && m.trendStrength < 0.001
    ensures ChooseStrategy(m) == "mean_reversion"
    ensures ChooseStrategy(m.(volumeRatio := volumeRatio, rsi := rsi)) == "mean_reversion"
  {
  }

  /** The breakout row needs strictly more than 100 rows. */
  lemma BreakoutNeedsMoreThanHundred(m: Regime)
    requires m.length <= 100
    ensures ChooseStrategy(m) != "breakout"
  {
  }

  class StrategyManager {
    /** The name of the policy get_signal asks. */
    var activeStrategy: string
    const failSafes: FailSafes
    /** The one AdaptiveStrategy object the registry holds. */
    const adaptive: AdaptiveStrategy

    ghost predicate Valid()
      reads this, failSafes, adaptive
    {
      activeStrategy in Registry && failSafes.Valid() && adaptive.Valid()
    }

    constructor ()
      ensures Valid() && fresh(failSafes) && fresh(adaptive)
      ensures activeStrategy == DefaultStrategy
      ensures !failSafes.emergencyStop && failSafes.tradeHistory == [] && failSafes.consecutiveLosses == 0
      ensures failSafes.dailyStartBalance == InitialBalance && failSafes.currentBalance == InitialBalance
      ensures failSafes.peakBalance == InitialBalance
      ensures forall n :: n in BasketNames ==> adaptive.performanceWeights[n] == InitialWeight
    {
      activeStrategy := DefaultStrategy;
      failSafes := new FailSafes();
      adaptive := new AdaptiveStrategy();
    }

    /** StrategyManager.set_active_strategy: only a registered name is taken. */
    method SetActiveStrategy(strategyName: string)
      requires Valid()
      modifies this
      ensures Valid()
      ensures activeStrategy == if strategyName in Registry then strategyName else old(activeStrategy)
    {
      if strategyName in Registry {
        activeStrategy := strategyName;
      }
    }

    /** StrategyManager.get_signal. The fail-safes are asked first; None is the
        ZeroDivisionError their daily-loss ratio raises on a zero day-start
        balance. A stop answers 0, high volatility answers 0, and otherwise the
        active policy answers. */
    method GetSignal(w: Window, ind: Indicators) returns (signal: Option<int>)
      requires Valid() && ValidWindow(w)
      ensures signal.None? <==> failSafes.ShouldStopTrading().None?
      ensures failSafes.ShouldStopTrading() == Some(true) ==> signal == Some(0)
      ensures failSafes.ShouldStopTrading() == Some(false) && IsHighVolatility(w) ==> signal == Some(0)
      ensures failSafes.ShouldStopTrading() == Some(false) && !IsHighVolatility(w) ==>
        signal == Some(PolicySignal(activeStrategy, adaptive.performanceWeights, w, ind))
      ensures signal.Some? ==> -1 <= signal.value <= 1
    {
      var stop := failSafes.ShouldStopTrading();
      if stop.None? {
        return None;
      }
      if stop.value {
        return Some(0);
      }
      var policy := Registry[activeStrategy];
      var s;
      if policy == AdaptivePolicy {
        s := adaptive.GetSignal(w, ind);
      } else {
        s := RuleSignal(policy, w, ind);
      }
      if IsHighVolatility(w) {
        s := 0;
      }
      return Some(s);
    }

    /** StrategyManager.update_after_trade: hands the trade to the fail-safes. */
    method UpdateAfterTrade(tradeResult: TradeResult)
      requires Valid()
      modifies failSafes
      ensures Valid()
      ensures failSafes.tradeHistory == old(failSafes.tradeHistory) + [tradeResult]
      ensures failSafes.currentBalance == old(failSafes.currentBalance) + Pnl(tradeResult)
      ensures failSafes.consecutiveLosses == if Pnl(tradeResult) < 0.0 then old(failSafes.consecutiveLosses) + 1 else 0
      ensures failSafes.peakBalance >= old(failSafes.peakBalance) && failSafes.peakBalance >= failSafes.currentBalance
      ensures failSafes.emergencyStop == old(failSafes.emergencyStop)
      ensures failSafes.dailyStartBalance == old(failSafes.dailyStartBalance)
    {
      failSafes.UpdateTradeHistory(tradeResult);
    }

    /** StrategyManager.auto_switch_strategy: nothing below 50 rows, otherwise
        the table's choice becomes active. */
    method AutoSwitchStrategy(w: Window, ind: Indicators)
      requires Valid()
      modifies this
      ensures Valid()
      ensures |w| < SwitchMinWindow ==> activeStrategy == old(activeStrategy)
      ensures |w| >= SwitchMinWindow ==> activeStrategy == ChooseStrategy(RegimeOf(w, ind))
    {
      if |w| < SwitchMinWindow {
        return;
      }
      var regime := RegimeOf(w, ind);
      SetActiveStrategy(ChooseStrategy(regime));
    }
  }
}
