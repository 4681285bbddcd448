/** The StrategyManager of strategy_manager_clean.py: the same gates in front
    of the active policy, over a six-name registry and a four-row switching
    table whose fallback is the classifier. Its policies and fail-safes are the
    ones of the Policies and Risk modules. */
module StrategiesClean {
  import opened Wrappers
  import opened Market
  import opened Policies
  import opened Risk
  import Strategies

  const DefaultStrategy: string := "ml_strategy"

  const Registry: map<string, Policy> := map[
    "ml_strategy" := MlPolicy,
    "mean_reversion" := MeanReversionPolicy,
    "trend_following" := TrendFollowingPolicy,
    "rsi_divergence" := RsiDivergencePolicy,
    "bollinger_bands" := BollingerBandPolicy,
    "sma_crossover" := SmaCrossoverPolicy]

  const RegisteredNames: set<string> := {
    "ml_strategy", "mean_reversion", "trend_following",
    "rsi_divergence", "bollinger_bands", "sma_crossover"}

  /** The registry holds exactly six names. */
  lemma RegistryHasSixNames()
    ensures Registry.Keys == RegisteredNames && |Registry| == 6
  {
  }

  /** Every policy of the registry is registered under the same name in the
      main manager, and none is the adaptive policy. */
  lemma RegistryIsPartOfTheMain(name: string)
    requires name in Registry
    ensures Registry[name] != AdaptivePolicy
    ensures name in Strategies.Registry && Strategies.Registry[name] == Registry[name]
  {
  }

  /** The four-row table of auto_switch_strategy, over volatility and trend
      strength only. */
  function ChooseStrategy(volatility: real, trendStrength: real): (name: string)
    ensures name in Registry
    ensures name != "rsi_divergence" && name != "bollinger_bands"
  {
    if volatility > 0.05 && trendStrength < 0.001 then "mean_reversion"
    else if volatility > 0.05 && trendStrength > 0.002 then "trend_following"
    else if volatility < 0.02 then "sma_crossover"
    else "ml_strategy"
  }

  /** Both tables agree on the rows they share, except that a volatile,
      strongly trending market goes to trend following here and to momentum in
      the main manager. */
  lemma TablesDivergeOnStrongTrend(m: Strategies.Regime)
    ensures m.volatility > 0.05 && m.trendStrength > 0.002 ==>
      ChooseStrategy(m.volatility, m.trendStrength) == "trend_following"
      && Strategies.ChooseStrategy(m) == "momentum"
    ensures (!(m.volatility > 0.05 && m.trendStrength > 0.002)
             && ChooseStrategy(m.volatility, m.trendStrength) != "ml_strategy") ==>
      ChooseStrategy(m.volatility, m.trendStrength) == Strategies.ChooseStrategy(m)
  {
  }

  class StrategyManager {
    var activeStrategy: string
    const failSafes: FailSafes

    ghost predicate Valid()
      reads this, failSafes
    {
      activeStrategy in Registry && failSafes.Valid()
    }

    constructor ()
      ensures Valid() && fresh(failSafes) && activeStrategy == DefaultStrategy
      ensures !failSafes.emergencyStop && failSafes.tradeHistory == [] && failSafes.consecutiveLosses == 0
      ensures failSafes.dailyStartBalance == InitialBalance && failSafes.currentBalance == InitialBalance
      ensures failSafes.peakBalance == InitialBalance
    {
      activeStrategy := DefaultStrategy;
      failSafes := new FailSafes();
    }

    /** set_active_strategy: only a registered name is taken. */
    method SetActiveStrategy(strategyName: string)
      requires Valid()
      modifies this
      ensures Valid()
      ensures activeStrategy == if strategyName in Registry then strategyName else old(activeStrategy)
    {
      if strategyName in Registry {
        activeStrategy := strategyName;
      }
    }

    /** get_signal: None for the fail-safes' ZeroDivisionError, 0 under a stop
        or high volatility, otherwise the active policy's signal. */
    method GetSignal(w: Window, ind: Indicators) returns (signal: Option<int>)
      requires Valid() && ValidWindow(w)
      ensures signal.None? <==> failSafes.ShouldStopTrading().None?
      ensures failSafes.ShouldStopTrading() == Some(true) ==> signal == Some(0)
      ensures failSafes.ShouldStopTrading() == Some(false) && IsHighVolatility(w) ==> signal == Some(0)
      ensures failSafes.ShouldStopTrading() == Some(false) && !IsHighVolatility(w) ==>
        signal == Some(RuleSignal(Registry[activeStrategy], w, ind))
    {
      var stop := failSafes.ShouldStopTrading();
      if stop.None? {
        return None;
      }
      if stop.value {
        return Some(0);
      }
      RegistryIsPartOfTheMain(activeStrategy);
      var s := RuleSignal(Registry[activeStrategy], w, ind);
      if IsHighVolatility(w) {
        s := 0;
      }
      return Some(s);
    }

    /** update_after_trade: hands the trade to the fail-safes. */
    method UpdateAfterTrade(tradeResult: TradeResult)
      requires Valid()
      modifies failSafes
      ensures Valid()
      ensures failSafes.tradeHistory == old(failSafes.tradeHistory) + [tradeResult]
      ensures failSafes.currentBalance == old(failSafes.currentBalance) + Pnl(tradeResult)
      ensures failSafes.consecutiveLosses == if Pnl(tradeResult) < 0.0 then old(failSafes.consecutiveLosses) + 1 else 0
      ensures failSafes.peakBalance >= old(failSafes.peakBalance) && failSafes.peakBalance >= failSafes.currentBalance
      ensures failSafes.emergencyStop == old(failSafes.emergencyStop)
      ensures failSafes.dailyStartBalance == old(failSafes.dailyStartBalance)
    {
      failSafes.UpdateTradeHistory(tradeResult);
    }

    /** auto_switch_strategy: nothing below 50 rows, otherwise the four-row
        table's choice becomes active. */
    method AutoSwitchStrategy(w: Window, ind: Indicators)
      requires Valid()
      modifies this
      ensures Valid()
      ensures |w| < Strategies.SwitchMinWindow ==> activeStrategy == old(activeStrategy)
      ensures |w| >= Strategies.SwitchMinWindow ==>
        activeStrategy == ChooseStrategy(ind.volatility, Abs(ind.trendSlope))
    {
      if |w| < Strategies.SwitchMinWindow {
        return;
      }
      SetActiveStrategy(ChooseStrategy(ind.volatility, Abs(ind.trendSlope)));
    }
  }
}
