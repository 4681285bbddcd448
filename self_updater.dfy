/** SelfUpdater of self_updater.py: books each closed trade, hands it to the
    fail-safes, and decides from the trade list whether the classifier should
    be retrained. */
module Feedback {
  import opened Wrappers
  import opened Risk
  import Strategies

  /** The profit of a closed trade: a long gains when the price rose, a short
      when it fell; any other decision books nothing. */
  function Profit(decision: string, entryPrice: real, exitPrice: real, quantity: real): (p: real)
    ensures decision != "buy" && decision != "sell" ==> p == 0.0
    ensures decision == "buy" && quantity > 0.0 ==> (p > 0.0 <==> exitPrice > entryPrice)
    ensures decision == "sell" && quantity > 0.0 ==> (p > 0.0 <==> exitPrice < entryPrice)
  {
    if decision == "buy" then
      var p := (exitPrice - entryPrice) * quantity;
      SignOfProduct(exitPrice - entryPrice, quantity);
      p
    else if decision == "sell" then
      var p := (entryPrice - exitPrice) * quantity;
      SignOfProduct(entryPrice - exitPrice, quantity);
      p
    else 0.0
  }

  lemma SignOfProduct(x: real, q: real)
    ensures q > 0.0 ==> (x * q > 0.0 <==> x > 0.0)
  {
    if q <= 0.0 {
    } else if x > 0.0 {
      Market.MulPositive(x, q);
    } else {
      assert x * q == -((-x) * q);
      if x < 0.0 {
        Market.MulPositive(-x, q);
      }
    }
  }

  /** A long and a short over the same prices and quantity book opposite profits. */
  lemma LongAndShortAreOpposite(entryPrice: real, exitPrice: real, quantity: real)
    ensures Profit("sell", entryPrice, exitPrice, quantity) == -Profit("buy", entryPrice, exitPrice, quantity)
  {
    assert (entryPrice - exitPrice) * quantity == -((exitPrice - entryPrice) * quantity);
  }

  /** The record record_trade appends: `pnl` carries the profit. */
  function MakeTrade(decision: string, entryPrice: real, exitPrice: real, quantity: real): (t: TradeResult)
    ensures t.pnl == Some(t.profit) && Pnl(t) == t.profit
    ensures t.profit == Profit(decision, entryPrice, exitPrice, quantity)
    ensures t.decision == decision && t.entryPrice == entryPrice
    ensures t.exitPrice == exitPrice && t.quantity == quantity
  {
    var profit := Profit(decision, entryPrice, exitPrice, quantity);
    TradeResult(profit, Some(profit), decision, entryPrice, exitPrice, quantity)
  }

  function TotalProfit(trades: seq<TradeResult>): real
    decreases |trades|
  {
    if trades == [] then 0.0 else TotalProfit(trades[..|trades| - 1]) + trades[|trades| - 1].profit
  }

  /** The number of trades with a positive profit. */
  function Wins(trades: seq<TradeResult>): (n: nat)
    ensures n <= |trades|
    decreases |trades|
  {
    if trades == [] then 0
    else Wins(trades[..|trades| - 1]) + (if trades[|trades| - 1].profit > 0.0 then 1 else 0)
  }

  /** evaluate_performance: (total profit, win rate), (0, 0) without trades. */
  function EvaluatePerformance(trades: seq<TradeResult>): (r: (real, real))
    ensures trades == [] ==> r == (0.0, 0.0)
    ensures 0.0 <= r.1 <= 1.0
    ensures trades != [] ==> r.0 == TotalProfit(trades) && r.1 * |trades| as real == Wins(trades) as real
  {
    if trades == [] then (0.0, 0.0)
    else (TotalProfit(trades), Wins(trades) as real / |trades| as real)
  }

  /** The retrain trigger of update_if_needed. */
  predicate NeedsRetraining(trades: seq<TradeResult>) {
    var (totalProfit, winRate) := EvaluatePerformance(trades);
    winRate < 0.5 || totalProfit < 0.0
  }

  /** Without trades the win rate is 0, so the classifier is retrained. */
  lemma EmptyHistoryRetrains()
    ensures NeedsRetraining([])
  {
  }

  lemma {:induction false} AllWinners(trades: seq<TradeResult>)
    requires forall i :: 0 <= i < |trades| ==> trades[i].profit > 0.0
    ensures Wins(trades) == |trades|
    ensures trades != [] ==> TotalProfit(trades) > 0.0
    decreases |trades|
  {
    if trades != [] {
      AllWinners(trades[..|trades| - 1]);
    }
  }

  lemma {:induction false} AllLosers(trades: seq<TradeResult>)
    requires forall i :: 0 <= i < |trades| ==> trades[i].profit <= 0.0
    ensures Wins(trades) == 0
    decreases |trades|
  {
    if trades != [] {
      AllLosers(trades[..|trades| - 1]);
    }
  }

  /** A history of winners only keeps the classifier. */
  lemma WinnersKeepTheModel(trades: seq<TradeResult>)
    requires trades != []
    requires forall i :: 0 <= i < |trades| ==> trades[i].profit > 0.0
    ensures !NeedsRetraining(trades)
  {
    AllWinners(trades);
    var n := |trades| as real;
    assert EvaluatePerformance(trades).1 == n / n == 1.0;
  }

  /** A history without a single winner retrains it. */
  lemma LosersRetrain(trades: seq<TradeResult>)
    requires forall i :: 0 <= i < |trades| ==> trades[i].profit <= 0.0
    ensures NeedsRetraining(trades)
  {
    AllLosers(trades);
  }

  /** For records whose pnl is their profit, the total profit is the amount by
      which the fail-safes move the balance. */
  lemma {:induction false} TotalProfitIsPnlSum(trades: seq<TradeResult>)
    requires forall i :: 0 <= i < |trades| ==> trades[i].pnl == Some(trades[i].profit)
    ensures TotalProfit(trades) == PnlSum(trades)
    decreases |trades|
  {
    if trades != [] {
      TotalProfitIsPnlSum(trades[..|trades| - 1]);
    }
  }

  class SelfUpdater {
    const strategyManager: Strategies.StrategyManager
    var trades: seq<TradeResult>

    /** The manager is sound and every record carries its profit as pnl. */
    ghost predicate Valid()
      reads this, strategyManager, strategyManager.failSafes, strategyManager.adaptive
    {
      strategyManager.Valid()
      && forall i :: 0 <= i < |trades| ==> trades[i].pnl == Some(trades[i].profit)
    }

    constructor (manager: Strategies.StrategyManager)
      requires manager.Valid()
      ensures Valid() && strategyManager == manager && trades == []
    {
      strategyManager := manager;
      trades := [];
    }

    /** SelfUpdater.record_trade: appends one record and hands the same record
        to the fail-safes. */
    method RecordTrade(decision: string, entryPrice: real, exitPrice: real, quantity: real)
      requires Valid()
      modifies this, strategyManager.failSafes
      ensures Valid()
      ensures trades == old(trades) + [MakeTrade(decision, entryPrice, exitPrice, quantity)]
      ensures strategyManager.failSafes.tradeHistory
        == old(strategyManager.failSafes.tradeHistory) + [MakeTrade(decision, entryPrice, exitPrice, quantity)]
      ensures (strategyManager.failSafes.currentBalance
               == old(strategyManager.failSafes.currentBalance) + Profit(decision, entryPrice, exitPrice, quantity))
      ensures (strategyManager.failSafes.consecutiveLosses
               == if Profit(decision, entryPrice, exitPrice, quantity) < 0.0
                  then old(strategyManager.failSafes.consecutiveLosses) + 1 else 0)
      ensures strategyManager.failSafes.peakBalance >= old(strategyManager.failSafes.peakBalance)
      ensures strategyManager.failSafes.peakBalance >= strategyManager.failSafes.currentBalance
      ensures strategyManager.failSafes.emergencyStop == old(strategyManager.failSafes.emergencyStop)
      ensures strategyManager.failSafes.dailyStartBalance == old(strategyManager.failSafes.dailyStartBalance)
      ensures strategyManager.activeStrategy == old(strategyManager.activeStrategy)
    {
      var tradeResult := MakeTrade(decision, entryPrice, exitPrice, quantity);
      trades := trades + [tradeResult];
      strategyManager.failSafes.UpdateTradeHistory(tradeResult);
    }

    /** SelfUpdater.update_if_needed: whether the classifier is to be retrained
        (the retraining itself is not part of this model). */
    method UpdateIfNeeded() returns (retrain: bool)
      ensures retrain <==> NeedsRetraining(trades)
    {
      var (totalProfit, winRate) := EvaluatePerformance(trades);
      retrain := winRate < 0.5 || totalProfit < 0.0;
    }
  }
}
