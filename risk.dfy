/** FailSafes of strategy_manager.py: the circuit breakers that sit in front of
    every signal — an emergency latch, a daily loss limit, a drawdown limit
    from the running peak, a limit on consecutive losing trades, and a
    volatility breaker over the last ten closes. */
module Risk {
  import opened Wrappers
  import opened Market

  const DailyLossLimit: real := 0.05
  const MaxDrawdownLimit: real := 0.10
  const MaxConsecutiveLosses: nat := 5
  const VolatilityThreshold: real := 0.05
  const VolatilityLookback: nat := 10
  /** The balance the breakers start from (not read from the exchange). */
  const InitialBalance: real := 1000000.0

  /** One entry of the trade history. `pnl` is None for a record that does not
      carry the key; the breakers then count it as 0. */
  datatype TradeResult = TradeResult(
    profit: real, pnl: Option<real>, decision: string,
    entryPrice: real, exitPrice: real, quantity: real)

  /** `trade_result.get('pnl', 0)`. */
  function Pnl(t: TradeResult): real {
    t.pnl.GetOr(0.0)
  }

  function PnlSum(h: seq<TradeResult>): real
    decreases |h|
  {
    if h == [] then 0.0 else PnlSum(h[..|h| - 1]) + Pnl(h[|h| - 1])
  }

  /** The balance after the trades of `h`. */
  function BalanceAfter(h: seq<TradeResult>): real {
    InitialBalance + PnlSum(h)
  }

  /** The running peak of the balance over the trades of `h`. */
  function PeakAfter(h: seq<TradeResult>): (p: real)
    ensures p >= InitialBalance && p >= BalanceAfter(h)
    decreases |h|
  {
    if h == [] then InitialBalance
    else
      var before := PeakAfter(h[..|h| - 1]);
      if before >= BalanceAfter(h) then before else BalanceAfter(h)
  }

  /** The number of losing trades at the end of `h`. */
  function LossStreak(h: seq<TradeResult>): (n: nat)
    ensures n <= |h|
    ensures forall i :: |h| - n <= i < |h| ==> Pnl(h[i]) < 0.0
    ensures n < |h| ==> Pnl(h[|h| - 1 - n]) >= 0.0
    decreases |h|
  {
    if h == [] || Pnl(h[|h| - 1]) >= 0.0 then 0 else LossStreak(h[..|h| - 1]) + 1
  }

  /** The peak never falls below a balance the account has had. */
  lemma {:induction false} PeakDominatesHistory(h: seq<TradeResult>, k: nat)
    requires k <= |h|
    ensures PeakAfter(h) >= BalanceAfter(h[..k])
    ensures PeakAfter(h) >= PeakAfter(h[..k])
    decreases |h|
  {
    if k < |h| {
      var n := |h| - 1;
      assert h[..n][..k] == h[..k];
      PeakDominatesHistory(h[..n], k);
    } else {
      assert h[..k] == h;
    }
  }

  /** The volatility breaker: the last close moved more than 5% from the first
      of the last ten closes (fewer on a shorter window). */
  predicate IsHighVolatility(w: Window)
    requires ValidWindow(w)
  {
    if |w| < 2 then false
    else
      var recent := Tail(Closes(w), VolatilityLookback);
      var change := (Last(recent) - recent[0]) / recent[0];
      (if change >= 0.0 then change else -change) > VolatilityThreshold
  }

  /** The breaker fires exactly when the last close lies outside 5% of the
      first close of the last ten. */
  lemma HighVolatilityBand(w: Window)
    requires ValidWindow(w)
    ensures IsHighVolatility(w) <==>
      (|w| >= 2 &&
       var first := w[|w| - (if |w| <= VolatilityLookback then |w| else VolatilityLookback)].close;
       (w[|w| - 1].close > (1.0 + VolatilityThreshold) * first
        || w[|w| - 1].close < (1.0 - VolatilityThreshold) * first))
  {
    if |w| >= 2 {
      var recent := Tail(Closes(w), VolatilityLookback);
      var first := recent[0];
      assert first == w[|w| - |recent|].close;
      assert Last(recent) == w[|w| - 1].close;
      RatioCompare(Last(recent) - first, first, VolatilityThreshold);
      RatioCompare(Last(recent) - first, first, -VolatilityThreshold);
    }
  }

  /** The dictionary get_status returns. */
  datatype Status = Status(
    emergencyStop: bool, currentBalance: real, dailyLoss: real,
    drawdown: real, consecutiveLosses: nat)

  /** The guard state of the fail-safes, without the history. */
  datatype Guards = Guards(
    emergencyStop: bool, dailyStartBalance: real, peakBalance: real,
    currentBalance: real, consecutiveLosses: nat)

  class FailSafes {
    var emergencyStop: bool
    var dailyStartBalance: real
    var peakBalance: real
    var currentBalance: real
    var consecutiveLosses: nat
    var tradeHistory: seq<TradeResult>

    /** The balance and its peak follow the history; the loss counter never
        exceeds the losing streak at the end of the history. */
    ghost predicate Valid()
      reads this
    {
      currentBalance == BalanceAfter(tradeHistory)
      && peakBalance == PeakAfter(tradeHistory)
      && consecutiveLosses <= LossStreak(tradeHistory)
    }

    /** The current guard state. */
    ghost function GuardState(): Guards
      reads this
    {
      Guards(emergencyStop, dailyStartBalance, peakBalance, currentBalance, consecutiveLosses)
    }

    constructor ()
      ensures Valid()
      ensures !emergencyStop && consecutiveLosses == 0 && tradeHistory == []
      ensures dailyStartBalance == InitialBalance && peakBalance == InitialBalance
      ensures currentBalance == InitialBalance
    {
      emergencyStop := false;
      dailyStartBalance := InitialBalance;
      peakBalance := InitialBalance;
      currentBalance := InitialBalance;
      consecutiveLosses := 0;
      tradeHistory := [];
    }

    /** FailSafes.update_trade_history: appends the trade, books its pnl, counts
        a loss or breaks the streak, and raises the peak if need be. */
    method UpdateTradeHistory(tradeResult: TradeResult)
      requires Valid()
      modifies this
      ensures Valid()
      ensures tradeHistory == old(tradeHistory) + [tradeResult]
      ensures currentBalance == old(currentBalance) + Pnl(tradeResult)
      ensures consecutiveLosses == if Pnl(tradeResult) < 0.0 then old(consecutiveLosses) + 1 else 0
      ensures peakBalance >= old(peakBalance) && peakBalance >= currentBalance
      ensures peakBalance == old(peakBalance) || peakBalance == currentBalance
      ensures emergencyStop == old(emergencyStop) && dailyStartBalance == old(dailyStartBalance)
    {
      tradeHistory := tradeHistory + [tradeResult];
      assert tradeHistory[..|tradeHistory| - 1] == old(tradeHistory);
      var pnl := Pnl(tradeResult);
      currentBalance := currentBalance + pnl;
      if pnl < 0.0 {
        consecutiveLosses := consecutiveLosses + 1;
      } else {
        consecutiveLosses := 0;
      }
      peakBalance := if peakBalance >= currentBalance then peakBalance else currentBalance;
    }

    /** FailSafes.should_stop_trading. None stands for the ZeroDivisionError
        the daily-loss ratio raises once the day started at a zero balance. */
    function ShouldStopTrading(): (r: Option<bool>)
      reads this
      requires Valid()
      ensures r.None? <==> !emergencyStop && dailyStartBalance == 0.0
      ensures emergencyStop ==> r == Some(true)
      ensures dailyStartBalance != 0.0 && consecutiveLosses >= MaxConsecutiveLosses ==> r == Some(true)
      ensures dailyStartBalance > 0.0 && currentBalance < (1.0 - DailyLossLimit) * dailyStartBalance ==> r == Some(true)
      ensures dailyStartBalance != 0.0 && currentBalance < (1.0 - MaxDrawdownLimit) * peakBalance ==> r == Some(true)
      ensures r == Some(false) ==>
        (!emergencyStop && consecutiveLosses < MaxConsecutiveLosses
         && currentBalance >= (1.0 - MaxDrawdownLimit) * peakBalance
         && (dailyStartBalance > 0.0 ==> currentBalance >= (1.0 - DailyLossLimit) * dailyStartBalance))
    {
      if emergencyStop then Some(true)
      else if dailyStartBalance == 0.0 then None
      else
        var dailyLoss := (dailyStartBalance - currentBalance) / dailyStartBalance;
        var drawdown := (peakBalance - currentBalance) / peakBalance;
        RatioCompare(peakBalance - currentBalance, peakBalance, MaxDrawdownLimit);
        RatioCompareWhenPositive(dailyStartBalance - currentBalance, dailyStartBalance, DailyLossLimit);
        if dailyLoss > DailyLossLimit then Some(true)
        else if drawdown > MaxDrawdownLimit then Some(true)
        else if consecutiveLosses >= MaxConsecutiveLosses then Some(true)
        else Some(false)
    }

    /** FailSafes.emergency_stop_trading: sets the latch, which nothing clears. */
    method EmergencyStopTrading()
      requires Valid()
      modifies this
      ensures Valid() && emergencyStop
      ensures dailyStartBalance == old(dailyStartBalance) && peakBalance == old(peakBalance)
      ensures currentBalance == old(currentBalance) && consecutiveLosses == old(consecutiveLosses)
      ensures tradeHistory == old(tradeHistory)
    {
      emergencyStop := true;
    }

    /** FailSafes.reset_daily_limits: the day restarts at the current balance
        with no losses counted; the latch, the peak and the history stay. */
    method ResetDailyLimits()
      requires Valid()
      modifies this
      ensures Valid()
      ensures dailyStartBalance == currentBalance && consecutiveLosses == 0
      ensures emergencyStop == old(emergencyStop) && peakBalance == old(peakBalance)
      ensures currentBalance == old(currentBalance) && tradeHistory == old(tradeHistory)
    {
      dailyStartBalance := currentBalance;
      consecutiveLosses := 0;
    }

    /** FailSafes.get_status; None for the same division by a zero day-start
        balance as should_stop_trading. */
    function GetStatus(): (r: Option<Status>)
      reads this
      requires Valid()
      ensures r.None? <==> dailyStartBalance == 0.0
      ensures r.Some? ==>
        (r.value.emergencyStop == emergencyStop && r.value.currentBalance == currentBalance
         && r.value.consecutiveLosses == consecutiveLosses
         && 0.0 <= r.value.drawdown
         && (dailyStartBalance > 0.0 ==> (r.value.dailyLoss > 0.0 <==> currentBalance < dailyStartBalance)))
    {
      if dailyStartBalance == 0.0 then None
      else
        RatioCompare(peakBalance - currentBalance, peakBalance, 0.0);
        RatioCompareWhenPositive(dailyStartBalance - currentBalance, dailyStartBalance, 0.0);
        Some(Status(
          emergencyStop, currentBalance,
          (dailyStartBalance - currentBalance) / dailyStartBalance,
          (peakBalance - currentBalance) / peakBalance,
          consecutiveLosses))
    }

    /** Every stop other than the latch is explained by the status report: the
        daily loss or the drawdown is over its limit, or the streak is. */
    lemma StopIsExplainedByStatus()
      requires Valid() && !emergencyStop && ShouldStopTrading() == Some(true)
      ensures GetStatus().Some?
      ensures (GetStatus().value.dailyLoss > DailyLossLimit
               || GetStatus().value.drawdown > MaxDrawdownLimit
               || GetStatus().value.consecutiveLosses >= MaxConsecutiveLosses)
    {
    }
  }
}
