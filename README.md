# Trading bot core and payroll arithmetic, modelled in Dafny

This project models the decision core of a crypto trading bot (an ETH/INR
market on an Indian exchange) and the domain arithmetic of a small payroll
site. The two applications share a repository.

The trading bot has these parts:

- **Policies**: thirteen rule-based signal policies and one classifier
  policy turn a window of OHLCV periods into a vote of 1 (buy), -1 (sell) or
  0 (hold). Each votes 0 below its minimum window length.
- **AdaptiveStrategy**: a meta-policy. It combines a basket of three policies
  with weights that realised profit nudges up or down (floor 0.1).
- **FailSafes**: the risk governor. It has a sticky emergency latch, a 5%
  daily-loss limit, a 10% drawdown limit from the running peak, a limit of
  five consecutive losing trades, and a volatility breaker over the last ten
  closes.
- **StrategyManager**: holds a registry of named policies and the active name.
  It puts the FailSafes gates in front of the active policy's signal. It also
  switches the active policy with a first-match table over the market regime.
  The older variant in `strategy_manager_clean.py` is modelled beside it.
- **DecisionMaker**: the single-position state machine. `decide` maps the
  signal, the price and the open position to an action. `execute_decision`
  sizes the order and opens or closes the position. It takes the settings of
  `config.py`: risk 0.05, stop-loss 0.05, take-profit 0.10, leverage 10.
- **SelfUpdater**: books closed trades, forwards each one to the FailSafes, and
  decides when the classifier should be retrained.

The payroll part covers:

- the role predicates;
- the monthly salary formula;
- the monthly repayment of an advance;
- the "only existing attributes" update of the CRUD mixin.

Modules: `Wrappers` (Option), `Market` (the window and its column
arithmetic), `Policies`, `Adaptive`, `Risk`, `Strategies`, `StrategiesClean`,
`Feedback`, `Decisions` and `Payroll`.

Behaviours of the code worth knowing, which the model follows:

- The actions are the strings 'hold', 'buy', 'sell', 'close_buy' and
  'close_sell'.
- The code never opens a short. 'sell' while flat is caught by the closing
  branch at decision_maker.py:108, which does nothing without a long. The
  short-entry branch at decision_maker.py:144 is therefore never reached.
- The breakout row of the switching table needs strictly more than 100 rows
  (`len(df) > 100`).
- The entry size is the leveraged risk fraction of the whole balance: a
  balance of 100000 at price 100, risk 0.05 and leverage 10 buys 500 units,
  and a close at 110 books a profit of 5000 (in real arithmetic;
  `Decisions.RoundTripExample`). This is ten times the 50 units and 500 profit
  one might expect from risking 5% of the balance.
- Nothing in the code clears the emergency latch once it is set.
- `should_stop_trading` and `get_status` raise ZeroDivisionError once a daily
  reset has set the day-start balance to 0.

## Model

| member | source | states |
|---|---|---|
| Policies.MlSignal | strategy_manager.py:143-150 | 0 below 30 rows; from 30 rows on, exactly the classifier's vote on the last feature row when one exists and 0 when none exists; always in -1..1 |
| Policies.MeanReversion | strategy_manager.py:169-187 | 0 below 20 rows and 0 when the 20-close variance is 0; in -1..1; a buy only below the mean, a sell only above it |
| Policies.MeanReversionIsZScoreRule | strategy_manager.py:169-187 | for any std >= 0 whose square is the sample variance, the square-root-free rule equals the source's rule of z < -2 buy, z > 2 sell, std 0 hold |
| Policies.MeanReversionThreeSigma | strategy_manager.py:169-187 | a close 3 deviations above the mean sells, 3 below buys, within 1 deviation holds |
| Policies.TrendFollowing | strategy_manager.py:196-212 | 0 below 50 rows; buy iff price > EMA20 > EMA50; sell iff price < EMA20 < EMA50 |
| Policies.RsiDivergence | strategy_manager.py:221-236 | 0 below 30 rows; buy only when RSI < 30 and rising; sell only when RSI > 70 and falling; 0 for RSI within 30..70 |
| Policies.BollingerBand | strategy_manager.py:245-259 | 0 below 25 rows; buy iff the close is at most 1.001 times the lower band; a sell needs a close of at least 0.999 times the upper band |
| Policies.SmaCrossover | strategy_manager.py:270-291 | 0 below 25 rows; a buy needs the 10/20 SMA ordering to flip strictly upward between the previous and last period; a sell needs the opposite flip |
| Policies.NoCrossoverWithoutFlip | strategy_manager.py:270-291 | the fast SMA strictly above the slow one on both periods gives no signal: the crossover compares one period, it does not remember state |
| Policies.Scalping | strategy_manager.py:301-320 | 0 below 5 rows; a signal needs the last volume above 1.2 times the 5-period mean; buy only after a rise above 0.2% over 5 closes, sell only after a fall below -0.2% |
| Policies.Momentum | strategy_manager.py:329-347 | 0 below 20 rows; buy iff ROC > 2 and MACD above its signal line; sell iff ROC < -2 and MACD below it |
| Policies.Breakout | strategy_manager.py:357-377 | 0 below 25 rows; a signal needs volume above its 20-period mean; buy near the 20-period high after a previous close not above it; sell at the mirror-image low |
| Policies.VolumeSpike | strategy_manager.py:387-409 | 0 below 20 rows; non-zero iff the mean volume is positive, the last volume exceeds twice it, and the close moved; the sign follows the move |
| Policies.Bounce | strategy_manager.py:428-441 | the resistance test: sell iff the close is falling and within 1% of the pivot high; the support test: buy only when rising and within 1% of the pivot low |
| Policies.SupportResistance | strategy_manager.py:419-441 | 0 below 50 rows; sell only for a falling close within 1% of the 50-period high; buy only for a rising close within 1% of the 50-period low |
| Policies.FibonacciScan | strategy_manager.py:463-475 | the level loop: a non-zero answer needs some retracement level within 0.5% of the price; buy only above the 20-period SMA, sell only below it |
| Policies.Fibonacci | strategy_manager.py:452-475 | 0 below 50 rows; in -1..1; buy only above the 20-period SMA, sell only below it |
| Policies.Stochastic | strategy_manager.py:488-509 | 0 below 14 rows; buy iff %K and %D < 20 and %K rising; sell iff both > 80 and %K falling |
| Policies.VolumePrice | strategy_manager.py:520-539 | 0 below 20 rows; a signal needs the volume above 1.5 times its 20-period average; its sign is the sign of ROC beyond 2 |
| Policies.RuleSignal | strategy_manager.py:48-49 | dispatching any stateless policy answers in -1..1, and 0 below that policy's minimum window |
| Adaptive.SubSignals | strategy_manager.py:545-563 | the basket's three votes, each in -1..1 |
| Adaptive.AdaptiveSignal | strategy_manager.py:555-578 | 0 below 50 rows; always in -1..1 |
| Adaptive.VotesBounded | strategy_manager.py:568-578 | with weights of at least 0.1, the total weight is positive exactly when some vote is non-zero, and the weighted sum lies within plus or minus it |
| Adaptive.UnanimousVotes | strategy_manager.py:568-572 | when every non-zero vote is v, the weighted sum is v times the total weight |
| Adaptive.SilentVotes | strategy_manager.py:568-572 | all votes 0: weighted sum and total weight are 0 |
| Adaptive.AdaptiveUnanimous | strategy_manager.py:555-578 | a basket that votes v or abstains, with at least one vote v, makes the adaptive policy answer v |
| Adaptive.AdaptiveSilentBasket | strategy_manager.py:574-578 | a basket that abstains makes the adaptive policy answer 0 |
| Adaptive.AdaptiveFollowsAVote | strategy_manager.py:555-578 | with floored weights, a non-zero answer is the vote of some basket member |
| Adaptive.AdaptiveStrategy.constructor | strategy_manager.py:545-553 | every basket member starts at weight 1.0 |
| Adaptive.AdaptiveStrategy.GetSignal | strategy_manager.py:555-578 | the loop's answer equals AdaptiveSignal for the current weights |
| Adaptive.AdaptiveStrategy.TallyVotes | strategy_manager.py:565-572 | the accumulated weighted signal and total weight equal WeightedVotes and VotingWeight of the votes |
| Adaptive.AdaptiveStrategy.UpdatePerformance | strategy_manager.py:580-586 | a basket member's weight becomes max(0.1, weight + 0.1 * profit); an unknown name changes nothing; weights stay at least 0.1 |
| Risk.PeakAfter | strategy_manager.py:608-618 | the running peak is at least the starting 1000000 and at least the current balance |
| Risk.LossStreak | strategy_manager.py:612-615 | the trailing run of losing trades: all of them lose, and the trade before the run does not |
| Risk.PeakDominatesHistory | strategy_manager.py:618 | the peak is at least every balance the account has had, and it never decreases along the history |
| Risk.IsHighVolatility | strategy_manager.py:643-650 | the volatility breaker over the last 10 closes; HighVolatilityBand states when it fires |
| Risk.HighVolatilityBand | strategy_manager.py:643-650 | the breaker fires iff there are at least 2 rows and the last close lies outside 5% of the first of the last 10 closes |
| Risk.FailSafes.constructor | strategy_manager.py:592-606 | balances start at 1000000, no losses, no history, latch clear |
| Risk.FailSafes.UpdateTradeHistory | strategy_manager.py:608-618 | appends exactly one trade; adds its pnl (0 when absent) to the balance; a loss extends the streak and a non-loss resets it to 0; the peak never decreases and stays at least the balance; latch and day start untouched |
| Risk.FailSafes.ShouldStopTrading | strategy_manager.py:620-641 | the latch always stops; a streak of 5 stops; a balance below 95% of a positive day start stops; a balance below 90% of the peak stops; false only when none of these holds; None (ZeroDivisionError) iff unlatched with a zero day start |
| Risk.FailSafes.EmergencyStopTrading | strategy_manager.py:652-654 | sets the latch and changes nothing else, so calling it twice is calling it once |
| Risk.FailSafes.ResetDailyLimits | strategy_manager.py:656-658 | the day restarts at the current balance with the streak at 0; latch, peak, balance and history stay |
| Risk.FailSafes.GetStatus | strategy_manager.py:660-667 | reports the latch, balance and streak; drawdown is never negative; with a positive day start, the daily loss is positive iff the balance is below it; None iff the day start is 0 |
| Risk.FailSafes.StopIsExplainedByStatus | strategy_manager.py:620-667 | every stop other than the latch shows in the status: daily loss or drawdown above its limit, or a streak of 5 |
| Strategies.PolicySignal | strategy_manager.py:48-49 | the registered policy's answer (the adaptive one with its weights) is in -1..1 and is 0 below its minimum window |
| Strategies.VolumeRatio | strategy_manager.py:68-70 | with a positive 20-period mean volume, the ratio times that mean is the last volume; 1 when the mean is not positive; never negative on a valid window |
| Strategies.ChooseStrategy | strategy_manager.py:75-91 | the switching table always picks one of its eight targets, each a registered name |
| Strategies.FirstMatchWins | strategy_manager.py:75-91 | the chosen name is the target of the first row that fires, and of no other row |
| Strategies.VolatileRangeMeansReversion | strategy_manager.py:76-77 | volatility > 0.05 with trend < 0.001 picks mean reversion whatever the volume ratio and RSI |
| Strategies.BreakoutNeedsMoreThanHundred | strategy_manager.py:86-87 | with at most 100 rows breakout is never picked |
| Strategies.StrategyManager.constructor | strategy_manager.py:12-31 | active policy 'ml_strategy'; fresh fail-safes with a clear latch, no history, no losses, and day start, balance and peak at 1000000; a fresh adaptive policy with every basket weight at 1.0 |
| Strategies.StrategyManager.SetActiveStrategy | strategy_manager.py:33-40 | a registered name becomes active; any other name leaves the active one; the active name is always registered |
| Strategies.StrategyManager.GetSignal | strategy_manager.py:42-55 | a stop answers 0; otherwise high volatility answers 0; otherwise the active policy answers; None iff the stop check raises |
| Strategies.StrategyManager.UpdateAfterTrade | strategy_manager.py:57-58 | the trade goes to the fail-safes: history extended by it, balance moved by its pnl, losing streak extended on a loss and reset otherwise, peak only raised, latch and day start untouched |
| Strategies.StrategyManager.AutoSwitchStrategy | strategy_manager.py:60-91 | nothing below 50 rows; otherwise the table's choice for the window's regime becomes active |
| StrategiesClean.RegistryHasSixNames | strategy_manager_clean.py:13-20 | the registry holds exactly six names |
| StrategiesClean.RegistryIsPartOfTheMain | strategy_manager_clean.py:13-20 | each name maps to the policy the main registry gives it, and none is adaptive |
| StrategiesClean.ChooseStrategy | strategy_manager_clean.py:60-71 | the four-row table always picks a registered name, never RSI divergence or Bollinger bands |
| StrategiesClean.TablesDivergeOnStrongTrend | strategy_manager_clean.py:63-65 | volatile and strongly trending: trend following here, momentum in the main table; otherwise any non-fallback choice agrees with the main table |
| StrategiesClean.StrategyManager.constructor | strategy_manager_clean.py:12-22 | active 'ml_strategy'; fresh fail-safes with a clear latch, no history, no losses, and day start, balance and peak at 1000000 |
| StrategiesClean.StrategyManager.SetActiveStrategy | strategy_manager_clean.py:24-31 | only a registered name becomes active |
| StrategiesClean.StrategyManager.GetSignal | strategy_manager_clean.py:33-46 | a stop or high volatility answers 0; otherwise the active policy answers; None iff the stop check raises |
| StrategiesClean.StrategyManager.UpdateAfterTrade | strategy_manager_clean.py:48-49 | the trade goes to the fail-safes: history extended by it, balance moved by its pnl, losing streak extended on a loss and reset otherwise, peak only raised, latch and day start untouched |
| StrategiesClean.StrategyManager.AutoSwitchStrategy | strategy_manager_clean.py:51-71 | nothing below 50 rows; otherwise the four-row table's choice becomes active |
| Feedback.Profit | self_updater.py:8-13 | 0 for a decision other than buy or sell; with a positive quantity a long gains iff the price rose and a short gains iff it fell |
| Feedback.LongAndShortAreOpposite | self_updater.py:8-11 | a long and a short over the same prices book opposite profits |
| Feedback.MakeTrade | self_updater.py:14-21 | the record carries the profit both as profit and as pnl, with the given decision, prices and quantity |
| Feedback.Wins | self_updater.py:32 | the number of winning trades is at most the number of trades |
| Feedback.EvaluatePerformance | self_updater.py:28-33 | (0, 0) without trades; otherwise the total profit, and a win rate in 0..1 with rate times count equal to the wins |
| Feedback.EmptyHistoryRetrains | self_updater.py:36-40 | with no trades the model is retrained |
| Feedback.AllWinners | self_updater.py:31-32 | all winners: every trade is a win and the total is positive |
| Feedback.AllLosers | self_updater.py:32 | no winners: zero wins |
| Feedback.WinnersKeepTheModel | self_updater.py:35-46 | a non-empty history of winners does not retrain |
| Feedback.LosersRetrain | self_updater.py:35-46 | a history without a winner retrains |
| Feedback.TotalProfitIsPnlSum | self_updater.py:14-26 | for the records record_trade makes, the total profit is the amount the fail-safes add to the balance |
| Feedback.SelfUpdater.constructor | self_updater.py:2-5 | an empty trade list over the given manager |
| Feedback.SelfUpdater.RecordTrade | self_updater.py:7-26 | appends exactly one record, and the fail-safes receive the same record; their balance moves by the profit, their losing streak grows on a loss and resets otherwise, their peak is only raised; latch, day start and active policy untouched |
| Feedback.NeedsRetraining | self_updater.py:40 | the retraining test on the evaluated performance; EmptyHistoryRetrains, WinnersKeepTheModel and LosersRetrain state its cases |
| Feedback.SelfUpdater.UpdateIfNeeded | self_updater.py:35-46 | retrain iff win rate < 0.5 or total profit < 0 |
| Decisions.DecideAction | decision_maker.py:26-53 | hold without a price; close_buy iff a long hits its stop or target; close_sell iff a short hits its; with a position, only hold or a close; when flat, 1 buys, -1 sells, anything else holds |
| Decisions.NoSignalNoEntry | decision_maker.py:47-53 | signal 0, as under a stop or high volatility, never enters |
| Decisions.LongInsideBandHolds | decision_maker.py:34-53 | a long strictly between its stop and target is held whatever the signal |
| Decisions.CapQuantity | decision_maker.py:110 | min(max_quantity, q): at most q and at most the maximum, and equal to one of them |
| Decisions.EntryQuantity | decision_maker.py:79-84 | at least the minimum quantity; at most the maximum when min <= max; exactly max(min, min(max, risk-sized quantity)): at least the capped size and equal to it or to the minimum; the risk-sized quantity itself when it lies within the limits |
| Decisions.Outcome | decision_maker.py:64-141 | the branching of execute_decision once price and balance are known: the live minimum balance, 'buy' opening a long, 'sell'/'close_buy' closing a long, 'close_sell' closing a short; its properties are the lemmas below |
| Decisions.NeverOpensShort | decision_maker.py:82-168 | only 'buy' opens, and it opens a long at the current price with a positive quantity |
| Decisions.SellWhileFlatDoesNothing | decision_maker.py:108-109 | 'sell' while flat changes nothing, so the short entry at line 144 is never reached |
| Decisions.CloseNeedsMatchingPosition | decision_maker.py:108-141 | a close needs a position on the matching side; it books that entry price, the current price and at most the held quantity |
| Decisions.SimulationIgnoresVenue | decision_maker.py:86-106 | in simulation the venue's answer plays no part |
| Decisions.LiveFailuresChangeNothing | decision_maker.py:64-71 | live, a rejected order or a balance under 100 changes nothing |
| Decisions.DecidedActionKeepsPosition | decision_maker.py:26-106 | acting on decide never replaces an open position |
| Decisions.RoundTripExample | decision_maker.py:26-124 | in real arithmetic: flat, signal 1, balance 100000 at price 100 opens a simulated long of 500; at 110 it closes for a profit of 5000 |
| Decisions.BalanceIn | decision_maker.py:19-24 | the currency's balance, 0 when the portfolio has no data or no such currency |
| Decisions.Fetched | decision_maker.py:13-17 | the fetched portfolio, or the fallback one when the fetch raised; FallbackBalances states its balances |
| Decisions.FallbackBalances | decision_maker.py:13-17 | with the endpoint down the bot trades on 1000000 INR, 0 elsewhere |
| Decisions.DecisionMaker.constructor | decision_maker.py:4-11 | no position, no portfolio |
| Decisions.DecisionMaker.UpdatePortfolio | decision_maker.py:13-17 | the fetched portfolio, or the fallback when the fetch failed |
| Decisions.DecisionMaker.GetBalance | decision_maker.py:19-24 | refreshes the portfolio, then returns BalanceIn of it |
| Decisions.DecisionMaker.Decide | decision_maker.py:26-53 | None iff the stop check raises; under a stop or high volatility it decides on signal 0; otherwise on the active policy's signal |
| Decisions.DecisionMaker.ExecuteDecision | decision_maker.py:55-141 | without a price, position, portfolio, trade lists and fail-safe guards stay; otherwise the portfolio is refreshed, position, trade lists and fail-safe history change exactly as Outcome says, and the guards follow it (GuardsFollow: latch and day start kept; a booked close moves the balance by its profit, extends or resets the streak and only raises the peak; otherwise unchanged) |
| Decisions.DecisionMaker.OpenLong | decision_maker.py:82-106 | the 'buy' branch: the Outcome of 'buy' (open a long in simulation or on an order id) |
| Decisions.DecisionMaker.CloseHeld | decision_maker.py:108-141 | the close branches: the Outcome of the close (book and clear in simulation or on an order id), with the fail-safe guards following it as GuardsFollow states |
| Decisions.DecisionMaker.BookClose | decision_maker.py:117-118 | the booked trade is appended to both trade lists, the position is cleared, and the guards move as GuardsFollow states for a close |
| Decisions.ExecutionKeepsStops | decision_maker.py:55-141 | after any executed decision a latched bot is still stopped, and a booked loss that brings the streak to 5 stops trading |
| Payroll.IsAdmin | models.py:108-109 | role 'admin'; AdminIsManager relates it to IsManager |
| Payroll.IsManager | models.py:111-112 | role 'admin' or 'manager'; AdminIsManager relates it to IsAdmin |
| Payroll.AdminIsManager | models.py:108-112 | an admin is a manager; a non-admin manager has role 'manager' |
| Payroll.OvertimeHours | models.py:136-138 | never negative and at least the hours beyond 8 per day present; either 0 or exactly those hours |
| Payroll.CalculateMonthlySalary | models.py:132-149 | deductions 0 and net == gross; salaried gross times total days equals basic times days present; hourly gross is pay plus overtime pay; None iff salaried with 0 total days |
| Payroll.FullAttendanceEarnsBasic | models.py:141-142 | present every day: the basic salary |
| Payroll.NoOvertimeWithinStandardHours | models.py:134-140 | within 8 hours per day present, only the hourly rate is paid |
| Payroll.HourlyPayMonotone | models.py:134-140 | with non-negative rates, more hours never pay less |
| Payroll.DeductionStep | models.py:259-268 | deduction plus new balance is the old balance; nothing taken from a settled balance; at most the instalment; balance stays >= 0 with a non-negative instalment; the deduction is the instalment when the balance covers it, otherwise the balance (min of the two) |
| Payroll.RepaymentConserves | models.py:261-263 | over any number of months, deducted plus remaining is the starting balance |
| Payroll.BalanceNeverNegative | models.py:261-263 | a non-negative balance never goes negative |
| Payroll.PaidOffAfterEnoughMonths | models.py:261-263 | n instalments covering the balance pay it off |
| Payroll.ZeroStaysZero | models.py:261-268 | a settled advance stays settled whatever the instalment |
| Payroll.Advance.constructor | models.py:248-253 | a modelling convenience (the class declares columns, not a constructor): total and remaining balance start at the amount, the instalment as given, status 'active' (the column default) |
| Payroll.Advance.ApplyMonthlyDeduction | models.py:259-268 | takes DeductionStep; status becomes 'completed' exactly when a positive balance drops to 0 or below, and is otherwise untouched |
| Payroll.Overlay | models.py:35-41 | same keys; given values for existing keys; other fields unchanged |
| Payroll.OverlayIdempotent | models.py:35-41 | updating twice with the same values is updating once |
| Payroll.OverlayIgnoresUnknownKeys | models.py:35-41 | keys the record lacks make no difference |
| Payroll.Record.Update | models.py:35-41 | the loop's result is Overlay of the old attributes and the given values |

## Left out

- TA-Lib and pandas indicators are inputs (the `Indicators` record), not computed. These are EMA, RSI, Bollinger bands, ROC, MACD, the stochastic oscillator, the regression slope, and the volatility `pct_change().std() * sqrt(24)`. The model computes means, maxima, minima, tails and the sample variance itself.
- NaN results of TA-Lib on short windows are not modelled.
- MLStrategy's training, feature preparation and joblib persistence are left out. The classifier's output is an input (`mlPrediction`).
- Policies.ValidWindow: the model assumes positive highs, lows and closes and non-negative volumes. The source divides by them without a check.
- Policies.MeanReversion: Dafny has no square root. The rule is stated over the variance, and `MeanReversionIsZScoreRule` ties it to the z-score rule for any standard deviation.
- Floating point: every number is a real, so float rounding is not modelled. Neither are a threshold like `100 * (1 + 0.10)` landing just above 110 in floats, nor the `round(..., 2)` of the salary.
- Decisions.DecisionMaker.ExecuteDecision: requires a positive price for every decision. The source raises ZeroDivisionError only when a 'buy' is sized at price 0; 'hold', 'sell' and the closes accept a price of 0 or below without error, and those calls are not modelled.
- Decisions.DecisionMaker.ExecuteDecision: takes the venue's answer as an optional order id. It does not model an order call that raises.
- Decisions.DecisionMaker.ExecuteDecision: the short-entry branch at decision_maker.py:143-168 is omitted because it is unreachable.
- Decisions.Portfolio: `main_balance` strings are already parsed into reals. A malformed string or a missing `main_balance` key, which raise in the source, is not modelled.
- Decisions.DecisionMaker.ExecuteDecision: prints, the three-second confirmation sleep and the symbol argument are not modelled.
- Feedback.SelfUpdater.UpdateIfNeeded: returns the retrain decision. The candle fetch and `train_model` call that follow it are not part of this model.
- The `performance` dictionaries, `get_performance` and `AdaptiveStrategy.current_strategy` are left out. Nothing in the core reads them.
- strategy_manager_clean.py: its FailSafes and policy classes duplicate the main file's and are modelled once, from strategy_manager.py.
- strategy_manager_clean.py: as written, the file ends with a line that is not Python. Its registry also names a `BollingerBandStrategy` the file never defines. The model follows the evident intent: it uses the main file's Bollinger policy and the registry and switching table as written.
- Payroll.EmployeeDetails: the hourly and overtime rates are taken as present. The nullable columns would raise on None.
- Payroll.Advance.constructor: models.py gives Advance no constructor of its own. The only creation site, app.py:699-707, passes keywords the class does not declare (`employee_id`, `amount`, `installment_amount`) and would raise TypeError as written, so no source line sets the values the constructor starts with.
- Payroll.Record.Update: the attribute set is the record's map of columns. Python's `hasattr` also accepts methods and class attributes, and that is not modelled.
- Payroll.Record.Update: the database commit and session side effects of models.py are not modelled. Neither is the second, unused CRUDMixin.
- app.py, main.py's polling loop, the API and data-fetching clients, and the database scripts are not part of this model.
