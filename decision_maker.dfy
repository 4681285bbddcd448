/** DecisionMaker of decision_maker.py: the single-position state machine.
    `decide` turns the manager's signal, the current price and the open
    position into an action; `execute_decision` sizes the order, opens or
    closes the position and books the closed trade. The price feed, the
    portfolio endpoint, the instrument limits and the venue's answer are
    parameters. */
module Decisions {
  import opened Wrappers
  import opened Market
  import opened Risk
  import Strategies
  import Feedback

  // Risk settings of config.py.
  const RiskPerTrade: real := 0.05
  const StopLossPercent: real := 0.05
  const TakeProfitPercent: real := 0.10
  const Leverage: real := 10.0
  /** The smallest balance live trading accepts, in INR. */
  const MinLiveBalance: real := 100.0
  /** The minimum quantity assumed when the venue names none. */
  const DefaultMinQuantity: real := 0.00001

  /** `'buy'` (long) or `'sell'` (short). */
  datatype Side = Long | Short

  datatype OrderId = Simulated | Placed(id: string)

  datatype Position = Position(side: Side, entryPrice: real, quantity: real, orderId: OrderId)

  /** The action strings `decide` returns: 'hold', 'buy', 'sell', 'close_buy', 'close_sell'. */
  datatype Action = Hold | Buy | Sell | CloseBuy | CloseSell

  /** The long position is closed at or below the stop-loss price or at or above
      the take-profit price. */
  predicate LongExitHit(entryPrice: real, price: real) {
    price <= entryPrice * (1.0 - StopLossPercent) || price >= entryPrice * (1.0 + TakeProfitPercent)
  }

  /** The short position mirrors it. */
  predicate ShortExitHit(entryPrice: real, price: real) {
    price >= entryPrice * (1.0 + StopLossPercent) || price <= entryPrice * (1.0 - TakeProfitPercent)
  }

  /** DecisionMaker.decide, given the manager's signal. */
  function DecideAction(signal: int, price: Option<real>, position: Option<Position>): (a: Action)
    ensures price.None? ==> a == Hold
    ensures position.Some? ==> a == Hold || a == CloseBuy || a == CloseSell
    ensures (a == CloseBuy <==>
      price.Some? && position.Some? && position.value.side == Long
      && LongExitHit(position.value.entryPrice, price.value))
    ensures (a == CloseSell <==>
      price.Some? && position.Some? && position.value.side == Short
      && ShortExitHit(position.value.entryPrice, price.value))
    ensures price.Some? && position.None? ==>
      a == (if signal == 1 then Buy else if signal == -1 then Sell else Hold)
  {
    if price.None? then Hold
    else if position.Some? && position.value.side == Long
            && LongExitHit(position.value.entryPrice, price.value) then CloseBuy
    else if position.Some? && position.value.side == Short
            && ShortExitHit(position.value.entryPrice, price.value) then CloseSell
    else if signal == 1 && position.None? then Buy
    else if signal == -1 && position.None? then Sell
    else Hold
  }

  /** Without a signal (a stop or high volatility) nothing new is entered. */
  lemma NoSignalNoEntry(price: Option<real>, position: Option<Position>)
    ensures DecideAction(0, price, position) != Buy && DecideAction(0, price, position) != Sell
  {
  }

  /** A long held inside its band is held whatever the signal. */
  lemma LongInsideBandHolds(signal: int, price: real, p: Position)
    requires p.side == Long && p.entryPrice > 0.0
    requires p.entryPrice * (1.0 - StopLossPercent) < price < p.entryPrice * (1.0 + TakeProfitPercent)
    ensures DecideAction(signal, Some(price), Some(p)) == Hold
  {
  }

  /** The venue's limits; None where `get_trade_info` names no limit
      (the maximum then is unbounded). */
  datatype TradeInfo = TradeInfo(minQuantity: Option<real>, maxQuantity: Option<real>)

  function MinQuantity(info: TradeInfo): real {
    info.minQuantity.GetOr(DefaultMinQuantity)
  }

  /** `min(max_quantity, q)` with an unbounded default. */
  function CapQuantity(q: real, info: TradeInfo): (r: real)
    ensures r <= q && (info.maxQuantity.Some? ==> r <= info.maxQuantity.value)
    ensures r == q || (info.maxQuantity.Some? && r == info.maxQuantity.value)
  {
    if info.maxQuantity.Some? && info.maxQuantity.value < q then info.maxQuantity.value else q
  }

  /** The entry size: the leveraged risk fraction of the balance in units of
      the instrument, clamped to the venue's limits. */
  function EntryQuantity(balance: real, price: real, info: TradeInfo): (q: real)
    requires price > 0.0
    ensures q >= MinQuantity(info)
    ensures info.maxQuantity.Some? && MinQuantity(info) <= info.maxQuantity.value ==> q <= info.maxQuantity.value
    ensures (var raw := balance * RiskPerTrade * Leverage / price;
             MinQuantity(info) <= raw && (info.maxQuantity.None? || raw <= info.maxQuantity.value) ==> q == raw)
    ensures (var capped := CapQuantity(balance * RiskPerTrade * Leverage / price, info);
             q >= capped && (q == MinQuantity(info) || q == capped))
  {
    var raw := balance * RiskPerTrade * Leverage / price;
    var capped := CapQuantity(raw, info);
    if MinQuantity(info) >= capped then MinQuantity(info) else capped
  }

  /** What executing an action does to the position and the trade list. */
  datatype Effect =
    | Unchanged
    | Opened(position: Position)
    | Closed(decision: string, entryPrice: real, exitPrice: real, quantity: real)

  /** DecisionMaker.execute_decision once a price and a balance are known:
      `live` is LIVE_TRADING and `venue` the order id the venue answered
      with, if any. The branch that would open a short (reachable only for
      'sell' while flat) sits behind the branch that catches 'sell', so no
      action opens one. */
  function Outcome(live: bool, decision: Action, price: real, balance: real, info: TradeInfo,
                   venue: Option<string>, position: Option<Position>): Effect
    requires price > 0.0
  {
    if live && balance < MinLiveBalance then Unchanged
    else
      match decision
      case Buy =>
        var quantity := EntryQuantity(balance, price, info);
        if quantity <= 0.0 then Unchanged
        else if !live then Opened(Position(Long, price, quantity, Simulated))
        else if venue.Some? then Opened(Position(Long, price, quantity, Placed(venue.value)))
        else Unchanged
      case CloseBuy | Sell =>
        if position.Some? && position.value.side == Long && (!live || venue.Some?) then
          Closed("buy", position.value.entryPrice, price, CapQuantity(position.value.quantity, info))
        else Unchanged
      case CloseSell =>
        if position.Some? && position.value.side == Short && (!live || venue.Some?) then
          Closed("sell", position.value.entryPrice, price, CapQuantity(position.value.quantity, info))
        else Unchanged
      case Hold => Unchanged
  }

  /** No action opens a short, and an opened long is entered at the price with
      a positive size. */
  lemma NeverOpensShort(live: bool, decision: Action, price: real, balance: real, info: TradeInfo,
                        venue: Option<string>, position: Option<Position>)
    requires price > 0.0
    ensures Outcome(live, decision, price, balance, info, venue, position).Opened? ==>
      (var p := Outcome(live, decision, price, balance, info, venue, position).position;
       decision == Buy && p.side == Long && p.entryPrice == price && p.quantity > 0.0)
  {
  }

  /** 'sell' while flat does nothing. */
  lemma SellWhileFlatDoesNothing(live: bool, price: real, balance: real, info: TradeInfo, venue: Option<string>)
    requires price > 0.0
    ensures Outcome(live, Sell, price, balance, info, venue, None) == Unchanged
  {
  }

  /** A close needs a position on the matching side and books it at the
      current price, for at most the held quantity. */
  lemma CloseNeedsMatchingPosition(live: bool, decision: Action, price: real, balance: real, info: TradeInfo,
                                   venue: Option<string>, position: Option<Position>)
    requires price > 0.0
    ensures (var e := Outcome(live, decision, price, balance, info, venue, position);
             e.Closed? ==>
               position.Some? && e.exitPrice == price && e.entryPrice == position.value.entryPrice
               && e.quantity <= position.value.quantity
               && (e.decision == "buy" <==> position.value.side == Long)
               && (position.value.side == Long ==> decision == CloseBuy || decision == Sell)
               && (position.value.side == Short ==> decision == CloseSell))
  {
  }

  /** In simulation the venue's answer plays no part. */
  lemma SimulationIgnoresVenue(decision: Action, price: real, balance: real, info: TradeInfo,
                               venue1: Option<string>, venue2: Option<string>, position: Option<Position>)
    requires price > 0.0
    ensures Outcome(false, decision, price, balance, info, venue1, position)
         == Outcome(false, decision, price, balance, info, venue2, position)
  {
  }

  /** Live, a rejected order or a balance under 100 changes nothing. */
  lemma LiveFailuresChangeNothing(decision: Action, price: real, balance: real, info: TradeInfo,
                                  venue: Option<string>, position: Option<Position>)
    requires price > 0.0
    requires venue.None? || balance < MinLiveBalance
    ensures Outcome(true, decision, price, balance, info, venue, position) == Unchanged
  {
  }

  /** Acting on `decide` never replaces an open position. */
  lemma DecidedActionKeepsPosition(live: bool, signal: int, price: real, balance: real, info: TradeInfo,
                                   venue: Option<string>, position: Option<Position>)
    requires price > 0.0 && position.Some?
    ensures !Outcome(live, DecideAction(signal, Some(price), position), price, balance, info, venue, position).Opened?
  {
  }

  /** A flat book, a buy signal, a balance of 100000 at a price of 100 opens a
      simulated long of 500 units; a price of 110 then takes profit, booking
      (110 - 100) * 500 = 5000 and leaving the book flat. */
  lemma RoundTripExample()
    ensures DecideAction(1, Some(100.0), None) == Buy
    ensures Outcome(false, Buy, 100.0, 100000.0, TradeInfo(None, None), None, None)
         == Opened(Position(Long, 100.0, 500.0, Simulated))
    ensures DecideAction(0, Some(110.0), Some(Position(Long, 100.0, 500.0, Simulated))) == CloseBuy
    ensures Outcome(false, CloseBuy, 110.0, 100000.0, TradeInfo(None, None), None,
                    Some(Position(Long, 100.0, 500.0, Simulated)))
         == Closed("buy", 100.0, 110.0, 500.0)
    ensures Feedback.Profit("buy", 100.0, 110.0, 500.0) == 5000.0
  {
    assert 100000.0 * RiskPerTrade * Leverage / 100.0 == 500.0;
  }

  /** The `data` part of the portfolio answer, currency to `main_balance`;
      None when the answer has no `data` dictionary. */
  datatype Portfolio = Portfolio(data: Option<map<string, real>>)

  /** The portfolio update_portfolio falls back to when the endpoint fails. */
  const FallbackPortfolio: Portfolio := Portfolio(Some(map["INR" := 1000000.0, "BTC" := 0.0]))

  /** The portfolio after update_portfolio; `fetched` is None when the call raised. */
  function Fetched(fetched: Option<Portfolio>): Portfolio {
    fetched.GetOr(FallbackPortfolio)
  }

  /** The balance get_balance reads from a portfolio, 0 when absent. */
  function BalanceIn(p: Portfolio, currency: string): (b: real)
    ensures p.data.None? ==> b == 0.0
    ensures p.data.Some? && currency !in p.data.value ==> b == 0.0
    ensures p.data.Some? && currency in p.data.value ==> b == p.data.value[currency]
  {
    if p.data.Some? && currency in p.data.value then p.data.value[currency] else 0.0
  }

  /** With the endpoint down the bot trades on a notional 1000000 INR. */
  lemma FallbackBalances(currency: string)
    ensures BalanceIn(Fetched(None), "INR") == 1000000.0
    ensures currency != "INR" ==> BalanceIn(Fetched(None), currency) == 0.0
  {
  }

  class DecisionMaker {
    /** LIVE_TRADING of config.py (False there). */
    const liveTrading: bool
    const updater: Feedback.SelfUpdater
    var position: Option<Position>
    var portfolio: Option<Portfolio>

    ghost predicate Valid()
      reads this, updater, updater.strategyManager, updater.strategyManager.failSafes,
            updater.strategyManager.adaptive
    {
      updater.Valid()
    }

    constructor (live: bool, selfUpdater: Feedback.SelfUpdater)
      requires selfUpdater.Valid()
      ensures Valid() && liveTrading == live && updater == selfUpdater
      ensures position.None? && portfolio.None?
    {
      liveTrading := live;
      updater := selfUpdater;
      position := None;
      portfolio := None;
    }

    /** DecisionMaker.update_portfolio. */
    method UpdatePortfolio(fetched: Option<Portfolio>)
      modifies this
      ensures portfolio == Some(Fetched(fetched)) && position == old(position)
    {
      if fetched.Some? {
        portfolio := fetched;
      } else {
        portfolio := Some(FallbackPortfolio);
      }
    }

    /** DecisionMaker.get_balance: refreshes the portfolio, then reads it. */
    method GetBalance(currency: string, fetched: Option<Portfolio>) returns (balance: real)
      modifies this
      ensures portfolio == Some(Fetched(fetched)) && position == old(position)
      ensures balance == BalanceIn(Fetched(fetched), currency)
    {
      UpdatePortfolio(fetched);
      var p := portfolio.value;
      if p.data.Some? {
        if currency in p.data.value {
          return p.data.value[currency];
        }
      }
      return 0.0;
    }

    /** DecisionMaker.decide: asks the manager for its signal (None is the
        fail-safes' ZeroDivisionError) and then decides on the price. */
    method Decide(w: Window, ind: Indicators, price: Option<real>) returns (action: Option<Action>)
      requires Valid() && ValidWindow(w)
      ensures action.None? <==> updater.strategyManager.failSafes.ShouldStopTrading().None?
      ensures (updater.strategyManager.failSafes.ShouldStopTrading() == Some(true)
               || (updater.strategyManager.failSafes.ShouldStopTrading().Some? && IsHighVolatility(w))) ==>
        action == Some(DecideAction(0, price, position))
      ensures updater.strategyManager.failSafes.ShouldStopTrading() == Some(false) && !IsHighVolatility(w) ==>
        action == Some(DecideAction(
          Strategies.PolicySignal(updater.strategyManager.activeStrategy,
                                  updater.strategyManager.adaptive.performanceWeights, w, ind),
          price, position))
    {
      var signal := updater.strategyManager.GetSignal(w, ind);
      if signal.None? {
        return None;
      }
      return Some(DecideAction(signal.value, price, position));
    }

    /** The position and the trade lists after `e`, against their earlier values. */
    ghost predicate EffectApplied(e: Effect, oldPosition: Option<Position>, oldTrades: seq<TradeResult>,
                                  oldHistory: seq<TradeResult>)
      reads this, updater, updater.strategyManager, updater.strategyManager.failSafes
    {
      match e
      case Unchanged =>
        position == oldPosition && updater.trades == oldTrades
        && updater.strategyManager.failSafes.tradeHistory == oldHistory
      case Opened(p) =>
        position == Some(p) && updater.trades == oldTrades
        && updater.strategyManager.failSafes.tradeHistory == oldHistory
      case Closed(d, entryPrice, exitPrice, quantity) =>
        position.None?
        && updater.trades == oldTrades + [Feedback.MakeTrade(d, entryPrice, exitPrice, quantity)]
        && updater.strategyManager.failSafes.tradeHistory
           == oldHistory + [Feedback.MakeTrade(d, entryPrice, exitPrice, quantity)]
    }

    /** The fail-safes after `e`, against their guard state `before`: the latch
        and the day start never move; a booked close moves the balance by its
        profit, extends or breaks the losing streak and can only raise the
        peak; anything else leaves the guards as they were. */
    ghost predicate GuardsFollow(e: Effect, before: Risk.Guards)
      reads updater, updater.strategyManager, updater.strategyManager.failSafes
    {
      var f := updater.strategyManager.failSafes;
      f.emergencyStop == before.emergencyStop && f.dailyStartBalance == before.dailyStartBalance
      && match e
         case Closed(d, entryPrice, exitPrice, quantity) =>
           var profit := Feedback.Profit(d, entryPrice, exitPrice, quantity);
           f.currentBalance == before.currentBalance + profit
           && f.consecutiveLosses == (if profit < 0.0 then before.consecutiveLosses + 1 else 0)
           && f.peakBalance >= before.peakBalance && f.peakBalance >= f.currentBalance
         case _ => f.GuardState() == before
    }

    /** DecisionMaker.execute_decision. Without a price nothing happens; the
        portfolio is refreshed; then the position and the trade lists change as
        Outcome says. */
    method ExecuteDecision(decision: Action, price: Option<real>, fetched: Option<Portfolio>,
                           info: TradeInfo, venue: Option<string>)
      requires Valid() && (price.Some? ==> price.value > 0.0)
      modifies this, updater, updater.strategyManager.failSafes
      ensures Valid()
      ensures price.None? ==>
        position == old(position) && portfolio == old(portfolio) && updater.trades == old(updater.trades)
        && updater.strategyManager.failSafes.tradeHistory == old(updater.strategyManager.failSafes.tradeHistory)
        && updater.strategyManager.failSafes.GuardState() == old(updater.strategyManager.failSafes.GuardState())
      ensures price.Some? ==> portfolio == Some(Fetched(fetched))
      ensures price.Some? ==>
        EffectApplied(
          Outcome(liveTrading, decision, price.value, BalanceIn(Fetched(fetched), "INR"), info, venue, old(position)),
          old(position), old(updater.trades), old(updater.strategyManager.failSafes.tradeHistory))
      ensures price.Some? ==>
        GuardsFollow(
          Outcome(liveTrading, decision, price.value, BalanceIn(Fetched(fetched), "INR"), info, venue, old(position)),
          old(updater.strategyManager.failSafes.GuardState()))
    {
      if price.None? {
        return;
      }
      var currentPrice := price.value;
      var balance := GetBalance("INR", fetched);
      if liveTrading && balance < MinLiveBalance {
        return;
      }
      if decision == Buy {
        OpenLong(currentPrice, balance, info, venue);
      } else if decision == CloseBuy || decision == Sell {
        CloseHeld(Long, decision, currentPrice, balance, info, venue);
      } else if decision == CloseSell {
        CloseHeld(Short, decision, currentPrice, balance, info, venue);
      }
    }

    /** The 'buy' branch: size the order and open a long, in simulation or once
        the venue has answered with an order id. */
    method OpenLong(currentPrice: real, balance: real, info: TradeInfo, venue: Option<string>)
      requires currentPrice > 0.0 && !(liveTrading && balance < MinLiveBalance)
      modifies this
      ensures portfolio == old(portfolio)
      ensures EffectApplied(Outcome(liveTrading, Buy, currentPrice, balance, info, venue, old(position)),
                            old(position), updater.trades, updater.strategyManager.failSafes.tradeHistory)
    {
      var quantity := EntryQuantity(balance, currentPrice, info);
      if quantity > 0.0 {
        if liveTrading {
          if venue.Some? {
            position := Some(Position(Long, currentPrice, quantity, Placed(venue.value)));
          }
        } else {
          position := Some(Position(Long, currentPrice, quantity, Simulated));
        }
      }
    }

    /** The closing branches: a position on `side` is closed at the current
        price, in simulation or once the venue has answered with an order id,
        and the trade is booked under the side it was opened with. */
    method CloseHeld(side: Side, decision: Action, currentPrice: real, balance: real, info: TradeInfo,
                     venue: Option<string>)
      requires Valid() && currentPrice > 0.0 && !(liveTrading && balance < MinLiveBalance)
      requires side == Long ==> decision == CloseBuy || decision == Sell
      requires side == Short ==> decision == CloseSell
      modifies this, updater, updater.strategyManager.failSafes
      ensures Valid() && portfolio == old(portfolio)
      ensures EffectApplied(Outcome(liveTrading, decision, currentPrice, balance, info, venue, old(position)),
                            old(position), old(updater.trades), old(updater.strategyManager.failSafes.tradeHistory))
      ensures GuardsFollow(Outcome(liveTrading, decision, currentPrice, balance, info, venue, old(position)),
                           old(updater.strategyManager.failSafes.GuardState()))
    {
      if position.Some? && position.value.side == side && (!liveTrading || venue.Some?) {
        var booked := if side == Long then "buy" else "sell";
        BookClose(booked, position.value.entryPrice, currentPrice, CapQuantity(position.value.quantity, info));
      }
    }

    /** Books a closed trade with the self-updater and clears the position. */
    method BookClose(booked: string, entryPrice: real, exitPrice: real, quantity: real)
      requires Valid()
      modifies this, updater, updater.strategyManager.failSafes
      ensures Valid() && portfolio == old(portfolio)
      ensures EffectApplied(Closed(booked, entryPrice, exitPrice, quantity),
                            old(position), old(updater.trades), old(updater.strategyManager.failSafes.tradeHistory))
      ensures GuardsFollow(Closed(booked, entryPrice, exitPrice, quantity),
                           old(updater.strategyManager.failSafes.GuardState()))
    {
      updater.RecordTrade(booked, entryPrice, exitPrice, quantity);
      position := None;
    }
  }

  /** Executing a decision keeps a latched bot stopped, and a booked loss that
      ends a streak of four more makes the streak guard stop trading. */
  lemma ExecutionKeepsStops(d: DecisionMaker, e: Effect, before: Risk.Guards)
    requires d.Valid() && d.GuardsFollow(e, before)
    ensures before.emergencyStop ==> d.updater.strategyManager.failSafes.ShouldStopTrading() == Some(true)
    ensures (e.Closed? && Feedback.Profit(e.decision, e.entryPrice, e.exitPrice, e.quantity) < 0.0
             && before.consecutiveLosses + 1 >= Risk.MaxConsecutiveLosses && before.dailyStartBalance != 0.0)
            ==> d.updater.strategyManager.failSafes.ShouldStopTrading() == Some(true)
  {
  }
}
