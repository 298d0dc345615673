/**
 * `PracticalEURUSDTrader`: a moving-average trader over a 20-price buffer
 * that holds at most one simulated position, books realised profit/loss
 * into its balance on every close, and closes whatever is open when the
 * session ends.  Prices come in as parameters; the clock that ends the
 * session decides only how many prices the session sees.
 *
 * The trader's state is first described as a value (`TraderState`) with
 * pure transitions `Open`, `Close` and `StepState`; the class
 * `PracticalTrader` updates its fields in place and its methods are proved
 * to follow those transitions.
 */
module Trader {
  import opened Wrappers
  import opened TradeLog
  import opened Performance
  import Bounded

  const MovingAverageWindow: nat := 20
  const Instrument := "EUR_USD"

  /** `current_position`: None, 'long' or 'short'. */
  datatype Position = Flat | Long | Short

  function Mids(h: seq<PriceData>): (ms: seq<real>)
    ensures |ms| == |h| && forall i :: 0 <= i < |h| ==> ms[i] == h[i].mid
  {
    if h == [] then [] else Mids(h[..|h| - 1]) + [h[|h| - 1].mid]
  }

  /** `calculate_moving_average`: undefined below two prices, else the arithmetic mean of the mids. */
  function MovingAverage(h: seq<PriceData>): (ma: Option<real>)
    ensures ma.None? <==> |h| < 2
    ensures ma.Some? ==> ma.value * |h| as real == Sum(Mids(h))
  {
    if |h| < 2 then None else Some(Sum(Mids(h)) / |h| as real)
  }

  lemma {:induction false} SumBetween(xs: seq<real>, lo: real, hi: real)
    requires forall i :: 0 <= i < |xs| ==> lo <= xs[i] <= hi
    ensures |xs| as real * lo <= Sum(xs) <= |xs| as real * hi
  {
    if xs != [] {
      SumBetween(xs[..|xs| - 1], lo, hi);
    }
  }

  /** The average never leaves the range of the buffered mids. */
  lemma MeanWithinRange(h: seq<PriceData>)
    requires |h| >= 2
    ensures Min(Mids(h)) <= MovingAverage(h).value <= Max(Mids(h))
  {
    var ms := Mids(h);
    MeanBetween(ms, |h| as real, MovingAverage(h).value, Min(ms), Max(ms));
  }

  lemma MeanBetween(xs: seq<real>, n: real, m: real, lo: real, hi: real)
    requires xs != [] && n == |xs| as real && m == Sum(xs) / n
    requires forall i :: 0 <= i < |xs| ==> lo <= xs[i] <= hi
    ensures lo <= m <= hi
  {
    SumBetween(xs, lo, hi);
    Between(m, n, Sum(xs), lo, hi);
  }

  lemma Between(x: real, n: real, total: real, lo: real, hi: real)
    requires n > 0.0 && x == total / n && n * lo <= total <= n * hi
    ensures lo <= x <= hi
  {
    assert x - lo == (total - n * lo) / n;
    assert hi - x == (n * hi - total) / n;
  }

  /** `should_buy`: the price is strictly below a defined average and the trader is not already long. */
  function ShouldBuy(price: real, ma: Option<real>, position: Position): (b: bool)
    ensures b ==> ma.Some? && price < ma.value
    ensures position == Long ==> !b
    ensures ma.Some? && price < ma.value && position != Long ==> b
  {
    ma.Some? && price < ma.value && position != Long
  }

  /** `should_sell`: the price is strictly above a defined average and the trader is not already short. */
  function ShouldSell(price: real, ma: Option<real>, position: Position): (b: bool)
    ensures b ==> ma.Some? && price > ma.value
    ensures position == Short ==> !b
    ensures ma.Some? && price > ma.value && position != Short ==> b
  {
    ma.Some? && price > ma.value && position != Short
  }

  lemma SignalsExclusive(price: real, ma: Option<real>, position: Position)
    ensures !(ShouldBuy(price, ma, position) && ShouldSell(price, ma, position))
    ensures ma.None? || price == ma.value ==> !ShouldBuy(price, ma, position) && !ShouldSell(price, ma, position)
    ensures position == Long ==> !ShouldBuy(price, ma, position)
    ensures position == Short ==> !ShouldSell(price, ma, position)
  {
  }

  /** The trader's fields that change during a session. */
  datatype TraderState = TraderState(
    balance: real,
    priceHistory: seq<PriceData>,
    trades: seq<Trade>,
    position: Position,
    tradeCount: int)

  function Last(trades: seq<Trade>): Trade
    requires trades != []
  {
    trades[|trades| - 1]
  }

  /**
   * The session invariant: a bounded buffer; trades numbered 1, 2, ... by
   * the counter; every trade but the last closed; a position open exactly
   * when the last trade is still open, on that trade's side; and the
   * balance equal to the initial balance plus all realised profit/loss.
   */
  predicate Consistent(s: TraderState, initialBalance: real, positionSize: int) {
    && |s.priceHistory| <= MovingAverageWindow
    && s.tradeCount == |s.trades|
    && (forall i :: 0 <= i < |s.trades| ==> s.trades[i].tradeId == i + 1 && s.trades[i].units == positionSize)
    && (forall i :: 0 <= i < |s.trades| - 1 ==> s.trades[i].profitLoss.Some?)
    && (s.position != Flat <==> s.trades != [] && Last(s.trades).profitLoss.None?)
    && (s.position == Long ==> Last(s.trades).action == Buy)
    && (s.position == Short ==> Last(s.trades).action == Sell)
    && s.balance == initialBalance + Sum(CompletedPnls(s.trades))
  }

  function InitialState(initialBalance: real): TraderState {
    TraderState(initialBalance, [], [], Flat, 0)
  }

  lemma InitialConsistent(initialBalance: real, positionSize: int)
    ensures Consistent(InitialState(initialBalance), initialBalance, positionSize)
  {
  }

  /**
   * `execute_trade`: the counter goes up by one and exactly one open record
   * is appended, numbered by the new count, entered at the ask for a buy
   * and at the bid for a sell, carrying the current moving average.
   */
  function Open(s: TraderState, action: Action, price: PriceData, positionSize: int): (r: (TraderState, Trade))
    ensures r.0.tradeCount == s.tradeCount + 1
    ensures r.0.trades == s.trades + [r.1]
    ensures r.1.tradeId == r.0.tradeCount && r.1.profitLoss.None? && r.1.action == action
    ensures r.1.units == positionSize && r.1.instrument == Instrument && r.1.timestamp == price.timestamp
    ensures r.1.executionPrice == if action == Buy then price.ask else price.bid
    ensures r.1.movingAverage == MovingAverage(s.priceHistory)
    ensures r.0.position == if action == Buy then Long else Short
    ensures r.0.balance == s.balance && r.0.priceHistory == s.priceHistory
  {
    var count := s.tradeCount + 1;
    var executionPrice := if action == Buy then price.ask else price.bid;
    var trade := Trade(count, action, Instrument, positionSize, executionPrice, price.timestamp,
                       MovingAverage(s.priceHistory), None, None, None);
    (s.(tradeCount := count, trades := s.trades + [trade], position := if action == Buy then Long else Short), trade)
  }

  /**
   * The realised profit/loss of closing a position entered at `entry`: a
   * long closes at the bid and a short at the ask, and for a positive size
   * it is a profit exactly when that closing price moved the right way.
   */
  function ClosePnl(position: Position, entry: real, price: PriceData, positionSize: int): (pnl: real)
    requires position != Flat
    ensures positionSize > 0 && position == Long ==> (pnl > 0.0 <==> price.bid > entry) && (pnl < 0.0 <==> price.bid < entry)
    ensures positionSize > 0 && position == Short ==> (pnl > 0.0 <==> price.ask < entry) && (pnl < 0.0 <==> price.ask > entry)
    ensures positionSize == 0 ==> pnl == 0.0
  {
    if position == Long then (price.bid - entry) * positionSize as real
    else (entry - price.ask) * positionSize as real
  }

  /**
   * `close_position`: nothing happens without an open position (or without
   * a trade); otherwise only the last record is completed, the balance
   * moves by the profit/loss and the position is cleared.
   */
  function Close(s: TraderState, price: PriceData, reason: string, positionSize: int): (r: (TraderState, Option<real>))
    ensures s.position == Flat || s.trades == [] ==> r == (s, None)
    ensures s.position != Flat && s.trades != [] ==>
      var n := |s.trades|;
      var pnl := ClosePnl(s.position, Last(s.trades).executionPrice, price, positionSize);
      && r.1 == Some(pnl)
      && r.0.position == Flat
      && r.0.balance == s.balance + pnl
      && |r.0.trades| == n && r.0.trades[..n - 1] == s.trades[..n - 1]
      && Last(r.0.trades) == Last(s.trades).(profitLoss := Some(pnl),
                                              closingPrice := Some(if s.position == Long then price.bid else price.ask),
                                              closingReason := Some(reason))
      && r.0.priceHistory == s.priceHistory && r.0.tradeCount == s.tradeCount
  {
    if s.position == Flat || s.trades == [] then (s, None)
    else
      var last := Last(s.trades);
      var closingPrice := if s.position == Long then price.bid else price.ask;
      var pnl := ClosePnl(s.position, last.executionPrice, price, positionSize);
      var closed := last.(profitLoss := Some(pnl), closingPrice := Some(closingPrice), closingReason := Some(reason));
      var trades := s.trades[..|s.trades| - 1] + [closed];
      assert trades[..|s.trades| - 1] == s.trades[..|s.trades| - 1];
      (s.(trades := trades, balance := s.balance + pnl, position := Flat), Some(pnl))
  }

  /** Opening and closing on the same quote loses exactly the spread on every unit. */
  lemma SameQuoteRoundTrip(s: TraderState, action: Action, price: PriceData, positionSize: int, reason: string)
    ensures var entered := Open(s, action, price, positionSize).0;
      Close(entered, price, reason, positionSize).1 == Some((price.bid - price.ask) * positionSize as real)
  {
    var entered := Open(s, action, price, positionSize).0;
    var entry := Last(entered.trades).executionPrice;
    var pnl := ClosePnl(entered.position, entry, price, positionSize);
    assert Close(entered, price, reason, positionSize).1 == Some(pnl);
    if action == Buy {
      assert entered.position == Long && entry == price.ask;
      assert pnl == (price.bid - entry) * positionSize as real;
      assert price.bid - entry == price.bid - price.ask;
      assert pnl == (price.bid - price.ask) * positionSize as real;
    } else {
      assert entered.position == Short && entry == price.bid;
      assert pnl == (entry - price.ask) * positionSize as real;
      assert entry - price.ask == price.bid - price.ask;
      assert pnl == (price.bid - price.ask) * positionSize as real;
    }
  }

  lemma OpenKeepsConsistent(s: TraderState, action: Action, price: PriceData, initialBalance: real, positionSize: int)
    requires Consistent(s, initialBalance, positionSize) && s.position == Flat
    ensures Consistent(Open(s, action, price, positionSize).0, initialBalance, positionSize)
  {
    var r := Open(s, action, price, positionSize).0;
    assert CompletedPnls(r.trades) == CompletedPnls(s.trades) by {
      assert r.trades[..|r.trades| - 1] == s.trades;
    }
  }

  lemma CloseKeepsConsistent(s: TraderState, price: PriceData, reason: string, initialBalance: real, positionSize: int)
    requires Consistent(s, initialBalance, positionSize)
    ensures var r := Close(s, price, reason, positionSize).0;
      Consistent(r, initialBalance, positionSize) && r.position == Flat
  {
    if s.position != Flat {
      var r := Close(s, price, reason, positionSize);
      var n := |s.trades|;
      var init := s.trades[..n - 1];
      assert r.0.trades[..n - 1] == init;
      assert CompletedPnls(s.trades) == CompletedPnls(init);
      assert CompletedPnls(r.0.trades) == CompletedPnls(init) + [r.1.value];
      SumAppend(CompletedPnls(init), [r.1.value]);
      forall i | 0 <= i < n ensures r.0.trades[i].tradeId == i + 1 && r.0.trades[i].units == positionSize {
        if i < n - 1 { assert r.0.trades[i] == init[i] == s.trades[i]; }
      }
      forall i | 0 <= i < n - 1 ensures r.0.trades[i].profitLoss.Some? {
        assert r.0.trades[i] == init[i] == s.trades[i];
      }
    }
  }

  /**
   * One pass of the session loop: the price joins the buffer, the average
   * is taken over the buffer including it, and a buy or a sell signal first
   * closes an opposite position and then opens the new one.
   */
  function StepState(s: TraderState, price: PriceData, positionSize: int): (r: TraderState)
    ensures r.priceHistory == Bounded.Append(s.priceHistory, price, MovingAverageWindow)
    ensures r.tradeCount == s.tradeCount || r.tradeCount == s.tradeCount + 1
  {
    var history := Bounded.Append(s.priceHistory, price, MovingAverageWindow);
    var s1 := s.(priceHistory := history);
    var ma := MovingAverage(history);
    if ma.None? then s1
    else if ShouldBuy(price.mid, ma, s1.position) then
      var s2 := if s1.position == Short then Close(s1, price, "strategy_reversal", positionSize).0 else s1;
      Open(s2, Buy, price, positionSize).0
    else if ShouldSell(price.mid, ma, s1.position) then
      var s2 := if s1.position == Long then Close(s1, price, "strategy_reversal", positionSize).0 else s1;
      Open(s2, Sell, price, positionSize).0
    else s1
  }

  /**
   * What one step decides, signal by signal: a buy signal ends long with
   * one more trade, an open buy, after first closing a short at its
   * profit/loss; a sell signal is the mirror; without a signal only the
   * buffer changes.
   */
  lemma StepDecides(s: TraderState, price: PriceData, positionSize: int)
    ensures var history := Bounded.Append(s.priceHistory, price, MovingAverageWindow);
      var ma := MovingAverage(history);
      var r := StepState(s, price, positionSize);
      && (ShouldBuy(price.mid, ma, s.position) ==>
            && r.position == Long && |r.trades| == |s.trades| + 1
            && Last(r.trades).action == Buy && Last(r.trades).profitLoss.None?
            && (s.position == Flat ==> r.balance == s.balance)
            && (s.position == Short && s.trades != [] ==>
                  r.balance == s.balance + ClosePnl(Short, Last(s.trades).executionPrice, price, positionSize)))
      && (ShouldSell(price.mid, ma, s.position) ==>
            && r.position == Short && |r.trades| == |s.trades| + 1
            && Last(r.trades).action == Sell && Last(r.trades).profitLoss.None?
            && (s.position == Flat ==> r.balance == s.balance)
            && (s.position == Long && s.trades != [] ==>
                  r.balance == s.balance + ClosePnl(Long, Last(s.trades).executionPrice, price, positionSize)))
      && (!ShouldBuy(price.mid, ma, s.position) && !ShouldSell(price.mid, ma, s.position) ==>
            r == s.(priceHistory := history))
  {
    var history := Bounded.Append(s.priceHistory, price, MovingAverageWindow);
    var s1 := s.(priceHistory := history);
    assert s1.trades == s.trades && s1.position == s.position && s1.balance == s.balance;
  }

  lemma StepKeepsConsistent(s: TraderState, price: PriceData, initialBalance: real, positionSize: int)
    requires Consistent(s, initialBalance, positionSize)
    ensures Consistent(StepState(s, price, positionSize), initialBalance, positionSize)
  {
    var history := Bounded.Append(s.priceHistory, price, MovingAverageWindow);
    var s1 := s.(priceHistory := history);
    assert Consistent(s1, initialBalance, positionSize);
    var ma := MovingAverage(history);
    if ma.Some? && (ShouldBuy(price.mid, ma, s1.position) || ShouldSell(price.mid, ma, s1.position)) {
      var action := if ShouldBuy(price.mid, ma, s1.position) then Buy else Sell;
      var opposite := if action == Buy then Short else Long;
      var s2 := if s1.position == opposite then Close(s1, price, "strategy_reversal", positionSize).0 else s1;
      CloseKeepsConsistent(s1, price, "strategy_reversal", initialBalance, positionSize);
      assert s2.position == Flat;
      OpenKeepsConsistent(s2, action, price, initialBalance, positionSize);
    }
  }

  /**
   * The average recorded in a newly opened trade is the one the decision
   * was taken on: nothing between the decision and the record alters the
   * buffer.
   */
  lemma StepRecordsDecisionAverage(s: TraderState, price: PriceData, positionSize: int)
    requires |StepState(s, price, positionSize).trades| > |s.trades|
    ensures var r := StepState(s, price, positionSize);
      Last(r.trades).movingAverage == MovingAverage(r.priceHistory)
      && Last(r.trades).movingAverage.Some?
      && (Last(r.trades).action == Buy ==> price.mid < Last(r.trades).movingAverage.value)
      && (Last(r.trades).action == Sell ==> price.mid > Last(r.trades).movingAverage.value)
  {
  }

  /**
   * A reversal closes before it opens: a buy signal while short completes
   * the short trade at the ask and appends exactly one open buy.
   */
  lemma ReversalClosesThenOpens(s: TraderState, price: PriceData, initialBalance: real, positionSize: int)
    requires Consistent(s, initialBalance, positionSize) && s.position == Short
    requires ShouldBuy(price.mid, MovingAverage(Bounded.Append(s.priceHistory, price, MovingAverageWindow)), Short)
    ensures var r := StepState(s, price, positionSize);
      var n := |s.trades|;
      && |r.trades| == n + 1
      && r.trades[n - 1].profitLoss == Some(ClosePnl(Short, Last(s.trades).executionPrice, price, positionSize))
      && r.trades[n - 1].closingPrice == Some(price.ask)
      && r.trades[n].action == Buy && r.trades[n].profitLoss.None?
      && r.position == Long
  {
    var history := Bounded.Append(s.priceHistory, price, MovingAverageWindow);
    var s1 := s.(priceHistory := history);
    var s2 := Close(s1, price, "strategy_reversal", positionSize).0;
    var r := StepState(s, price, positionSize);
    assert r == Open(s2, Buy, price, positionSize).0;
    assert r.trades[..|s.trades|] == s2.trades;
  }

  /**
   * The session: one step per price the clock lets through.  Each price
   * opens at most one trade, and the buffer ends with the latest price.
   */
  function Session(s: TraderState, prices: seq<PriceData>, positionSize: int): (r: TraderState)
    ensures |s.trades| <= |r.trades| <= |s.trades| + |prices|
    ensures s.tradeCount <= r.tradeCount <= s.tradeCount + |prices|
    ensures prices != [] ==> r.priceHistory != [] && r.priceHistory[|r.priceHistory| - 1] == prices[|prices| - 1]
    ensures prices == [] ==> r == s
  {
    if prices == [] then s
    else StepState(Session(s, prices[..|prices| - 1], positionSize), prices[|prices| - 1], positionSize)
  }

  lemma {:induction false} SessionKeepsConsistent(s: TraderState, prices: seq<PriceData>, initialBalance: real, positionSize: int)
    requires Consistent(s, initialBalance, positionSize)
    ensures Consistent(Session(s, prices, positionSize), initialBalance, positionSize)
  {
    if prices != [] {
      SessionKeepsConsistent(s, prices[..|prices| - 1], initialBalance, positionSize);
      StepKeepsConsistent(Session(s, prices[..|prices| - 1], positionSize), prices[|prices| - 1], initialBalance, positionSize);
    }
  }

  /** The `finally` block: whatever is still open is closed at the final price. */
  function FinalClose(s: TraderState, price: PriceData, positionSize: int): (r: TraderState)
    ensures s.position == Flat ==> r == s
    ensures s.position != Flat && s.trades != [] ==>
      r.position == Flat && r.balance == s.balance + ClosePnl(s.position, Last(s.trades).executionPrice, price, positionSize)
    ensures |r.trades| == |s.trades| && r.tradeCount == s.tradeCount && r.priceHistory == s.priceHistory
  {
    if s.position != Flat then Close(s, price, "end_of_session", positionSize).0 else s
  }

  /**
   * After the final close nothing is open, every trade has its
   * profit/loss, and the balance is the initial balance plus their sum.
   */
  lemma FinalCloseSettlesEverything(s: TraderState, price: PriceData, initialBalance: real, positionSize: int)
    requires Consistent(s, initialBalance, positionSize)
    ensures var r := FinalClose(s, price, positionSize);
      && Consistent(r, initialBalance, positionSize)
      && r.position == Flat
      && (forall i :: 0 <= i < |r.trades| ==> r.trades[i].profitLoss.Some?)
      && |CompletedPnls(r.trades)| == |r.trades|
  {
    var r := FinalClose(s, price, positionSize);
    if s.position != Flat {
      CloseKeepsConsistent(s, price, "end_of_session", initialBalance, positionSize);
      assert r == Close(s, price, "end_of_session", positionSize).0;
    }
    assert Consistent(r, initialBalance, positionSize) && r.position == Flat;
    AllCompleted(r.trades);
  }

  /**
   * The performance report agrees with the ledger: its total profit/loss
   * is exactly what the balance gained over the session.
   */
  lemma ReportMatchesBalance(s: TraderState, initialBalance: real, positionSize: int)
    requires Consistent(s, initialBalance, positionSize)
    requires Analyze(s.trades, initialBalance, s.balance).Report?
    ensures var m := Analyze(s.trades, initialBalance, s.balance).metrics;
      m.totalProfitLoss == m.finalBalance - initialBalance
  {
  }

  /** `self.metrics`: the initial placeholder until a report is computed. */
  datatype MetricsRecord = Placeholder | Computed(metrics: Metrics)

  class PracticalTrader {
    const initialBalance: real
    const positionSize: int
    var currentBalance: real
    var priceHistory: seq<PriceData>
    var trades: seq<Trade>
    var currentPosition: Position
    var tradeCount: int
    var isTrading: bool
    var metrics: MetricsRecord

    function State(): TraderState
      reads this
    {
      TraderState(currentBalance, priceHistory, trades, currentPosition, tradeCount)
    }

    ghost predicate Valid()
      reads this
    {
      Consistent(State(), initialBalance, positionSize)
    }

    constructor (initialBalance: real, positionSize: int)
      ensures this.initialBalance == initialBalance && this.positionSize == positionSize
      ensures State() == InitialState(initialBalance) && !isTrading && metrics == Placeholder
      ensures Valid()
    {
      this.initialBalance := initialBalance;
      this.positionSize := positionSize;
      currentBalance := initialBalance;
      priceHistory := [];
      trades := [];
      currentPosition := Flat;
      tradeCount := 0;
      isTrading := false;
      metrics := Placeholder;
    }

    method ExecuteTrade(action: Action, price: PriceData) returns (trade: Trade)
      modifies this
      ensures (State(), trade) == Open(old(State()), action, price, positionSize)
      ensures isTrading == old(isTrading) && metrics == old(metrics)
    {
      tradeCount := tradeCount + 1;
      var executionPrice;
      if action == Buy {
        executionPrice := price.ask;
        currentPosition := Long;
      } else {
        executionPrice := price.bid;
        currentPosition := Short;
      }
      trade := Trade(tradeCount, action, Instrument, positionSize, executionPrice, price.timestamp,
                     MovingAverage(priceHistory), None, None, None);
      trades := trades + [trade];
    }

    method ClosePosition(price: PriceData, reason: string) returns (pnl: Option<real>)
      modifies this
      ensures (State(), pnl) == Close(old(State()), price, reason, positionSize)
      ensures isTrading == old(isTrading) && metrics == old(metrics)
    {
      if currentPosition == Flat {
        return None;
      }
      if trades == [] {
        return None;
      }
      ghost var before := State();
      var last := trades[|trades| - 1];
      var closingPrice, p;
      if currentPosition == Long {
        closingPrice := price.bid;
        p := (closingPrice - last.executionPrice) * positionSize as real;
      } else {
        closingPrice := price.ask;
        p := (last.executionPrice - closingPrice) * positionSize as real;
      }
      trades := trades[..|trades| - 1]
        + [last.(profitLoss := Some(p), closingPrice := Some(closingPrice), closingReason := Some(reason))];
      currentBalance := currentBalance + p;
      currentPosition := Flat;
      pnl := Some(p);
      assert p == ClosePnl(before.position, Last(before.trades).executionPrice, price, positionSize);
    }

    /** One iteration of the loop in `run_trading_session`. */
    method Step(price: PriceData)
      modifies this
      ensures State() == StepState(old(State()), price, positionSize)
      ensures isTrading == old(isTrading) && metrics == old(metrics)
    {
      priceHistory := Bounded.Append(priceHistory, price, MovingAverageWindow);
      var movingAverage := MovingAverage(priceHistory);
      if movingAverage.Some? {
        if ShouldBuy(price.mid, movingAverage, currentPosition) {
          if currentPosition == Short {
            var _ := ClosePosition(price, "strategy_reversal");
          }
          var _ := ExecuteTrade(Buy, price);
        } else if ShouldSell(price.mid, movingAverage, currentPosition) {
          if currentPosition == Long {
            var _ := ClosePosition(price, "strategy_reversal");
          }
          var _ := ExecuteTrade(Sell, price);
        }
      }
    }

    /**
     * `run_trading_session`: one step per price in `prices`, then the final
     * close at `finalPrice` if a position is still open.
     */
    method RunTradingSession(prices: seq<PriceData>, finalPrice: PriceData)
      requires Valid()
      modifies this
      ensures State() == FinalClose(Session(old(State()), prices, positionSize), finalPrice, positionSize)
      ensures Valid() && currentPosition == Flat && !isTrading && metrics == old(metrics)
    {
      ghost var start := State();
      isTrading := true;
      var i := 0;
      while i < |prices|
        invariant 0 <= i <= |prices|
        invariant State() == Session(start, prices[..i], positionSize)
        invariant Valid() && isTrading && metrics == old(metrics)
      {
        assert prices[..i + 1][..i] == prices[..i];
        assert Session(start, prices[..i + 1], positionSize) == StepState(State(), prices[i], positionSize);
        StepKeepsConsistent(State(), prices[i], initialBalance, positionSize);
        Step(prices[i]);
        i := i + 1;
      }
      assert prices[..i] == prices;
      FinalCloseSettlesEverything(State(), finalPrice, initialBalance, positionSize);
      if currentPosition != Flat {
        var _ := ClosePosition(finalPrice, "end_of_session");
      }
      isTrading := false;
    }

    /** `analyze_performance`: the metrics are replaced only when a report is produced. */
    method AnalyzePerformance() returns (a: Analysis)
      modifies this`metrics
      ensures a == Analyze(trades, initialBalance, currentBalance)
      ensures metrics == if a.Report? then Computed(a.metrics) else old(metrics)
    {
      a := Analyze(trades, initialBalance, currentBalance);
      if a.Report? {
        metrics := Computed(a.metrics);
      }
    }
  }
}
