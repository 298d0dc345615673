/**
 * `OrderManager`: the quote derived from the latest candle, the three
 * order creators with their unit-sign and warning rules, the simulated
 * order records, the position and order side labels, the portfolio
 * totals, and the risk-based position sizing.  Random order ids and
 * slippage are parameters.
 */
module Orders {
  import opened Wrappers

  datatype Quote = Quote(bid: real, ask: real, mid: real)

  /** The broker's answer to the one-candle history request. */
  datatype CandleAnswer = Candles(closes: seq<real>) | Failed

  const Spread: real := 0.0002

  /** `get_current_price`: a symmetric spread around the latest close, or None. */
  function GetCurrentPrice(answer: CandleAnswer): (q: Option<Quote>)
    ensures q.Some? <==> answer.Candles? && |answer.closes| > 0
    ensures q.Some? ==> q.value.mid == answer.closes[|answer.closes| - 1]
    ensures q.Some? ==> q.value.bid < q.value.mid < q.value.ask && q.value.ask - q.value.bid == Spread
    ensures q.Some? ==> q.value.bid == q.value.mid - Spread / 2.0 && q.value.ask == q.value.mid + Spread / 2.0
  {
    match answer
    case Failed => None
    case Candles(closes) =>
      if |closes| == 0 then None
      else
        var close := closes[|closes| - 1];
        Some(Quote(close - Spread / 2.0, close + Spread / 2.0, close))
  }

  /** The sign rule shared by the three creators: a "sell" with positive units is negated. */
  function NormalizeUnits(side: string, units: int): (u: int)
    ensures side == "sell" ==> u == -(Abs(units) as int)
    ensures side != "sell" ==> u == units
  {
    if side == "sell" && units > 0 then -units else units
  }

  /** Normalising is idempotent and leaves non-positive units alone. */
  lemma NormalizeUnitsFacts(side: string, units: int)
    ensures NormalizeUnits(side, NormalizeUnits(side, units)) == NormalizeUnits(side, units)
    ensures units <= 0 ==> NormalizeUnits(side, units) == units
  {
  }

  function Abs(x: int): (a: nat)
    ensures a == x || a == -x
  {
    if x < 0 then -x else x
  }

  const CommissionRate: real := 0.000025
  const MaxSlippage: real := 0.0001
  const MarketOrderError := "Error creating market order: 'NoneType' object is not subscriptable"

  /** The simulated order records, and the error dictionary of a failed creation. */
  datatype OrderResponse =
    | Market(orderId: int, instrument: string, units: int, fillPrice: real, pnl: real, commission: real)
    | Limit(orderId: int, instrument: string, units: int, price: real, stopLoss: Option<real>, takeProfit: Option<real>)
    | Stop(orderId: int, instrument: string, units: int, price: real)
    | Error(message: string)
  {
    function Kind(): string
      requires !Error?
    {
      if Market? then "MARKET" else if Limit? then "LIMIT" else "STOP"
    }

    function State(): string
      requires !Error?
    {
      if Market? then "FILLED" else "PENDING"
    }
  }

  /** The order ids are drawn from `randint(100000, 999999)`. */
  predicate ValidOrderId(orderId: int) {
    100000 <= orderId <= 999999
  }

  /**
   * `create_market_order`: with a quote, a filled order at the ask (positive
   * units) or the bid plus slippage; without one, subscripting None raises
   * and the creator returns its error dictionary.
   */
  function CreateMarketOrder(instrument: string, units: int, side: string, current: Option<Quote>,
                             orderId: int, slippage: real): (r: OrderResponse)
    requires ValidOrderId(orderId) && -MaxSlippage <= slippage <= MaxSlippage
    ensures current.None? <==> r.Error?
    ensures current.None? ==> r.message == MarketOrderError
    ensures r.Market? ==> r.orderId == orderId && r.instrument == instrument
                          && r.units == NormalizeUnits(side, units) && r.pnl == 0.0
    ensures r.Market? ==> r.commission == Abs(units) as real * CommissionRate && r.commission >= 0.0
    ensures r.Market? && r.units > 0 ==> current.value.ask - MaxSlippage <= r.fillPrice <= current.value.ask + MaxSlippage
    ensures r.Market? && r.units <= 0 ==> current.value.bid - MaxSlippage <= r.fillPrice <= current.value.bid + MaxSlippage
  {
    var u := NormalizeUnits(side, units);
    match current
    case None => Error(MarketOrderError)
    case Some(q) =>
      var base := if u > 0 then q.ask else q.bid;
      Market(orderId, instrument, u, base + slippage, 0.0, Abs(u) as real * CommissionRate)
  }

  /** A market sell of positive units always fills on the bid side, a buy on the ask side. */
  lemma MarketSideFollowsDirection(instrument: string, units: int, q: Quote, orderId: int, slippage: real)
    requires ValidOrderId(orderId) && -MaxSlippage <= slippage <= MaxSlippage
    requires units > 0
    ensures CreateMarketOrder(instrument, units, "buy", Some(q), orderId, slippage).fillPrice == q.ask + slippage
    ensures CreateMarketOrder(instrument, units, "sell", Some(q), orderId, slippage).fillPrice == q.bid + slippage
    ensures CreateMarketOrder(instrument, units, "sell", Some(q), orderId, slippage).units == -units
  {
  }

  /** `create_limit_order`: a pending order echoing its price and its optional stop-loss and take-profit. */
  function CreateLimitOrder(instrument: string, units: int, price: real, side: string,
                            stopLoss: Option<real>, takeProfit: Option<real>, orderId: int): (r: OrderResponse)
    requires ValidOrderId(orderId)
    ensures r.Limit? && r.State() == "PENDING" && r.Kind() == "LIMIT"
    ensures r.price == price && r.stopLoss == stopLoss && r.takeProfit == takeProfit
    ensures r.units == NormalizeUnits(side, units) && r.orderId == orderId && r.instrument == instrument
  {
    Limit(orderId, instrument, NormalizeUnits(side, units), price, stopLoss, takeProfit)
  }

  /** `create_stop_order`: a pending order echoing its price. */
  function CreateStopOrder(instrument: string, units: int, price: real, side: string, orderId: int): (r: OrderResponse)
    requires ValidOrderId(orderId)
    ensures r.Stop? && r.State() == "PENDING" && r.Kind() == "STOP"
    ensures r.price == price && r.units == NormalizeUnits(side, units)
    ensures r.orderId == orderId && r.instrument == instrument
  {
    Stop(orderId, instrument, NormalizeUnits(side, units), price)
  }

  /**
   * The limit creator's warning: a buy limit at or above the mid, or a sell
   * limit at or below it, would execute at once.  No quote, no warning.
   */
  function LimitWarning(side: string, price: real, current: Option<Quote>): (w: bool)
    ensures w ==> current.Some? && (side == "buy" || side == "sell")
    ensures current.Some? && side == "buy" ==> (w <==> price >= current.value.mid)
    ensures current.Some? && side == "sell" ==> (w <==> price <= current.value.mid)
  {
    current.Some? && ((side == "buy" && price >= current.value.mid) || (side == "sell" && price <= current.value.mid))
  }

  /** The stop creator's warning: a buy stop at or below the mid, or a sell stop at or above it. */
  function StopWarning(side: string, price: real, current: Option<Quote>): (w: bool)
    ensures w ==> current.Some? && (side == "buy" || side == "sell")
    ensures current.Some? && side == "buy" ==> (w <==> price <= current.value.mid)
    ensures current.Some? && side == "sell" ==> (w <==> price >= current.value.mid)
  {
    current.Some? && ((side == "buy" && price <= current.value.mid) || (side == "sell" && price >= current.value.mid))
  }

  /**
   * For a real side and a known quote, every price draws exactly one of the
   * two warnings, except the mid itself, which draws both.
   */
  lemma WarningsComplement(side: string, price: real, q: Quote)
    requires side == "buy" || side == "sell"
    ensures LimitWarning(side, price, Some(q)) || StopWarning(side, price, Some(q))
    ensures LimitWarning(side, price, Some(q)) && StopWarning(side, price, Some(q)) <==> price == q.mid
  {
  }

  /** An open position; the total is over `get('margin_used', 0)` and `get('unrealized_pnl', 0)`. */
  datatype OpenPosition = OpenPosition(instrument: string, units: int, avgPrice: real, currentPrice: real,
                                       unrealizedPnl: Option<real>, marginUsed: Option<real>)

  function PositionSide(units: int): (s: string)
    ensures s == "LONG" <==> units > 0
    ensures s == "LONG" || s == "SHORT"
  {
    if units > 0 then "LONG" else "SHORT"
  }

  function OrderSide(units: int): (s: string)
    ensures s == "BUY" <==> units > 0
    ensures s == "BUY" || s == "SELL"
  {
    if units > 0 then "BUY" else "SELL"
  }

  function OrZero(v: Option<real>): real {
    if v.Some? then v.value else 0.0
  }

  /**
   * `sum(pos.get('margin_used', 0) ...)`: zero when no position reports a
   * margin, and never negative when no reported margin is.
   */
  function TotalMargin(positions: seq<OpenPosition>): (m: real)
    ensures (forall i :: 0 <= i < |positions| ==> positions[i].marginUsed.None?) ==> m == 0.0
    ensures (forall i :: 0 <= i < |positions| ==> OrZero(positions[i].marginUsed) >= 0.0) ==> m >= 0.0
  {
    if positions == [] then 0.0
    else
      var init := positions[..|positions| - 1];
      assert forall i :: 0 <= i < |init| ==> init[i] == positions[i];
      TotalMargin(init) + OrZero(positions[|positions| - 1].marginUsed)
  }

  /**
   * `sum(pos.get('unrealized_pnl', 0) ...)`: zero when no position reports a
   * profit/loss, and signed like the reported values when they agree in sign.
   */
  function TotalUnrealizedPnl(positions: seq<OpenPosition>): (t: real)
    ensures (forall i :: 0 <= i < |positions| ==> positions[i].unrealizedPnl.None?) ==> t == 0.0
    ensures (forall i :: 0 <= i < |positions| ==> OrZero(positions[i].unrealizedPnl) >= 0.0) ==> t >= 0.0
    ensures (forall i :: 0 <= i < |positions| ==> OrZero(positions[i].unrealizedPnl) <= 0.0) ==> t <= 0.0
  {
    if positions == [] then 0.0
    else
      var init := positions[..|positions| - 1];
      assert forall i :: 0 <= i < |init| ==> init[i] == positions[i];
      TotalUnrealizedPnl(init) + OrZero(positions[|positions| - 1].unrealizedPnl)
  }

  /** The portfolio totals split over any partition of the position list. */
  lemma {:induction false} TotalsSplit(a: seq<OpenPosition>, b: seq<OpenPosition>)
    ensures TotalMargin(a + b) == TotalMargin(a) + TotalMargin(b)
    ensures TotalUnrealizedPnl(a + b) == TotalUnrealizedPnl(a) + TotalUnrealizedPnl(b)
  {
    if b == [] {
      assert a + b == a;
    } else {
      TotalsSplit(a, b[..|b| - 1]);
      assert (a + b)[..|a + b| - 1] == a + b[..|b| - 1];
    }
  }

  /** One position contributes exactly its reported margin and P&L (0 when unreported); with `TotalsSplit` this fixes both totals on every list. */
  lemma TotalsOfOne(p: OpenPosition)
    ensures TotalMargin([p]) == OrZero(p.marginUsed)
    ensures TotalUnrealizedPnl([p]) == OrZero(p.unrealizedPnl)
  {
    assert [p][..0] == [];
  }

  /** The two hard-coded positions of `get_open_positions`. */
  const SamplePositions: seq<OpenPosition> := [
    OpenPosition("EUR_USD", 10000, 1.16045, 1.16052, Some(7.0), Some(387.5)),
    OpenPosition("GBP_USD", -5000, 1.27235, 1.27225, Some(5.0), Some(212.7))
  ]

  /** The demonstration portfolio: one long, one short, 600.2 of margin and 12.0 unrealised. */
  lemma SamplePortfolio()
    ensures PositionSide(SamplePositions[0].units) == "LONG" && PositionSide(SamplePositions[1].units) == "SHORT"
    ensures TotalMargin(SamplePositions) == 600.2 && TotalUnrealizedPnl(SamplePositions) == 12.0
  {
    assert SamplePositions[..1][..0] == [];
    assert SamplePositions[..|SamplePositions| - 1] == SamplePositions[..1];
  }

  /** Python's `int()` of a float: truncation toward zero. */
  function Trunc(x: real): (n: int)
    ensures x >= 0.0 ==> n as real <= x < n as real + 1.0
    ensures x < 0.0 ==> n as real - 1.0 < x <= n as real
  {
    if x >= 0.0 then x.Floor else -((-x).Floor)
  }

  const PipsPerUnit: real := 10000.0
  const DivisionByZero := "float division by zero"

  /**
   * The position sizing: the risk budget divided by the stop distance in
   * pips times the pip value, scaled by 10000 and truncated.  A zero stop
   * distance or pip value divides by zero.  Truncation never rounds the
   * size up: with a stop below the entry, a positive pip value and a
   * non-negative budget, the risk reported back stays within the budget and
   * falls short of it by less than the risk of one unit.
   */
  function PositionSize(balance: real, riskPerTrade: real, entry: real, stopLoss: real, pipValue: real): (r: Result<int, string>)
    ensures r.Err? <==> (entry - stopLoss) * PipsPerUnit * pipValue == 0.0
    ensures r.Ok? && entry > stopLoss && pipValue > 0.0 && balance * riskPerTrade >= 0.0 ==>
      var unitRisk := (entry - stopLoss) * pipValue;
      r.value >= 0
      && ActualRisk(entry, stopLoss, pipValue, r.value) <= balance * riskPerTrade
      && balance * riskPerTrade - unitRisk < ActualRisk(entry, stopLoss, pipValue, r.value)
  {
    var pipRisk := (entry - stopLoss) * PipsPerUnit;
    var maxRisk := balance * riskPerTrade;
    if pipRisk * pipValue == 0.0 then Err(DivisionByZero)
    else
      var size := Trunc(maxRisk / (pipRisk * pipValue) * PipsPerUnit);
      if entry > stopLoss && pipValue > 0.0 && maxRisk >= 0.0 then
        var unitRisk := (entry - stopLoss) * pipValue;
        assert maxRisk / (pipRisk * pipValue) * PipsPerUnit == maxRisk / unitRisk;
        TruncatedSizeWithinBudget(maxRisk, unitRisk, size);
        Ok(size)
      else Ok(size)
  }

  /** The risk the demonstration reports back for a position size. */
  function ActualRisk(entry: real, stopLoss: real, pipValue: real, size: int): real {
    (entry - stopLoss) * PipsPerUnit * pipValue * size as real / PipsPerUnit
  }

  /** Truncating `budget / unitRisk` gives the largest whole size whose risk fits the budget. */
  lemma TruncatedSizeWithinBudget(budget: real, unitRisk: real, size: int)
    requires unitRisk > 0.0 && budget >= 0.0
    requires size == Trunc(budget / unitRisk)
    ensures size >= 0
    ensures unitRisk * size as real <= budget < unitRisk * size as real + unitRisk
  {
    var x := budget / unitRisk;
    var n := size as real;
    assert x >= 0.0;
    assert n <= x < n + 1.0;
    ScaleBounds(unitRisk, n, x);
    calc {
      budget;
      unitRisk * x;
    <
      unitRisk * n + unitRisk;
    }
  }

  /** Multiplying `n <= x < n + 1` by a positive factor. */
  lemma ScaleBounds(c: real, n: real, x: real)
    requires c > 0.0 && n <= x < n + 1.0
    ensures c * n <= c * x < c * n + c
  {
    assert c * (x - n) >= 0.0;
    assert c * (n + 1.0 - x) > 0.0;
  }

  /** The demonstration's own numbers: 2% of 10,000 over a 30-pip stop gives 66,666 units. */
  lemma DemonstrationSize()
    ensures PositionSize(10000.0, 0.02, 1.16, 1.157, 1.0) == Ok(66666)
    ensures ActualRisk(1.16, 1.157, 1.0, 66666) <= 200.0
  {
    var x := 10000.0 * 0.02 / ((1.16 - 1.157) * PipsPerUnit * 1.0) * PipsPerUnit;
    assert x == 200000000.0 / 3000.0;
    assert 66666.0 <= x < 66667.0;
  }
}
