# OANDA practice-trading toolkit — a Dafny model

This project models the logic of a small OANDA demonstration toolkit and
proves properties about it. The toolkit reads broker credentials from the
environment and wraps the broker SDK for account and history queries. It
also simulates market, limit and stop orders, runs a five-minute
moving-average EUR/USD trading session with performance analysis, and
keeps statistics over a stream of price ticks.

Modules (one file each):

- `Wrappers`: `Option` and `Result`.
- `Bounded`: a `deque(maxlen=n)` append, shared by the trader's 20-price
  buffer, the streamer's 1000-tick buffer and its 100-entry change buffers.
- `Config`: `OandaConfig`, covering environment selection, credential
  validation and headers. The environment variables are parameters.
- `Connection`: the `get_history` window computed from the clock, Python's
  `int()` on the granularity suffix, and `get_account_info`.
- `BrokerConnection`: the second `get_history`, which uses fixed windows
  and classifies broker errors.
- `Orders`: `OrderManager`, covering quotes, the three order creators and
  their warnings, simulated fills, side labels, portfolio totals, and
  risk-based position sizing.
- `TradeLog` and `Performance`: the trade records and `analyze_performance`.
- `Trader`: `PracticalEURUSDTrader`. The state is a value `TraderState`
  with pure transitions `Open`, `Close` and `StepState`, and a session
  invariant `Consistent`. The class `Trader.PracticalTrader` updates its
  fields in place, and its methods are proved to follow those transitions.
- `Streamer`: `RealTimeDataStreamer`, built the same way. The value is
  `StreamState` with `ProcessTickState`, and the class is
  `Streamer.RealTimeDataStreamer`.

Both `PracticalEURUSDTrader` and `RealTimeDataStreamer` exist in two
identical copies, under `src/oanda_trading/` and
`brokers/oanda/src/trading/`. `OandaConfig` also has two identical copies,
`config.py` and `src/utils/config.py`. `get_account_info` is identical in
both connection files. Each is modelled once, and the table cites one copy
or the other.

Prices are exact `real` numbers. Timestamps are naive local timestamps, as
`datetime.now()` returns them, counted in seconds from 1970-01-01 00:00 (a
Thursday); no time zone is involved.

## Model

| member | source | states |
|---|---|---|
| Bounded.Append | src/oanda_trading/practical_eur_usd_trading_scenario.py:256 | appending to the 20-price `deque(maxlen=...)` created at line 54 keeps at most `maxlen` items, in order: the newest last and the oldest dropped first |
| Bounded.AppendDropsOnlyOldest | src/oanda_trading/streaming_highfrequency_realtime_data.py:44 | below capacity nothing is dropped; at capacity exactly the oldest item goes |
| Config.Load | config.py:7-17 | the environment defaults to "practice" only when unset; "practice" selects both fxpractice URLs, any other value both fxtrade URLs |
| Config.Validate | src/utils/config.py:19-24 | succeeds iff key and account id are both non-empty; a missing key is reported before a missing account id |
| Config.GetHeaders | config.py:26-30 | bearer authorisation with the key, "Bearer None" when it is unset; JSON content type |
| Config.UrlsAgree | src/utils/config.py:12-17 | the API and stream URLs always name the same environment, the practice one iff the variable is unset or "practice" |
| Config.EmptyEnvironmentIsLive | config.py:10-17 | an empty environment variable selects the live URLs, not the default |
| Config.ValidationIgnoresEnvironment | src/utils/config.py:19-24 | validation depends on the credentials only |
| Connection.Weekday | src/oanda_trading/oanda_connection.py:77 | the weekday lies in 0..6 |
| Connection.WeekdayBack | src/oanda_trading/oanda_connection.py:77-79 | stepping back k whole days steps the weekday back k (mod 7) |
| Connection.HistoryEnd | src/oanda_trading/oanda_connection.py:76-79 | weekdays are kept; Saturday moves back exactly one day and Sunday exactly two, in both cases to a Friday |
| Connection.ParseInt | src/oanda_trading/oanda_connection.py:86-93 | `int()` accepts an optional sign and at least one ASCII digit, otherwise raises; without a minus the value is ≥ 0, with one it is ≤ 0 |
| Connection.Decimal | src/oanda_trading/oanda_connection.py:89 | `str(n)` of a natural number: a non-empty run of ASCII digits with no sign |
| Connection.DecimalRoundTrip | src/oanda_trading/oanda_connection.py:89 | the decimal spelling of n consists of digits whose value is n |
| Connection.ParseDecimal | src/oanda_trading/oanda_connection.py:89 | `int(str(n)) == n` |
| Connection.HistoryWindow | src/oanda_trading/oanda_connection.py:63-104 | the window always ends at the adjusted end; it fails exactly for M/S granularities whose suffix `int()` rejects |
| Connection.DailyWindow | src/oanda_trading/oanda_connection.py:83-84 | "D" and every unmatched granularity span `count * 2` days |
| Connection.HourlyWindow | src/oanda_trading/oanda_connection.py:85-87 | hourly spans `count * hours * 2` hours, with hours 12 for H12 and 1 for H1..H8 |
| Connection.MinuteWindow | src/oanda_trading/oanda_connection.py:88-90 | "M<n>" spans `count * n` minutes |
| Connection.SecondWindow | src/oanda_trading/oanda_connection.py:91-93 | "S<n>" spans `count * n` seconds |
| Connection.PlainMonthFails | src/oanda_trading/oanda_connection.py:88-89 | monthly "M" falls into the minute branch and `int('')` raises |
| Connection.StartNotAfterEnd | src/oanda_trading/oanda_connection.py:83-96 | with a non-negative count and no minus sign, start ≤ end |
| Connection.GetAccountInfo | brokers/oanda/src/trading/oanda_connection.py:45-61 | "balance" and "account_id" read their keys (KeyError when absent); "account_type" returns the summary's value when present and the environment otherwise; any other request returns exactly the whole summary |
| BrokerConnection.FixedWindow | brokers/oanda/src/trading/oanda_connection.py:79-106 | every window is non-empty (start before end) and ends on 2025-10-18, at midnight or at 18:00 |
| BrokerConnection.BranchStarts | brokers/oanda/src/trading/oanda_connection.py:87-106 | the start of each non-daily branch: hourly 10-14, "W" 08-01, "M" 2024-01-01, other "M…" 10-17, everything else 10-01 |
| BrokerConnection.CountOnlyMattersForDaily | brokers/oanda/src/trading/oanda_connection.py:79-86 | only "D" depends on the count: up to 20 candles start 10-01, more start 08-01 |
| BrokerConnection.MonthlyBeforeMinutes | brokers/oanda/src/trading/oanda_connection.py:95-102 | "M" gets the multi-year window before the minute branch, and every other "M…" shares the minute window |
| BrokerConnection.Lower | brokers/oanda/src/trading/oanda_connection.py:119 | `lower()` keeps the length, lowers each character on its own, and leaves no capital letter |
| BrokerConnection.Contains | brokers/oanda/src/trading/oanda_connection.py:119 | `sub in s` holds iff `sub` occurs at some position of `s` |
| BrokerConnection.HistoryError.Message | brokers/oanda/src/trading/oanda_connection.py:120-130 | each re-raised message is a fixed explanation that ends with the original error text |
| BrokerConnection.ClassifyError | brokers/oanda/src/trading/oanda_connection.py:116-130 | access-denied iff "401" or any-case "authorization"; invalid-request iff not that and "400"; otherwise a generic failure keeping the message |
| BrokerConnection.Status401Wins | brokers/oanda/src/trading/oanda_connection.py:119 | "401" anywhere makes the error access-denied |
| BrokerConnection.AuthorizationWins | brokers/oanda/src/trading/oanda_connection.py:119 | "authorization" in any ASCII letter case anywhere makes the error access-denied |
| BrokerConnection.LowerAppend | brokers/oanda/src/trading/oanda_connection.py:119 | `lower()` distributes over concatenation |
| BrokerConnection.GetHistory | brokers/oanda/src/trading/oanda_connection.py:63-130 | broker data is returned unchanged, and every broker failure comes back classified |
| Orders.GetCurrentPrice | src/order_management_examples.py:39-56 | a quote exists iff a candle came back; mid is the last close, bid = close − 0.0001 and ask = close + 0.0001 |
| Orders.NormalizeUnits | src/order_management_examples.py:82-83 | a sell becomes `-abs(units)` (positive units negated, non-positive kept); any other side keeps its units |
| Orders.NormalizeUnitsFacts | src/order_management_examples.py:135-136 | the sign rule is idempotent and leaves non-positive units alone |
| Orders.CreateMarketOrder | src/order_management_examples.py:58-94 | error iff no quote; otherwise fills at the ask for positive units and the bid otherwise, within the slippage bound, with commission `abs(units) * 0.000025` ≥ 0 |
| Orders.MarketSideFollowsDirection | src/order_management_examples.py:196-201 | a buy fills on the ask and a sell of positive units on the bid with negated units |
| Orders.CreateLimitOrder | src/order_management_examples.py:96-146 | a pending LIMIT order echoing its price, stop-loss and take-profit, with sell units negated |
| Orders.CreateStopOrder | src/order_management_examples.py:148-190 | a pending STOP order echoing its price, with sell units negated |
| Orders.LimitWarning | src/order_management_examples.py:125-132 | warns iff a quote exists and a buy limit is at or above the mid, or a sell limit at or below it |
| Orders.StopWarning | src/order_management_examples.py:169-176 | warns iff a quote exists and a buy stop is at or below the mid, or a sell stop at or above it |
| Orders.WarningsComplement | src/order_management_examples.py:125-176 | with a quote and a real side, every price draws at least one warning, and both only at the mid |
| Orders.PositionSide | src/order_management_examples.py:277 | "LONG" iff units > 0, else "SHORT" |
| Orders.OrderSide | src/order_management_examples.py:321 | "BUY" iff units > 0, else "SELL" |
| Orders.TotalMargin | src/order_management_examples.py:482 | the margin total is 0 when no position reports a margin, and never negative when no reported margin is |
| Orders.TotalUnrealizedPnl | src/order_management_examples.py:483 | the P&L total is 0 when no position reports one, and keeps the sign of the reported values when they all agree |
| Orders.TotalsSplit | src/order_management_examples.py:482-483 | the margin and P&L totals add up over any split of the position list |
| Orders.TotalsOfOne | src/order_management_examples.py:482-483 | one position contributes exactly its reported margin and P&L, 0 when unreported; with TotalsSplit the totals are the sums |
| Orders.SamplePortfolio | src/order_management_examples.py:249-290 | the sample positions are one long and one short, with 600.2 of margin and 12.0 unrealised P&L |
| Orders.Trunc | src/order_management_examples.py:515 | `int()` of a float truncates toward zero |
| Orders.PositionSize | src/order_management_examples.py:509-515 | fails iff the stop distance times the pip value is zero; for a stop below the entry, the size is ≥ 0, its reported risk never exceeds the budget, and it falls short by less than one unit's risk |
| Orders.TruncatedSizeWithinBudget | src/order_management_examples.py:514-515 | the truncated size is the largest whole size whose risk fits the budget |
| Orders.DemonstrationSize | src/order_management_examples.py:501-522 | the demonstration's numbers give 66666 units and a risk of at most 200 |
| TradeLog.SumAppend | src/oanda_trading/practical_eur_usd_trading_scenario.py:325 | the P&L sum distributes over concatenation |
| TradeLog.SumSign | src/oanda_trading/practical_eur_usd_trading_scenario.py:325 | `sum` of non-negative values is non-negative, of non-positive values non-positive |
| TradeLog.CompletedPnls | src/oanda_trading/practical_eur_usd_trading_scenario.py:318 | a value is listed iff some trade carries it as its P&L; never more values than trades |
| TradeLog.CompletedPnlsSingle | src/oanda_trading/practical_eur_usd_trading_scenario.py:318 | one trade contributes exactly its P&L when closed and nothing while open |
| TradeLog.CompletedPnlsSplit | src/oanda_trading/practical_eur_usd_trading_scenario.py:318 | the filter distributes over concatenation of logs, so it keeps trade order and multiplicity |
| TradeLog.AllCompleted | src/oanda_trading/practical_eur_usd_trading_scenario.py:318-322 | every trade contributes a value iff every trade has a P&L |
| Performance.Winning | src/oanda_trading/practical_eur_usd_trading_scenario.py:326 | exactly the positive values: a value is listed iff it is a positive completed P&L |
| Performance.Losing | src/oanda_trading/practical_eur_usd_trading_scenario.py:327 | exactly the negative values: a value is listed iff it is a negative completed P&L; none iff no value is negative |
| Performance.WinningSplit | src/oanda_trading/practical_eur_usd_trading_scenario.py:326 | the win filter distributes over concatenation, so each trade is judged on its own |
| Performance.LosingSplit | src/oanda_trading/practical_eur_usd_trading_scenario.py:327 | the loss filter distributes over concatenation |
| Performance.WinsAndLossesDisjoint | src/oanda_trading/practical_eur_usd_trading_scenario.py:326-327 | wins and losses together never exceed the completed trades |
| Performance.Max | src/oanda_trading/practical_eur_usd_trading_scenario.py:335 | an element that no element exceeds |
| Performance.Min | src/oanda_trading/practical_eur_usd_trading_scenario.py:336 | an element that no element undercuts |
| Performance.SumOfPositives | src/oanda_trading/practical_eur_usd_trading_scenario.py:339 | gross profit is non-negative, and positive once there is a win |
| Performance.SumOfNegatives | src/oanda_trading/practical_eur_usd_trading_scenario.py:340 | gross loss is non-positive, and negative once there is a loss |
| Performance.LargestWin | src/oanda_trading/practical_eur_usd_trading_scenario.py:335 | `max(wins, default=0)`: no completed P&L exceeds it; 0 iff nothing won, otherwise a positive value among the wins |
| Performance.LargestLoss | src/oanda_trading/practical_eur_usd_trading_scenario.py:336 | `min(losses, default=0)`: no completed P&L undercuts it; 0 iff nothing lost, otherwise a negative value among the losses |
| Performance.WinRate | src/oanda_trading/practical_eur_usd_trading_scenario.py:338 | between 0 and 100, and rate × completed trades = 100 × winning trades |
| Performance.Percentage | src/oanda_trading/practical_eur_usd_trading_scenario.py:338 | a part of a positive whole is between 0 and 100 percent of it, times the whole gives 100 × the part, and the whole is 100 |
| Performance.Ratio | src/oanda_trading/practical_eur_usd_trading_scenario.py:337 | the quotient times the divisor gives the dividend; non-negative over a positive divisor |
| Performance.PercentOf | src/oanda_trading/practical_eur_usd_trading_scenario.py:342 | the percentage times the base gives 100 × the part |
| Performance.ProfitFactor | src/oanda_trading/practical_eur_usd_trading_scenario.py:339-340 | infinite iff nothing lost; otherwise non-negative, and factor × gross loss = gross profit |
| Performance.Analyze | src/oanda_trading/practical_eur_usd_trading_scenario.py:305-343 | no report without trades or without completed trades, a ZeroDivisionError for a zero initial balance; a report counts all trades, the completed ones, the wins and the losses; its extremes, rate and factor are those of the completed P&L; average × completed = total; ROI × initial balance = 100 × total |
| Performance.AllWinners | src/oanda_trading/practical_eur_usd_trading_scenario.py:326-340 | a log whose trades all closed at a profit reports a 100% win rate and an infinite profit factor |
| Trader.Mids | src/oanda_trading/practical_eur_usd_trading_scenario.py:129 | the mid prices of the buffer, in order |
| Trader.MovingAverage | src/oanda_trading/practical_eur_usd_trading_scenario.py:122-130 | undefined below two prices, otherwise the mean: average times count equals the sum of mids |
| Trader.SumBetween | src/oanda_trading/practical_eur_usd_trading_scenario.py:130 | n values within [lo, hi] sum to within [n·lo, n·hi] |
| Trader.MeanWithinRange | brokers/oanda/src/trading/practical_eur_usd_trading_scenario.py:122-130 | the moving average lies between the smallest and the largest buffered mid |
| Trader.MeanBetween | src/oanda_trading/practical_eur_usd_trading_scenario.py:130 | a mean of values within bounds lies within them |
| Trader.Between | src/oanda_trading/practical_eur_usd_trading_scenario.py:130 | dividing bounds by a positive count |
| Trader.ShouldBuy | src/oanda_trading/practical_eur_usd_trading_scenario.py:132-140 | a buy signal iff an average exists, the price is strictly below it, and the trader is not long |
| Trader.ShouldSell | src/oanda_trading/practical_eur_usd_trading_scenario.py:142-150 | a sell signal iff an average exists, the price is strictly above it, and the trader is not short |
| Trader.SignalsExclusive | src/oanda_trading/practical_eur_usd_trading_scenario.py:132-150 | never both a buy and a sell signal; none without an average or at the average; no buy while long and no sell while short |
| Trader.InitialConsistent | src/oanda_trading/practical_eur_usd_trading_scenario.py:35-61 | the fresh trader satisfies the session invariant |
| Trader.Open | src/oanda_trading/practical_eur_usd_trading_scenario.py:152-186 | the counter rises by one and one open record is appended, numbered by it, entered at the ask for a buy and the bid for a sell, with the current average |
| Trader.ClosePnl | src/oanda_trading/practical_eur_usd_trading_scenario.py:201-208 | a long closes at the bid, a short at the ask; for a positive size it is a profit iff that price moved the position's way and a loss iff it moved against it; 0 for size 0 |
| Trader.Close | brokers/oanda/src/trading/practical_eur_usd_trading_scenario.py:188-224 | a no-op without a position; otherwise only the last record is completed, the balance moves by the P&L and the position clears |
| Trader.SameQuoteRoundTrip | src/oanda_trading/practical_eur_usd_trading_scenario.py:160-213 | opening and closing on the same quote loses exactly the spread on every unit |
| Trader.OpenKeepsConsistent | src/oanda_trading/practical_eur_usd_trading_scenario.py:152-186 | opening from flat keeps the session invariant |
| Trader.CloseKeepsConsistent | src/oanda_trading/practical_eur_usd_trading_scenario.py:188-224 | closing keeps the session invariant (balance = initial + realised P&L) and leaves the trader flat |
| Trader.StepState | src/oanda_trading/practical_eur_usd_trading_scenario.py:250-285 | the price enters the bounded buffer, and at most one trade is opened per step |
| Trader.StepDecides | src/oanda_trading/practical_eur_usd_trading_scenario.py:256-285 | a buy signal ends long with one more, open, buy trade, first booking a closed short's P&L; a sell signal is the mirror; with no signal only the buffer changes |
| Trader.StepKeepsConsistent | brokers/oanda/src/trading/practical_eur_usd_trading_scenario.py:250-285 | one loop iteration keeps the session invariant |
| Trader.StepRecordsDecisionAverage | src/oanda_trading/practical_eur_usd_trading_scenario.py:259-285 | a new trade records the average the decision used, and that average is on the right side of the price |
| Trader.ReversalClosesThenOpens | src/oanda_trading/practical_eur_usd_trading_scenario.py:266-273 | a buy signal while short first closes the short at the ask, then appends one open buy |
| Trader.Session | src/oanda_trading/practical_eur_usd_trading_scenario.py:248-288 | one step per price: each price opens at most one trade and the buffer ends with the latest price; no price changes nothing |
| Trader.SessionKeepsConsistent | src/oanda_trading/practical_eur_usd_trading_scenario.py:248-288 | the whole session loop keeps the invariant |
| Trader.FinalClose | src/oanda_trading/practical_eur_usd_trading_scenario.py:293-297 | a flat trader is unchanged; an open position is closed at the final price, booking its P&L; the trade count and the buffer stay |
| Trader.FinalCloseSettlesEverything | src/oanda_trading/practical_eur_usd_trading_scenario.py:293-299 | after the final close nothing is open, every trade has its P&L, and the invariant holds |
| Trader.ReportMatchesBalance | src/oanda_trading/practical_eur_usd_trading_scenario.py:325-341 | under the invariant, the report's total P&L equals what the balance gained |
| Trader.PracticalTrader.constructor | src/oanda_trading/practical_eur_usd_trading_scenario.py:35-75 | a flat trader with the initial balance, no history and no trades, satisfying the invariant |
| Trader.PracticalTrader.ExecuteTrade | src/oanda_trading/practical_eur_usd_trading_scenario.py:152-186 | the fields change exactly as `Open` says |
| Trader.PracticalTrader.ClosePosition | brokers/oanda/src/trading/practical_eur_usd_trading_scenario.py:188-224 | the fields change exactly as `Close` says |
| Trader.PracticalTrader.Step | src/oanda_trading/practical_eur_usd_trading_scenario.py:250-285 | the fields change exactly as `StepState` says |
| Trader.PracticalTrader.RunTradingSession | src/oanda_trading/practical_eur_usd_trading_scenario.py:226-299 | the session then the final close; the invariant holds, the trader ends flat and not trading |
| Trader.PracticalTrader.AnalyzePerformance | src/oanda_trading/practical_eur_usd_trading_scenario.py:305-343 | returns the analysis, and replaces the metrics only when there is a report |
| Streamer.ReadPrice | src/oanda_trading/streaming_highfrequency_realtime_data.py:78-79 | a missing side reads as 0, a number as itself, anything else raises |
| Streamer.TickInstrument | src/oanda_trading/streaming_highfrequency_realtime_data.py:77 | the tick's instrument, or "UNKNOWN" when it has none |
| Streamer.MakeRecord | brokers/oanda/src/trading/streaming_highfrequency_realtime_data.py:82-95 | bid + spread = ask; the mid is halfway; the mid lies between bid and ask iff the spread is non-negative |
| Streamer.FirstSight | src/oanda_trading/streaming_highfrequency_realtime_data.py:140-147 | a first tick creates an entry at the price, with zero counters and an empty change buffer |
| Streamer.Observe | src/oanda_trading/streaming_highfrequency_realtime_data.py:149-168 | moves above 0.0005 are counted; a change is recorded only after a positive last price; raises iff the move is significant and the last price is not positive, leaving the last price and the change counter untouched |
| Streamer.ObserveKeepsCounters | brokers/oanda/src/trading/streaming_highfrequency_realtime_data.py:149-168 | with positive prices, significant moves never overtake price changes, and the change buffer keeps its bound |
| Streamer.SamePriceCountsNothing | src/oanda_trading/streaming_highfrequency_realtime_data.py:150-168 | an unchanged price counts nothing and records a 0% change |
| Streamer.Track | src/oanda_trading/streaming_highfrequency_realtime_data.py:135-168 | only the tick's instrument is touched; the instrument is tracked afterwards |
| Streamer.NextMin | src/oanda_trading/streaming_highfrequency_realtime_data.py:133 | the running minimum from +∞ |
| Streamer.NextMax | src/oanda_trading/streaming_highfrequency_realtime_data.py:132 | the running maximum |
| Streamer.SpreadExtremesOrdered | brokers/oanda/src/trading/streaming_highfrequency_realtime_data.py:54-55 | once a tick is seen, the minimum spread does not exceed the maximum |
| Streamer.InitialConsistent | src/oanda_trading/streaming_highfrequency_realtime_data.py:39-56 | the fresh streamer satisfies its invariant |
| Streamer.ProcessTickState | src/oanda_trading/streaming_highfrequency_realtime_data.py:68-113 | a rejected price changes nothing; otherwise the record, numbered by the completed ticks, is the newest buffered and counted, and the count advances iff the analysis did not raise |
| Streamer.ProcessTickKeepsConsistent | brokers/oanda/src/trading/streaming_highfrequency_realtime_data.py:68-133 | per tick: buffer ≤ 1000, total ticks ≥ completed ticks, buffered spreads within the extremes, tick numbers in order, instruments tracked, change buffers ≤ 100 |
| Streamer.BufferedSpreadsWithinExtremes | src/oanda_trading/streaming_highfrequency_realtime_data.py:98-133 | every buffered spread stays between the running extremes |
| Streamer.BufferedRecordsKeepOrder | src/oanda_trading/streaming_highfrequency_realtime_data.py:94-98 | the buffer stays in arrival order by tick number |
| Streamer.AppendedInOrder | src/oanda_trading/streaming_highfrequency_realtime_data.py:94-98 | a record numbered after every buffered one extends the buffer in order |
| Streamer.TrackKeepsEntries | src/oanda_trading/streaming_highfrequency_realtime_data.py:140-168 | tracked instruments stay tracked, and change buffers stay bounded |
| Streamer.RealTimeDataStreamer.constructor | src/oanda_trading/streaming_highfrequency_realtime_data.py:30-56 | an empty or missing list selects EUR_USD; the state starts empty, not streaming |
| Streamer.RealTimeDataStreamer.UpdateStatistics | src/oanda_trading/streaming_highfrequency_realtime_data.py:115-133 | one more tick counted; the spread is folded into both extremes |
| Streamer.RealTimeDataStreamer.AnalyzePriceMovement | src/oanda_trading/streaming_highfrequency_realtime_data.py:135-168 | the map changes exactly as `Track` says |
| Streamer.RealTimeDataStreamer.ProcessTick | src/oanda_trading/streaming_highfrequency_realtime_data.py:68-113 | the fields change exactly as `ProcessTickState` says, and the invariant holds |
| Streamer.RealTimeDataStreamer.GetStreamingStats | brokers/oanda/src/trading/streaming_highfrequency_realtime_data.py:190-204 | the buffer size is the number of buffered ticks, ≤ 1000 and ≤ total ticks; instruments tracked = number of map keys; the counters are reported as they are; min ≤ max |
| Streamer.RealTimeDataStreamer.StartStream | src/oanda_trading/streaming_highfrequency_realtime_data.py:206-244 | streaming is switched on, and the closing `stop_stream` finds it on and stops it |
| Streamer.RealTimeDataStreamer.StopStream | src/oanda_trading/streaming_highfrequency_realtime_data.py:246-251 | a no-op when not streaming; afterwards the stream is stopped, so a second call does nothing |

## Left out

- The broker SDK and the network are not modelled: `tpqoa` calls, the
  temporary config file, and `stream_data`. `start_stream` keeps only its
  streaming flag and its closing `stop_stream`. Broker answers (candles,
  account summaries, error messages) are parameters.
- `_signal_handler` (streaming_highfrequency_realtime_data.py:62-66)
  calls `stop_stream` and then `sys.exit(0)`; process exit is not
  modelled.
- `src/utils/diagnose_oanda.py` and both `examples.py` files are not part
  of this model. They only issue HTTP requests and print library
  statistics.
- The clock is a parameter: the current time for `get_history`, and the
  session deadline, which decides only how many prices the session sees.
  `time.sleep`, fill times, tick timestamps and `avg_ticks_per_second` are
  left out.
- Randomness is a parameter: order ids (in their range), slippage (within
  ±0.0001) and the trader's simulated fallback prices.
- Trader.PracticalTrader: the price source `get_current_price` (a candle
  close ± 0.00015, or a random price) is not modelled; each price arrives
  as a parameter.
- Streamer: `get_current_volatility` (a pandas standard deviation) and the
  `stats['price_changes']` counter are not modelled. The counter is
  initialised and never updated.
- Printing, JSON output (`save_results`), signal handlers, `sys.exit`,
  KeyboardInterrupt handling, and the `main`/`demonstrate_*` drivers are
  left out.
- Floating point: prices and money are exact reals, not IEEE doubles, so
  rounding is not modelled. The infinite `profit_factor` is `None`, and the
  initial +∞ `min_spread` is `None`.
- Connection.ParseInt: `int()` is modelled for an optional sign and ASCII
  digits only. Surrounding whitespace, underscores and non-ASCII digits are
  rejected here, although Python accepts them.
- BrokerConnection.ClassifyError: `lower()` is modelled on ASCII letters
  only.
- Connection.HistoryWindow: `timedelta` overflow on huge counts is not
  modelled.
