/**
 * `RealTimeDataStreamer`: turns raw ticks into records kept in a bounded
 * buffer of the 1000 most recent, maintains running counters and spread
 * extremes, and keeps per-instrument movement statistics.  The ticks
 * themselves arrive from the broker's stream, which is not modelled: every
 * tick is a parameter.
 */
module Streamer {
  import opened Wrappers
  import Bounded

  const TickBufferSize: nat := 1000
  const VolatilityBufferSize: nat := 100
  const SignificantMove: real := 0.0005
  const UnknownInstrument := "UNKNOWN"
  const DefaultInstruments := ["EUR_USD"]

  /**
   * One side of a tick as it reaches `float(...)`: absent (read as 0), a
   * number, or something `float` rejects with an exception.
   */
  datatype RawPrice = Missing | Quoted(value: real) | Malformed

  datatype TickData = TickData(instrument: Option<string>, bid: RawPrice, ask: RawPrice)

  /** `float(tick_data.get(side, {}).get('o', 0))`; `None` is the exception. */
  function ReadPrice(p: RawPrice): (r: Option<real>)
    ensures r.None? <==> p.Malformed?
    ensures p.Missing? ==> r == Some(0.0)
    ensures p.Quoted? ==> r == Some(p.value)
  {
    match p
    case Missing => Some(0.0)
    case Quoted(v) => Some(v)
    case Malformed => None
  }

  datatype TickRecord = TickRecord(
    instrument: string,
    bid: real,
    ask: real,
    spread: real,
    midPrice: real,
    tickNumber: nat)

  /**
   * The record built from one tick: the spread is what separates bid from
   * ask, the mid lies halfway between them, and the number is the count of
   * ticks completed so far.
   */
  function MakeRecord(instrument: string, bid: real, ask: real, tickNumber: nat): (r: TickRecord)
    ensures r.instrument == instrument && r.bid == bid && r.ask == ask && r.tickNumber == tickNumber
    ensures r.bid + r.spread == r.ask
    ensures r.midPrice - r.bid == r.ask - r.midPrice == r.spread / 2.0
    ensures r.spread >= 0.0 <==> r.bid <= r.midPrice <= r.ask
  {
    TickRecord(instrument, bid, ask, ask - bid, (bid + ask) / 2.0, tickNumber)
  }

  /** `price_history[instrument]`. */
  datatype InstrumentStats = InstrumentStats(
    lastPrice: real,
    priceChanges: nat,
    significantMoves: nat,
    volatilityBuffer: seq<real>)

  function Abs(x: real): real {
    if x < 0.0 then -x else x
  }

  /** The first tick of an instrument only creates its entry. */
  function FirstSight(price: real): (e: InstrumentStats)
    ensures e.lastPrice == price && e.priceChanges == 0 && e.significantMoves == 0 && e.volatilityBuffer == []
  {
    InstrumentStats(price, 0, 0, [])
  }

  /**
   * The outcome of analysing one later tick.  `raised` is the exception the
   * significant-move message raises when no percentage change was computed
   * (a non-positive last price): the move has been counted by then, but the
   * last price and the change counter are not updated.
   */
  datatype Observation = Observation(entry: InstrumentStats, raised: bool)

  function Observe(e: InstrumentStats, price: real): (r: Observation)
    ensures r.raised <==> e.lastPrice <= 0.0 && Abs(price - e.lastPrice) > SignificantMove
    ensures r.entry.significantMoves == e.significantMoves + if Abs(price - e.lastPrice) > SignificantMove then 1 else 0
    ensures r.entry.volatilityBuffer ==
      if e.lastPrice > 0.0 then Bounded.Append(e.volatilityBuffer, (price - e.lastPrice) / e.lastPrice * 100.0, VolatilityBufferSize)
      else e.volatilityBuffer
    ensures !r.raised ==> r.entry.lastPrice == price
    ensures !r.raised ==> r.entry.priceChanges == e.priceChanges + if price != e.lastPrice then 1 else 0
    ensures r.raised ==> r.entry.lastPrice == e.lastPrice && r.entry.priceChanges == e.priceChanges
  {
    var change := Abs(price - e.lastPrice);
    var buffer :=
      if e.lastPrice > 0.0 then Bounded.Append(e.volatilityBuffer, (price - e.lastPrice) / e.lastPrice * 100.0, VolatilityBufferSize)
      else e.volatilityBuffer;
    var significant := if change > SignificantMove then e.significantMoves + 1 else e.significantMoves;
    var counted := e.(volatilityBuffer := buffer, significantMoves := significant);
    if change > SignificantMove && e.lastPrice <= 0.0 then
      Observation(counted, true)
    else
      Observation(counted.(lastPrice := price, priceChanges := if change > 0.0 then e.priceChanges + 1 else e.priceChanges), false)
  }

  /** The per-instrument invariant: the change buffer keeps its bound. */
  predicate EntryValid(e: InstrumentStats) {
    |e.volatilityBuffer| <= VolatilityBufferSize
  }

  /**
   * With positive prices every significant move is also a change, so the
   * significant-move counter never overtakes the change counter, and the
   * change buffer keeps its bound.
   */
  lemma ObserveKeepsCounters(e: InstrumentStats, price: real)
    requires EntryValid(e) && e.significantMoves <= e.priceChanges
    requires e.lastPrice > 0.0
    ensures var r := Observe(e, price);
      !r.raised && EntryValid(r.entry) && r.entry.significantMoves <= r.entry.priceChanges
      && (r.entry.lastPrice > 0.0 <==> price > 0.0)
  {
  }

  /** A price equal to the last one changes no counter; only the change buffer records a 0% move. */
  lemma SamePriceCountsNothing(e: InstrumentStats)
    requires e.lastPrice > 0.0
    ensures var r := Observe(e, e.lastPrice).entry;
      r.priceChanges == e.priceChanges && r.significantMoves == e.significantMoves && r.lastPrice == e.lastPrice
      && r.volatilityBuffer == Bounded.Append(e.volatilityBuffer, 0.0, VolatilityBufferSize)
  {
    assert (e.lastPrice - e.lastPrice) / e.lastPrice * 100.0 == 0.0;
  }

  /** `_analyze_price_movement` on the whole map: only the tick's instrument is touched. */
  function Track(history: map<string, InstrumentStats>, instrument: string, price: real): (r: (map<string, InstrumentStats>, bool))
    ensures r.0.Keys == history.Keys + {instrument}
    ensures forall k :: k in history && k != instrument ==> r.0[k] == history[k]
    ensures instrument !in history ==> r.0[instrument] == FirstSight(price) && !r.1
    ensures instrument in history ==> Observation(r.0[instrument], r.1) == Observe(history[instrument], price)
  {
    if instrument !in history then (history[instrument := FirstSight(price)], false)
    else
      var o := Observe(history[instrument], price);
      (history[instrument := o.entry], o.raised)
  }

  /** `min(min_spread, spread)` with `None` standing for the initial +infinity. */
  function NextMin(minSpread: Option<real>, spread: real): (m: real)
    ensures m <= spread && (minSpread.Some? ==> m <= minSpread.value)
    ensures m == spread || (minSpread.Some? && m == minSpread.value)
  {
    if minSpread.Some? && minSpread.value <= spread then minSpread.value else spread
  }

  function NextMax(maxSpread: real, spread: real): (m: real)
    ensures m >= spread && m >= maxSpread && (m == spread || m == maxSpread)
  {
    if maxSpread >= spread then maxSpread else spread
  }

  /** Once a tick has been seen the running minimum spread does not exceed the running maximum. */
  lemma SpreadExtremesOrdered(maxSpread: real, minSpread: Option<real>, spread: real)
    requires minSpread.Some? ==> minSpread.value <= maxSpread
    ensures NextMin(minSpread, spread) <= NextMax(maxSpread, spread)
  {
  }

  /** `get_streaming_stats` without the clock-dependent and formatted fields. */
  datatype StreamingStats = StreamingStats(
    totalTicks: nat,
    maxSpread: real,
    minSpread: Option<real>,
    bufferSize: nat,
    instrumentsTracked: nat)

  /** The streamer's fields that change while ticks are processed. */
  datatype StreamState = StreamState(
    tickCount: nat,
    tickBuffer: seq<TickRecord>,
    priceHistory: map<string, InstrumentStats>,
    totalTicks: nat,
    maxSpread: real,
    minSpread: Option<real>)

  /**
   * The streamer's invariant: the buffer keeps its bound; every buffered
   * record was counted by the statistics, lies within the spread extremes,
   * has its instrument tracked and a number no later than the
   * completed-tick count, in arrival order; every change buffer keeps its
   * bound.
   */
  predicate Consistent(s: StreamState) {
    && |s.tickBuffer| <= TickBufferSize
    && s.tickCount <= s.totalTicks
    && |s.tickBuffer| <= s.totalTicks
    && (s.totalTicks > 0 <==> s.minSpread.Some?)
    && s.maxSpread >= 0.0
    && (s.minSpread.Some? ==> s.minSpread.value <= s.maxSpread)
    && (forall i :: 0 <= i < |s.tickBuffer| ==>
          && s.tickBuffer[i].tickNumber <= s.tickCount
          && s.tickBuffer[i].instrument in s.priceHistory
          && s.minSpread.Some? && s.minSpread.value <= s.tickBuffer[i].spread <= s.maxSpread)
    && (forall i, j :: 0 <= i < j < |s.tickBuffer| ==> s.tickBuffer[i].tickNumber <= s.tickBuffer[j].tickNumber)
    && (forall k :: k in s.priceHistory ==> EntryValid(s.priceHistory[k]))
  }

  const Initial := StreamState(0, [], map[], 0, 0.0, None)

  lemma InitialConsistent()
    ensures Consistent(Initial)
  {
  }

  /** `tick_data.get('instrument', 'UNKNOWN')`. */
  function TickInstrument(tick: TickData): (name: string)
    ensures tick.instrument.Some? ==> name == tick.instrument.value
    ensures tick.instrument.None? ==> name == UnknownInstrument
  {
    if tick.instrument.Some? then tick.instrument.value else UnknownInstrument
  }

  /**
   * `_process_tick`.  A price `float` rejects changes nothing; otherwise
   * the record, numbered by the completed-tick count, becomes the newest in
   * the buffer, the statistics count it, the movement is analysed, and the
   * completed-tick count advances exactly when the analysis did not raise.
   */
  function ProcessTickState(s: StreamState, tick: TickData): (r: (StreamState, bool))
    ensures ReadPrice(tick.bid).None? || ReadPrice(tick.ask).None? ==> r == (s, false)
    ensures ReadPrice(tick.bid).Some? && ReadPrice(tick.ask).Some? ==>
      var record := MakeRecord(TickInstrument(tick), ReadPrice(tick.bid).value, ReadPrice(tick.ask).value, s.tickCount);
      var tracked := Track(s.priceHistory, record.instrument, record.midPrice);
      && r.0.tickBuffer == Bounded.Append(s.tickBuffer, record, TickBufferSize)
      && r.0.totalTicks == s.totalTicks + 1
      && r.0.maxSpread == NextMax(s.maxSpread, record.spread)
      && r.0.minSpread == Some(NextMin(s.minSpread, record.spread))
      && r.0.priceHistory == tracked.0
      && r.1 == !tracked.1
      && r.0.tickCount == if r.1 then s.tickCount + 1 else s.tickCount
  {
    var bid := ReadPrice(tick.bid);
    var ask := ReadPrice(tick.ask);
    if bid.None? || ask.None? then (s, false)
    else
      var record := MakeRecord(TickInstrument(tick), bid.value, ask.value, s.tickCount);
      var tracked := Track(s.priceHistory, record.instrument, record.midPrice);
      (StreamState(
         if tracked.1 then s.tickCount else s.tickCount + 1,
         Bounded.Append(s.tickBuffer, record, TickBufferSize),
         tracked.0,
         s.totalTicks + 1,
         NextMax(s.maxSpread, record.spread),
         Some(NextMin(s.minSpread, record.spread))),
       !tracked.1)
  }

  lemma ProcessTickKeepsConsistent(s: StreamState, tick: TickData)
    requires Consistent(s)
    ensures Consistent(ProcessTickState(s, tick).0)
  {
    var bid := ReadPrice(tick.bid);
    var ask := ReadPrice(tick.ask);
    if bid.Some? && ask.Some? {
      var record := MakeRecord(TickInstrument(tick), bid.value, ask.value, s.tickCount);
      var r := ProcessTickState(s, tick).0;
      BufferedRecordsKeepOrder(s.tickBuffer, record, s.tickCount);
      TrackKeepsEntries(s.priceHistory, record.instrument, record.midPrice);
      SpreadExtremesOrdered(s.maxSpread, s.minSpread, record.spread);
      BufferedSpreadsWithinExtremes(s, record);
      assert r.tickCount >= s.tickCount;
    }
  }

  /** Every buffered spread stays between the running extremes after a new record is counted. */
  lemma BufferedSpreadsWithinExtremes(s: StreamState, record: TickRecord)
    requires Consistent(s)
    ensures var buffer := Bounded.Append(s.tickBuffer, record, TickBufferSize);
      var lo, hi := NextMin(s.minSpread, record.spread), NextMax(s.maxSpread, record.spread);
      forall i :: 0 <= i < |buffer| ==> lo <= buffer[i].spread <= hi
  {
    var buffer := Bounded.Append(s.tickBuffer, record, TickBufferSize);
    forall i | 0 <= i < |buffer|
      ensures NextMin(s.minSpread, record.spread) <= buffer[i].spread <= NextMax(s.maxSpread, record.spread)
    {
      var t := s.tickBuffer + [record];
      var k := |t| - |buffer| + i;
      assert buffer[i] == t[k];
      if k < |s.tickBuffer| {
        assert t[k] == s.tickBuffer[k];
        assert s.minSpread.value <= s.tickBuffer[k].spread <= s.maxSpread;
      } else {
        assert t[k] == record;
      }
    }
  }

  class RealTimeDataStreamer {
    const instruments: seq<string>
    var isStreaming: bool
    var tickCount: nat
    var tickBuffer: seq<TickRecord>
    var priceHistory: map<string, InstrumentStats>
    var totalTicks: nat
    var maxSpread: real
    var minSpread: Option<real>

    function State(): StreamState
      reads this
    {
      StreamState(tickCount, tickBuffer, priceHistory, totalTicks, maxSpread, minSpread)
    }

    ghost predicate Valid()
      reads this
    {
      Consistent(State())
    }

    /** `instruments or ['EUR_USD']`: an empty list (or none) selects the default. */
    constructor (instruments: seq<string>)
      ensures this.instruments == if instruments == [] then DefaultInstruments else instruments
      ensures !isStreaming && State() == Initial
      ensures Valid()
    {
      this.instruments := if instruments == [] then DefaultInstruments else instruments;
      isStreaming := false;
      tickCount := 0;
      tickBuffer := [];
      priceHistory := map[];
      totalTicks := 0;
      maxSpread := 0.0;
      minSpread := None;
    }

    /** `_update_statistics`: one more tick counted, the spread folded into the extremes. */
    method UpdateStatistics(record: TickRecord)
      modifies this`totalTicks, this`maxSpread, this`minSpread
      ensures totalTicks == old(totalTicks) + 1
      ensures maxSpread == NextMax(old(maxSpread), record.spread)
      ensures minSpread == Some(NextMin(old(minSpread), record.spread))
    {
      totalTicks := totalTicks + 1;
      maxSpread := NextMax(maxSpread, record.spread);
      minSpread := Some(NextMin(minSpread, record.spread));
    }

    /** `_analyze_price_movement`; the result tells whether it raised. */
    method AnalyzePriceMovement(record: TickRecord) returns (raised: bool)
      modifies this`priceHistory
      ensures (priceHistory, raised) == Track(old(priceHistory), record.instrument, record.midPrice)
    {
      var instrument := record.instrument;
      var currentPrice := record.midPrice;
      if instrument !in priceHistory {
        priceHistory := priceHistory[instrument := FirstSight(currentPrice)];
        return false;
      }
      var o := Observe(priceHistory[instrument], currentPrice);
      priceHistory := priceHistory[instrument := o.entry];
      raised := o.raised;
    }

    /** `_process_tick`, step by step as the source performs it. */
    method ProcessTick(tick: TickData) returns (completed: bool)
      requires Valid()
      modifies this
      ensures (State(), completed) == ProcessTickState(old(State()), tick)
      ensures Valid() && isStreaming == old(isStreaming)
    {
      ghost var before := State();
      ProcessTickKeepsConsistent(before, tick);
      var instrument := TickInstrument(tick);
      var bid := ReadPrice(tick.bid);
      if bid.None? {
        return false;
      }
      var ask := ReadPrice(tick.ask);
      if ask.None? {
        return false;
      }
      var record := MakeRecord(instrument, bid.value, ask.value, tickCount);
      tickBuffer := Bounded.Append(tickBuffer, record, TickBufferSize);
      UpdateStatistics(record);
      var raised := AnalyzePriceMovement(record);
      if raised {
        completed := false;
      } else {
        tickCount := tickCount + 1;
        completed := true;
      }
      ghost var expected := ProcessTickState(before, tick);
      assert State() == expected.0 && completed == expected.1;
      assert Consistent(expected.0);
    }

    /** `get_streaming_stats`: a read-only view of the counters and sizes. */
    method GetStreamingStats() returns (stats: StreamingStats)
      requires Valid()
      ensures stats.bufferSize == |tickBuffer|
      ensures stats.bufferSize <= TickBufferSize
      ensures stats.bufferSize <= stats.totalTicks
      ensures stats.instrumentsTracked == |priceHistory.Keys|
      ensures stats.totalTicks == totalTicks && stats.maxSpread == maxSpread && stats.minSpread == minSpread
      ensures stats.minSpread.Some? ==> stats.minSpread.value <= stats.maxSpread
    {
      stats := StreamingStats(totalTicks, maxSpread, minSpread, |tickBuffer|, |priceHistory.Keys|);
    }

    /**
     * `start_stream`: streaming is switched on, the broker stream runs, and
     * the `finally` block always ends in `stop_stream`, which now finds the
     * stream running and stops it.
     */
    method StartStream() returns (stopped: bool)
      modifies this`isStreaming
      ensures stopped && !isStreaming
    {
      isStreaming := true;
      stopped := StopStream();
    }

    /** `stop_stream`: a no-op unless streaming; afterwards the stream is stopped. */
    method StopStream() returns (stopped: bool)
      modifies this`isStreaming
      ensures stopped == old(isStreaming)
      ensures !isStreaming
    {
      if !isStreaming {
        return false;
      }
      isStreaming := false;
      stopped := true;
    }
  }

  /** Appending a record numbered after every buffered one keeps the buffer in arrival order. */
  lemma BufferedRecordsKeepOrder(buffer: seq<TickRecord>, record: TickRecord, tickCount: nat)
    requires forall i :: 0 <= i < |buffer| ==> buffer[i].tickNumber <= tickCount
    requires forall i, j :: 0 <= i < j < |buffer| ==> buffer[i].tickNumber <= buffer[j].tickNumber
    requires record.tickNumber == tickCount
    ensures var r := Bounded.Append(buffer, record, TickBufferSize);
      && (forall i :: 0 <= i < |r| ==> r[i].tickNumber <= tickCount)
      && (forall i, j :: 0 <= i < j < |r| ==> r[i].tickNumber <= r[j].tickNumber)
      && (forall i :: 0 <= i < |r| ==> r[i] in buffer || r[i] == record)
  {
    var r := Bounded.Append(buffer, record, TickBufferSize);
    var t := buffer + [record];
    AppendedInOrder(buffer, record, tickCount);
    forall i | 0 <= i < |r| ensures r[i] == t[|t| - |r| + i] {
    }
  }

  /** The buffer with the new record at its end, before the oldest is dropped, is in order too. */
  lemma AppendedInOrder(buffer: seq<TickRecord>, record: TickRecord, tickCount: nat)
    requires forall i :: 0 <= i < |buffer| ==> buffer[i].tickNumber <= tickCount
    requires forall i, j :: 0 <= i < j < |buffer| ==> buffer[i].tickNumber <= buffer[j].tickNumber
    requires record.tickNumber == tickCount
    ensures var t := buffer + [record];
      && (forall i :: 0 <= i < |t| ==> t[i].tickNumber <= tickCount)
      && (forall i, j :: 0 <= i < j < |t| ==> t[i].tickNumber <= t[j].tickNumber)
      && (forall i :: 0 <= i < |t| ==> t[i] in buffer || t[i] == record)
  {
    var t := buffer + [record];
    forall i | 0 <= i < |t| ensures t[i].tickNumber <= tickCount && (t[i] in buffer || t[i] == record) {
      if i < |buffer| { assert t[i] == buffer[i]; }
    }
  }

  /** Analysing a tick keeps every tracked instrument tracked and every change buffer bounded. */
  lemma TrackKeepsEntries(history: map<string, InstrumentStats>, instrument: string, price: real)
    requires forall k :: k in history ==> EntryValid(history[k])
    ensures var r := Track(history, instrument, price).0;
      && instrument in r
      && (forall k :: k in history ==> k in r)
      && (forall k :: k in r ==> EntryValid(r[k]))
  {
  }
}
