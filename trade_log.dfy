/**
 * The trade records of `PracticalEURUSDTrader` and the sums over them.  A
 * record is opened with no profit/loss and gets one when its position is
 * closed.
 */
module TradeLog {
  import opened Wrappers

  /** `'buy'`; every other action string takes the sell branch. */
  datatype Action = Buy | Sell

  /** One price observation: bid, ask, mid and the time it was taken. */
  datatype PriceData = PriceData(bid: real, ask: real, mid: real, timestamp: int)

  datatype Trade = Trade(
    tradeId: int,
    action: Action,
    instrument: string,
    units: int,
    executionPrice: real,
    timestamp: int,
    movingAverage: Option<real>,
    profitLoss: Option<real>,
    closingPrice: Option<real>,
    closingReason: Option<string>)

  /** `sum(xs)`, folded from the right; its facts are the lemmas `SumAppend` and `SumSign`. */
  function Sum(xs: seq<real>): (r: real)
  {
    if xs == [] then 0.0 else Sum(xs[..|xs| - 1]) + xs[|xs| - 1]
  }

  /** A sum of non-negative values is non-negative, and of non-positive values non-positive. */
  lemma {:induction false} SumSign(xs: seq<real>)
    ensures (forall i :: 0 <= i < |xs| ==> xs[i] >= 0.0) ==> Sum(xs) >= 0.0
    ensures (forall i :: 0 <= i < |xs| ==> xs[i] <= 0.0) ==> Sum(xs) <= 0.0
  {
    if xs != [] {
      SumSign(xs[..|xs| - 1]);
      assert forall i :: 0 <= i < |xs| - 1 ==> xs[..|xs| - 1][i] == xs[i];
    }
  }

  lemma {:induction false} SumAppend(xs: seq<real>, ys: seq<real>)
    ensures Sum(xs + ys) == Sum(xs) + Sum(ys)
  {
    if ys == [] {
      assert xs + ys == xs;
    } else {
      SumAppend(xs, ys[..|ys| - 1]);
      assert (xs + ys)[..|xs + ys| - 1] == xs + ys[..|ys| - 1];
    }
  }

  /** The profit/loss values of the completed trades, in trade order. */
  function CompletedPnls(trades: seq<Trade>): (ps: seq<real>)
    ensures |ps| <= |trades|
    ensures forall x :: x in ps <==> exists i :: 0 <= i < |trades| && trades[i].profitLoss == Some(x)
  {
    if trades == [] then []
    else
      var init := trades[..|trades| - 1];
      var last := trades[|trades| - 1];
      var ps := CompletedPnls(init) + (if last.profitLoss.Some? then [last.profitLoss.value] else []);
      assert forall i :: 0 <= i < |init| ==> init[i] == trades[i];
      assert forall x :: (exists i :: 0 <= i < |trades| && trades[i].profitLoss == Some(x)) ==>
        (exists i :: 0 <= i < |init| && init[i].profitLoss == Some(x)) || last.profitLoss == Some(x);
      ps
  }

  /** One trade contributes its P&L when it has closed, and nothing while it is open. */
  lemma CompletedPnlsSingle(t: Trade)
    ensures CompletedPnls([t]) == if t.profitLoss.Some? then [t.profitLoss.value] else []
  {
    assert [t][..0] == [];
  }

  /** The filter keeps order and multiplicity: it distributes over concatenation of trade logs. */
  lemma {:induction false} CompletedPnlsSplit(a: seq<Trade>, b: seq<Trade>)
    ensures CompletedPnls(a + b) == CompletedPnls(a) + CompletedPnls(b)
  {
    if b == [] {
      assert a + b == a;
    } else {
      var init := b[..|b| - 1];
      var last := b[|b| - 1];
      CompletedPnlsSplit(a, init);
      assert (a + b)[..|a + b| - 1] == a + init;
      assert (a + b)[|a + b| - 1] == last;
    }
  }

  /** Every trade has closed exactly when every trade contributes a value. */
  lemma {:induction false} AllCompleted(trades: seq<Trade>)
    ensures |CompletedPnls(trades)| == |trades| <==> forall i :: 0 <= i < |trades| ==> trades[i].profitLoss.Some?
  {
    if trades != [] {
      var init := trades[..|trades| - 1];
      var last := trades[|trades| - 1];
      AllCompleted(init);
      assert |CompletedPnls(trades)| == |CompletedPnls(init)| + if last.profitLoss.Some? then 1 else 0;
      assert forall i :: 0 <= i < |init| ==> init[i] == trades[i];
      if !forall i :: 0 <= i < |trades| ==> trades[i].profitLoss.Some? {
        var k :| 0 <= k < |trades| && trades[k].profitLoss.None?;
        if k < |init| {
          assert init[k].profitLoss.None?;
        }
      }
    }
  }
}
