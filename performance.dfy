/**
 * `analyze_performance`: summary metrics folded over the trade list.  An
 * infinite profit factor (no losing trade) is `None`.
 */
module Performance {
  import opened Wrappers
  import opened TradeLog

  /** The winning trades' values: exactly the positive ones, in order. */
  function Winning(ps: seq<real>): (ws: seq<real>)
    ensures |ws| <= |ps|
    ensures forall i :: 0 <= i < |ws| ==> ws[i] > 0.0
    ensures forall x :: x in ws <==> x in ps && x > 0.0
  {
    if ps == [] then []
    else
      assert ps == ps[..|ps| - 1] + [ps[|ps| - 1]];
      Winning(ps[..|ps| - 1]) + (if ps[|ps| - 1] > 0.0 then [ps[|ps| - 1]] else [])
  }

  /** The losing trades' values: exactly the negative ones, in order. */
  function Losing(ps: seq<real>): (ls: seq<real>)
    ensures |ls| <= |ps|
    ensures forall i :: 0 <= i < |ls| ==> ls[i] < 0.0
    ensures forall x :: x in ls <==> x in ps && x < 0.0
    ensures ls == [] <==> forall i :: 0 <= i < |ps| ==> ps[i] >= 0.0
  {
    if ps == [] then []
    else
      assert ps == ps[..|ps| - 1] + [ps[|ps| - 1]];
      var ls := Losing(ps[..|ps| - 1]) + (if ps[|ps| - 1] < 0.0 then [ps[|ps| - 1]] else []);
      assert (forall i :: 0 <= i < |ps| ==> ps[i] >= 0.0) ==> forall x :: x in ps ==> x >= 0.0;
      ls
  }

  /** Splitting the trade list splits the wins: each value is judged on its own. */
  lemma {:induction false} WinningSplit(a: seq<real>, b: seq<real>)
    ensures Winning(a + b) == Winning(a) + Winning(b)
  {
    if b == [] {
      assert a + b == a;
    } else {
      var b0 := b[..|b| - 1];
      WinningSplit(a, b0);
      assert (a + b)[..|a + b| - 1] == a + b0;
    }
  }

  /** Splitting the trade list splits the losses in the same way. */
  lemma {:induction false} LosingSplit(a: seq<real>, b: seq<real>)
    ensures Losing(a + b) == Losing(a) + Losing(b)
  {
    if b == [] {
      assert a + b == a;
    } else {
      var b0 := b[..|b| - 1];
      LosingSplit(a, b0);
      assert (a + b)[..|a + b| - 1] == a + b0;
    }
  }

  /** A trade is counted as a win, a loss, or neither (break-even), never both. */
  lemma {:induction false} WinsAndLossesDisjoint(ps: seq<real>)
    ensures |Winning(ps)| + |Losing(ps)| <= |ps|
  {
    if ps != [] {
      WinsAndLossesDisjoint(ps[..|ps| - 1]);
    }
  }

  /** `max(xs)`: an element of `xs` that no element exceeds. */
  function Max(xs: seq<real>): (m: real)
    requires xs != []
    ensures m in xs && forall i :: 0 <= i < |xs| ==> xs[i] <= m
  {
    if |xs| == 1 then xs[0]
    else
      var m := Max(xs[..|xs| - 1]);
      assert forall i :: 0 <= i < |xs| - 1 ==> xs[..|xs| - 1][i] == xs[i];
      if xs[|xs| - 1] > m then xs[|xs| - 1] else m
  }

  /** `min(xs)`: an element of `xs` that no element undercuts. */
  function Min(xs: seq<real>): (m: real)
    requires xs != []
    ensures m in xs && forall i :: 0 <= i < |xs| ==> m <= xs[i]
  {
    if |xs| == 1 then xs[0]
    else
      var m := Min(xs[..|xs| - 1]);
      assert forall i :: 0 <= i < |xs| - 1 ==> xs[..|xs| - 1][i] == xs[i];
      if xs[|xs| - 1] < m then xs[|xs| - 1] else m
  }

  /** The sum of positive values is positive once there is one, and never negative. */
  lemma {:induction false} SumOfPositives(xs: seq<real>)
    requires forall i :: 0 <= i < |xs| ==> xs[i] > 0.0
    ensures Sum(xs) >= 0.0
    ensures xs != [] ==> Sum(xs) > 0.0
  {
    if xs != [] {
      SumOfPositives(xs[..|xs| - 1]);
    }
  }

  lemma {:induction false} SumOfNegatives(xs: seq<real>)
    requires forall i :: 0 <= i < |xs| ==> xs[i] < 0.0
    ensures xs != [] ==> Sum(xs) < 0.0
  {
    if xs != [] {
      SumOfNegatives(xs[..|xs| - 1]);
    }
  }

  datatype Metrics = Metrics(
    totalTrades: nat,
    completedTrades: nat,
    winningTrades: nat,
    losingTrades: nat,
    totalProfitLoss: real,
    largestWin: real,
    largestLoss: real,
    averageTradePnl: real,
    winRate: real,
    profitFactor: Option<real>,
    finalBalance: real,
    roi: real)

  /**
   * What `analyze_performance` produces: nothing for an empty log or a log
   * without a completed trade, a ZeroDivisionError when the initial
   * balance is zero, and otherwise the metrics.
   */
  datatype Analysis = NoTrades | NoCompletedTrades | ZeroInitialBalance | Report(metrics: Metrics)

  /**
   * `max(wins, default=0)`: no completed trade exceeds it, and it is either
   * 0 (exactly when nothing won) or one of the wins.
   */
  function LargestWin(ps: seq<real>): (r: real)
    ensures r >= 0.0
    ensures forall i :: 0 <= i < |ps| ==> ps[i] <= r
    ensures Winning(ps) == [] ==> r == 0.0
    ensures Winning(ps) != [] ==> r > 0.0 && r in Winning(ps)
  {
    var wins := Winning(ps);
    if wins == [] then
      assert forall i :: 0 <= i < |ps| ==> ps[i] in ps;
      0.0
    else
      var m := Max(wins);
      assert forall i :: 0 <= i < |ps| && ps[i] > 0.0 ==> ps[i] in wins;
      m
  }

  /**
   * `min(losses, default=0)`: no completed trade undercuts it, and it is
   * either 0 (exactly when nothing lost) or one of the losses.
   */
  function LargestLoss(ps: seq<real>): (r: real)
    ensures r <= 0.0
    ensures forall i :: 0 <= i < |ps| ==> r <= ps[i]
    ensures Losing(ps) == [] ==> r == 0.0
    ensures Losing(ps) != [] ==> r < 0.0 && r in Losing(ps)
  {
    var losses := Losing(ps);
    if losses == [] then 0.0
    else
      var m := Min(losses);
      assert forall i :: 0 <= i < |ps| && ps[i] < 0.0 ==> ps[i] in losses;
      m
  }

  /** The percentage of completed trades that won. */
  function WinRate(ps: seq<real>): (r: real)
    requires ps != []
    ensures 0.0 <= r <= 100.0
    ensures IsPercentage(r, |Winning(ps)| as real, |ps| as real)
  {
    Percentage(|Winning(ps)| as real, |ps| as real)
  }

  /** `w / n * 100`: a part of a positive whole as a percentage. */
  function Percentage(w: real, n: real): (r: real)
    requires 0.0 <= w <= n && n > 0.0
    ensures 0.0 <= r <= 100.0
    ensures IsPercentage(r, w, n)
    ensures w == n ==> r == 100.0
  {
    var r := PercentOf(w, n);
    assert (r - 100.0) * n == r * n - 100.0 * n;
    SignOfProduct(r - 100.0, n);
    SignOfProduct(r, n);
    r
  }

  /** A product with a positive factor has the sign of the other factor. */
  lemma SignOfProduct(x: real, n: real)
    requires n > 0.0
    ensures x * n <= 0.0 ==> x <= 0.0
    ensures x * n >= 0.0 ==> x >= 0.0
  {
  }

  /** `q` is `a / b`, stated without division. */
  predicate IsQuotient(q: real, a: real, b: real)
  {
    q * b == a
  }

  /** `r` is `a` as a percentage of `b`, stated without division. */
  predicate IsPercentage(r: real, a: real, b: real)
  {
    r * b == 100.0 * a
  }

  /** `a / b`, characterised by multiplication. */
  function Ratio(a: real, b: real): (q: real)
    requires b != 0.0
    ensures IsQuotient(q, a, b)
    ensures a >= 0.0 && b > 0.0 ==> q >= 0.0
  {
    a / b
  }

  /** `a / b * 100`: `a` as a percentage of `b`. */
  function PercentOf(a: real, b: real): (r: real)
    requires b != 0.0
    ensures IsPercentage(r, a, b)
  {
    var q := Ratio(a, b);
    assert q * 100.0 * b == 100.0 * (q * b);
    q * 100.0
  }

  /** Gross profit over gross loss; absent when nothing was lost. */
  function ProfitFactor(ps: seq<real>): (pf: Option<real>)
    ensures pf.None? <==> Losing(ps) == []
    ensures pf.Some? ==> pf.value >= 0.0 && IsQuotient(pf.value, Sum(Winning(ps)), -Sum(Losing(ps)))
  {
    var wins := Winning(ps);
    var losses := Losing(ps);
    if losses == [] then None
    else
      SumOfPositives(wins);
      SumOfNegatives(losses);
      var gain, loss := Sum(wins), -Sum(losses);
      Some(Ratio(gain, loss))
  }

  function Analyze(trades: seq<Trade>, initialBalance: real, currentBalance: real): (a: Analysis)
    ensures a.NoTrades? <==> trades == []
    ensures a.NoCompletedTrades? <==> trades != [] && CompletedPnls(trades) == []
    ensures a.ZeroInitialBalance? <==> CompletedPnls(trades) != [] && initialBalance == 0.0
    ensures a.Report? ==>
      var m := a.metrics;
      var ps := CompletedPnls(trades);
      && m.totalTrades == |trades| && m.completedTrades == |ps|
      && m.winningTrades == |Winning(ps)| && m.losingTrades == |Losing(ps)|
      && m.winningTrades + m.losingTrades <= m.completedTrades <= m.totalTrades
      && 0 < m.completedTrades
      && m.largestWin == LargestWin(ps) && m.largestLoss == LargestLoss(ps)
      && m.totalProfitLoss == Sum(ps)
      && IsQuotient(m.averageTradePnl, m.totalProfitLoss, m.completedTrades as real)
      && m.winRate == WinRate(ps)
      && m.profitFactor == ProfitFactor(ps)
      && (m.profitFactor.None? <==> m.losingTrades == 0)
      && m.finalBalance == currentBalance
      && IsPercentage(m.roi, m.totalProfitLoss, initialBalance)
  {
    var completed := CompletedPnls(trades);
    if trades == [] then NoTrades
    else if completed == [] then NoCompletedTrades
    else if initialBalance == 0.0 then ZeroInitialBalance
    else
      var total := Sum(completed);
      var n := |completed| as real;
      var average := Ratio(total, n);
      var roi := PercentOf(total, initialBalance);
      WinsAndLossesDisjoint(completed);
      Report(Metrics(
        |trades|,
        |completed|,
        |Winning(completed)|,
        |Losing(completed)|,
        total,
        LargestWin(completed),
        LargestLoss(completed),
        average,
        WinRate(completed),
        ProfitFactor(completed),
        currentBalance,
        roi))
  }

  /** A log whose every trade closed at a profit has a win rate of 100 and an infinite profit factor. */
  lemma {:induction false} AllWinners(trades: seq<Trade>, initialBalance: real, currentBalance: real)
    requires trades != [] && initialBalance != 0.0
    requires forall i :: 0 <= i < |trades| ==> trades[i].profitLoss.Some? && trades[i].profitLoss.value > 0.0
    ensures var a := Analyze(trades, initialBalance, currentBalance);
      a.Report? && a.metrics.winRate == 100.0 && a.metrics.profitFactor.None?
  {
    AllWinnersPnls(trades);
  }

  lemma {:induction false} AllWinnersPnls(trades: seq<Trade>)
    requires forall i :: 0 <= i < |trades| ==> trades[i].profitLoss.Some? && trades[i].profitLoss.value > 0.0
    ensures Winning(CompletedPnls(trades)) == CompletedPnls(trades) && |CompletedPnls(trades)| == |trades|
    ensures Losing(CompletedPnls(trades)) == []
  {
    if trades != [] {
      var init := trades[..|trades| - 1];
      assert forall i :: 0 <= i < |init| ==> init[i] == trades[i];
      AllWinnersPnls(init);
      var ps := CompletedPnls(trades);
      assert ps[..|ps| - 1] == CompletedPnls(init);
    }
  }
}
