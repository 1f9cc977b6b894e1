/**
 * The backtesting engine: a long-only trading loop over historical candles
 * that buys on a `buy` signal when flat, sells on a `sell` signal when long,
 * closes any open position at the last close, and summarises the trade log.
 * The strategy's answers are an oracle: `signals[i]` is what `analyze`
 * returns for the candles up to and including candle `i`.
 */
module Backtesting {
  import opened Wrappers
  import opened Strategies

  const DefaultInitialBalance: real := 10000.0
  const DefaultTradeAmount: real := 0.1
  /** Number of candles the history must hold before the strategy is consulted. */
  const MinHistory: nat := 30

  datatype Action = BuyAction | SellAction

  /** One record of the trade log; only closing records carry a profit. */
  datatype Trade = Trade(timestamp: real, action: Action, price: real, size: real, balance: real, profit: Option<real>)

  /** The fields of a backtester that a run updates. */
  datatype Account = Account(balance: real, position: Option<Side>, positionSize: real, entryPrice: real, trades: seq<Trade>)

  /** Candles the engine can trade on: six fields each and a positive close. */
  predicate ValidCandles(ohlcv: seq<RawCandle>) {
    forall i :: 0 <= i < |ohlcv| ==> |ohlcv[i]| == CandleWidth && ohlcv[i][4] > 0.0
  }

  predicate PositiveCloses(rows: seq<Row>) {
    forall i :: 0 <= i < |rows| ==> rows[i].close > 0.0
  }

  /**
   * The record of selling the whole position at the close of `row`: the
   * proceeds are credited, and the profit is the proceeds less what the
   * position cost at its entry price.
   */
  function SaleRecord(a: Account, row: Row): Trade {
    Trade(row.timestamp, SellAction, row.close, a.positionSize,
          a.balance + a.positionSize * row.close,
          Some(a.positionSize * row.close - a.positionSize * a.entryPrice))
  }

  /** The trade decision for one candle after the warm-up. */
  function Step(a: Account, row: Row, signal: Signal, tradeAmount: real): Account
    requires row.close > 0.0
  {
    if signal == Buy && a.position == None then
      var amount := a.balance * tradeAmount;
      var size := amount / row.close;
      var balance := a.balance - amount;
      Account(balance, Some(Long), size, row.close,
              a.trades + [Trade(row.timestamp, BuyAction, row.close, size, balance, None)])
    else if signal == Sell && a.position == Some(Long) then
      var sale := SaleRecord(a, row);
      Account(sale.balance, None, 0.0, 0.0, a.trades + [sale])
    else a
  }

  /** The account after the loop has visited the first `i` candles. */
  function Replay(a: Account, rows: seq<Row>, signals: seq<Signal>, tradeAmount: real, i: nat): Account
    requires i <= |rows| && |signals| == |rows| && PositiveCloses(rows)
    decreases i
  {
    if i == 0 then a
    else
      var before := Replay(a, rows, signals, tradeAmount, i - 1);
      if i < MinHistory then before else Step(before, rows[i - 1], signals[i - 1], tradeAmount)
  }

  /**
   * The closing sale at the last candle. As in the engine, it credits the
   * proceeds and logs the sale but leaves position, size and entry price set.
   */
  function CloseAtEnd(a: Account, rows: seq<Row>): Account
    requires a.position == Some(Long) ==> |rows| > 0
  {
    if a.position == Some(Long) then
      var sale := SaleRecord(a, rows[|rows| - 1]);
      a.(balance := sale.balance, trades := a.trades + [sale])
    else a
  }

  /** The account after a whole run: the loop, then the closing sale. */
  function RunAccount(a: Account, rows: seq<Row>, signals: seq<Signal>, tradeAmount: real): Account
    requires |signals| == |rows| && PositiveCloses(rows)
    requires a.position == Some(Long) ==> |rows| > 0
  {
    CloseAtEnd(Replay(a, rows, signals, tradeAmount, |rows|), rows)
  }

  // ---------------------------------------------------------------- one step

  /** A step trades exactly under its guard, and only ever appends one record. */
  lemma StepGuards(a: Account, row: Row, signal: Signal, tradeAmount: real)
    requires row.close > 0.0
    ensures var r := Step(a, row, signal, tradeAmount);
      && (|r.trades| == |a.trades| + 1 <==> (signal == Buy && a.position == None) || (signal == Sell && a.position == Some(Long)))
      && (|r.trades| == |a.trades| ==> r == a)
      && |a.trades| <= |r.trades| <= |a.trades| + 1
      && r.trades[..|a.trades|] == a.trades
  {
  }

  /** A buy moves cash into the position without changing its value at the entry price. */
  lemma BuyConservesValue(a: Account, row: Row, tradeAmount: real)
    requires row.close > 0.0 && a.position == None
    ensures var r := Step(a, row, Buy, tradeAmount);
      && r.balance + r.positionSize * r.entryPrice == a.balance
      && r.entryPrice == row.close && r.position == Some(Long)
      && r.balance == a.balance - a.balance * tradeAmount
      && r.trades == a.trades + [Trade(row.timestamp, BuyAction, row.close, r.positionSize, r.balance, None)]
  {
    var r := Step(a, row, Buy, tradeAmount);
    var amount := a.balance * tradeAmount;
    assert r.positionSize * row.close == amount by {
      assert r.positionSize == amount / row.close;
    }
  }

  /** A sell credits the proceeds, logs the profit against the entry price, and resets the position. */
  lemma SellRealisesProfit(a: Account, row: Row, tradeAmount: real)
    requires row.close > 0.0 && a.position == Some(Long)
    ensures Step(a, row, Sell, tradeAmount).trades[|a.trades|].profit == Some(a.positionSize * (row.close - a.entryPrice))
    ensures Step(a, row, Sell, tradeAmount).balance == a.balance + a.positionSize * row.close
    ensures Step(a, row, Sell, tradeAmount).position == None
    ensures Step(a, row, Sell, tradeAmount).positionSize == 0.0 && Step(a, row, Sell, tradeAmount).entryPrice == 0.0
    ensures |Step(a, row, Sell, tradeAmount).trades| == |a.trades| + 1
    ensures Step(a, row, Sell, tradeAmount).trades[..|a.trades|] == a.trades
    ensures Step(a, row, Sell, tradeAmount).trades[|a.trades|].action == SellAction
  {
    var sale := SaleRecord(a, row);
    assert sale.profit == Some(a.positionSize * (row.close - a.entryPrice));
    var r := Step(a, row, Sell, tradeAmount);
    assert r.trades == a.trades + [sale];
    assert r.trades[|a.trades|] == sale;
    assert r.trades[..|a.trades|] == a.trades;
  }

  // ---------------------------------------------------------------- warm-up

  /** While the history is shorter than the warm-up, the account is untouched. */
  lemma {:induction false} WarmupNoTrades(a: Account, rows: seq<Row>, signals: seq<Signal>, tradeAmount: real, i: nat)
    requires i <= |rows| && |signals| == |rows| && PositiveCloses(rows) && i < MinHistory
    ensures Replay(a, rows, signals, tradeAmount, i) == a
  {
    if i > 0 {
      WarmupNoTrades(a, rows, signals, tradeAmount, i - 1);
    }
  }

  /** The signals of the warm-up candles are never consulted. */
  lemma {:induction false} WarmupIgnoresSignals(a: Account, rows: seq<Row>, s1: seq<Signal>, s2: seq<Signal>, tradeAmount: real, i: nat)
    requires i <= |rows| && |s1| == |rows| && |s2| == |rows| && PositiveCloses(rows)
    requires forall j :: MinHistory - 1 <= j < |rows| ==> s1[j] == s2[j]
    ensures Replay(a, rows, s1, tradeAmount, i) == Replay(a, rows, s2, tradeAmount, i)
  {
    if i > 0 {
      WarmupIgnoresSignals(a, rows, s1, s2, tradeAmount, i - 1);
    }
  }

  // ---------------------------------------------------------------- the trade log

  /** Buy, sell, buy, sell, ... */
  predicate Alternating(log: seq<Trade>) {
    forall i :: 0 <= i < |log| ==> log[i].action == (if i % 2 == 0 then BuyAction else SellAction)
  }

  /** Exactly the sell records carry a profit. */
  predicate ProfitOnSells(log: seq<Trade>) {
    forall i :: 0 <= i < |log| ==> (log[i].profit.Some? <==> log[i].action == SellAction)
  }

  /** The records a run appended to the log it started from. */
  function Appended(before: seq<Trade>, after: seq<Trade>): seq<Trade>
    requires |before| <= |after|
  {
    after[|before|..]
  }

  /** Appending the record that the parity calls for keeps a log alternating. */
  lemma AppendAlternating(log: seq<Trade>, t: Trade)
    requires Alternating(log) && ProfitOnSells(log)
    requires t.action == (if |log| % 2 == 0 then BuyAction else SellAction)
    requires t.profit.Some? <==> t.action == SellAction
    ensures Alternating(log + [t]) && ProfitOnSells(log + [t])
  {
  }

  /**
   * What holds of a flat-started account `a` and a later account `r`: the
   * log only grew, the new records alternate starting with a buy, and the
   * position is open exactly after an odd number of them.
   */
  ghost predicate LogFromFlat(a: Account, r: Account) {
    && |a.trades| <= |r.trades| && r.trades[..|a.trades|] == a.trades
    && Alternating(Appended(a.trades, r.trades)) && ProfitOnSells(Appended(a.trades, r.trades))
    && (r.position == None || r.position == Some(Long))
    && (r.position == Some(Long) <==> |Appended(a.trades, r.trades)| % 2 == 1)
  }

  /** One step keeps `LogFromFlat`. */
  lemma StepFromFlat(a: Account, b: Account, row: Row, signal: Signal, tradeAmount: real)
    requires row.close > 0.0 && LogFromFlat(a, b)
    ensures LogFromFlat(a, Step(b, row, signal, tradeAmount))
  {
    var r := Step(b, row, signal, tradeAmount);
    StepGuards(b, row, signal, tradeAmount);
    if |r.trades| == |b.trades| + 1 {
      var t := r.trades[|b.trades|];
      assert r.trades == b.trades + [t];
      assert Appended(a.trades, r.trades) == Appended(a.trades, b.trades) + [t];
      AppendAlternating(Appended(a.trades, b.trades), t);
      assert r.trades[..|a.trades|] == a.trades;
    }
  }

  function Count(log: seq<Trade>, act: Action): nat {
    if log == [] then 0
    else Count(log[..|log| - 1], act) + (if log[|log| - 1].action == act then 1 else 0)
  }

  /** An alternating log of even length holds as many sells as buys. */
  lemma {:induction false} AlternatingBalanced(log: seq<Trade>)
    requires Alternating(log) && |log| % 2 == 0
    ensures Count(log, BuyAction) == Count(log, SellAction) == |log| / 2
  {
    if log != [] {
      var shorter := log[..|log| - 2];
      assert shorter == log[..|log| - 1][..|log| - 2];
      assert Alternating(shorter) by {
        forall i | 0 <= i < |shorter| ensures shorter[i].action == (if i % 2 == 0 then BuyAction else SellAction) {
          assert shorter[i] == log[i];
        }
      }
      AlternatingBalanced(shorter);
      assert log[|log| - 1].action == SellAction;
      assert log[|log| - 2].action == BuyAction;
    }
  }

  /**
   * A run from a flat account leaves a log whose new records alternate,
   * carry profits exactly on sells, and pair every buy with a sell.
   */
  lemma RunBalanced(a: Account, rows: seq<Row>, signals: seq<Signal>, tradeAmount: real)
    requires |signals| == |rows| && PositiveCloses(rows) && a.position == None
    ensures var r := RunAccount(a, rows, signals, tradeAmount);
      && |a.trades| <= |r.trades| && r.trades[..|a.trades|] == a.trades
      && Alternating(Appended(a.trades, r.trades)) && ProfitOnSells(Appended(a.trades, r.trades))
      && Count(Appended(a.trades, r.trades), SellAction) == Count(Appended(a.trades, r.trades), BuyAction)
  {
    ReplayKeepsCash(a, rows, signals, tradeAmount, |rows|);
    var b := Replay(a, rows, signals, tradeAmount, |rows|);
    var r := CloseAtEnd(b, rows);
    if b.position == Some(Long) {
      var last := r.trades[|b.trades|];
      assert r.trades == b.trades + [last];
      assert Appended(a.trades, r.trades) == Appended(a.trades, b.trades) + [last];
      AppendAlternating(Appended(a.trades, b.trades), last);
      assert r.trades[..|a.trades|] == a.trades;
    }
    AlternatingBalanced(Appended(a.trades, r.trades));
  }

  /**
   * A position still open when the loop ends is sold by the closing sale
   * but stays recorded as long: a later closing sale, on any candles, sells
   * the same position again.
   */
  lemma StaleLongAfterRun(a: Account, rows: seq<Row>, signals: seq<Signal>, tradeAmount: real, later: seq<Row>)
    requires |signals| == |rows| && PositiveCloses(rows) && a.position == None
    requires Replay(a, rows, signals, tradeAmount, |rows|).position == Some(Long)
    ensures var b := Replay(a, rows, signals, tradeAmount, |rows|);
      var r := RunAccount(a, rows, signals, tradeAmount);
      && r.position == Some(Long) && r.positionSize == b.positionSize && r.entryPrice == b.entryPrice
      && |r.trades| == |b.trades| + 1 && r.trades[|b.trades|].action == SellAction
    ensures var r := RunAccount(a, rows, signals, tradeAmount);
      |later| > 0 ==> CloseAtEnd(r, later).trades == r.trades + [SaleRecord(r, later[|later| - 1])]
  {
    assert |rows| > 0;
  }

  // ---------------------------------------------------------------- results

  /** `t.get('profit', 0)`. */
  function ProfitOrZero(t: Trade): real {
    if t.profit.Some? then t.profit.value else 0.0
  }

  /** The winning trades: the records whose profit, read as 0 when absent, is positive, in log order. */
  function Winning(log: seq<Trade>): (w: seq<Trade>)
    ensures |w| <= |log| && forall i :: 0 <= i < |w| ==> ProfitOrZero(w[i]) > 0.0
    ensures forall t :: t in w <==> t in log && ProfitOrZero(t) > 0.0
  {
    if log == [] then []
    else Winning(log[..|log| - 1]) + (if ProfitOrZero(log[|log| - 1]) > 0.0 then [log[|log| - 1]] else [])
  }

  /** The losing trades: the records whose profit, read as 0 when absent, is negative, in log order. */
  function Losing(log: seq<Trade>): (l: seq<Trade>)
    ensures |l| <= |log| && forall i :: 0 <= i < |l| ==> ProfitOrZero(l[i]) < 0.0
    ensures forall t :: t in l <==> t in log && ProfitOrZero(t) < 0.0
  {
    if log == [] then []
    else Losing(log[..|log| - 1]) + (if ProfitOrZero(log[|log| - 1]) < 0.0 then [log[|log| - 1]] else [])
  }

  /** Records that carry a profit: the closed trades. */
  function Closed(log: seq<Trade>): seq<Trade> {
    if log == [] then []
    else Closed(log[..|log| - 1]) + (if log[|log| - 1].profit.Some? then [log[|log| - 1]] else [])
  }

  function SumProfit(log: seq<Trade>): real {
    if log == [] then 0.0 else SumProfit(log[..|log| - 1]) + ProfitOrZero(log[|log| - 1])
  }

  /** `SumProfit` of a log with one more record. */
  lemma SumProfitAppend(log: seq<Trade>, t: Trade)
    ensures SumProfit(log + [t]) == SumProfit(log) + ProfitOrZero(t)
  {
    assert (log + [t])[..|log|] == log;
  }

  /**
   * The cash of a flat-started account `a` as seen from a later account
   * `r`: the cash, plus the cost of any open position at its entry price,
   * is the starting cash plus the profits logged since.
   */
  ghost predicate CashFromFlat(a: Account, r: Account)
    requires |a.trades| <= |r.trades|
  {
    && (r.position == None ==> r.balance == a.balance + SumProfit(Appended(a.trades, r.trades)))
    && (r.position == Some(Long) ==>
          r.balance + r.positionSize * r.entryPrice == a.balance + SumProfit(Appended(a.trades, r.trades)))
  }

  /** One step keeps `CashFromFlat`. */
  lemma StepKeepsCash(a: Account, b: Account, row: Row, signal: Signal, tradeAmount: real)
    requires row.close > 0.0 && LogFromFlat(a, b) && CashFromFlat(a, b)
    ensures LogFromFlat(a, Step(b, row, signal, tradeAmount))
    ensures CashFromFlat(a, Step(b, row, signal, tradeAmount))
  {
    StepFromFlat(a, b, row, signal, tradeAmount);
    var r := Step(b, row, signal, tradeAmount);
    StepGuards(b, row, signal, tradeAmount);
    if |r.trades| == |b.trades| + 1 {
      var t := r.trades[|b.trades|];
      assert r.trades == b.trades + [t];
      assert Appended(a.trades, r.trades) == Appended(a.trades, b.trades) + [t];
      SumProfitAppend(Appended(a.trades, b.trades), t);
      if signal == Buy && b.position == None {
        BuyConservesValue(b, row, tradeAmount);
      } else {
        SellRealisesProfit(b, row, tradeAmount);
      }
    }
  }

  /** The loop keeps `LogFromFlat` and `CashFromFlat` from a flat start. */
  lemma {:induction false} ReplayKeepsCash(a: Account, rows: seq<Row>, signals: seq<Signal>, tradeAmount: real, i: nat)
    requires i <= |rows| && |signals| == |rows| && PositiveCloses(rows) && a.position == None
    ensures LogFromFlat(a, Replay(a, rows, signals, tradeAmount, i))
    ensures CashFromFlat(a, Replay(a, rows, signals, tradeAmount, i))
  {
    if i == 0 {
      assert Appended(a.trades, a.trades) == [];
    } else {
      ReplayKeepsCash(a, rows, signals, tradeAmount, i - 1);
      if i >= MinHistory {
        StepKeepsCash(a, Replay(a, rows, signals, tradeAmount, i - 1), rows[i - 1], signals[i - 1], tradeAmount);
      }
    }
  }

  /**
   * After a whole run from a flat account, the final cash is the starting
   * cash plus the sum of the profits the run logged: buying and selling
   * moves no money except the profit of each round trip.
   */
  lemma RunCashIsProfit(a: Account, rows: seq<Row>, signals: seq<Signal>, tradeAmount: real)
    requires |signals| == |rows| && PositiveCloses(rows) && a.position == None
    ensures var r := RunAccount(a, rows, signals, tradeAmount);
      |a.trades| <= |r.trades| && r.balance == a.balance + SumProfit(Appended(a.trades, r.trades))
  {
    ReplayKeepsCash(a, rows, signals, tradeAmount, |rows|);
    var b := Replay(a, rows, signals, tradeAmount, |rows|);
    var r := CloseAtEnd(b, rows);
    if b.position == Some(Long) {
      var last := r.trades[|b.trades|];
      assert r.trades == b.trades + [last];
      assert Appended(a.trades, r.trades) == Appended(a.trades, b.trades) + [last];
      SumProfitAppend(Appended(a.trades, b.trades), last);
      assert last.profit.value == b.positionSize * rows[|rows| - 1].close - b.positionSize * b.entryPrice;
    }
  }

  /** Each record is kept by `Winning` as often as it occurs in the log when its profit is positive, else never. */
  lemma {:induction false} WinningMultiset(log: seq<Trade>)
    ensures forall t :: multiset(Winning(log))[t] == if ProfitOrZero(t) > 0.0 then multiset(log)[t] else 0
  {
    if log != [] {
      WinningMultiset(log[..|log| - 1]);
      assert log == log[..|log| - 1] + [log[|log| - 1]];
    }
  }

  /** Each record is kept by `Losing` as often as it occurs in the log when its profit is negative, else never. */
  lemma {:induction false} LosingMultiset(log: seq<Trade>)
    ensures forall t :: multiset(Losing(log))[t] == if ProfitOrZero(t) < 0.0 then multiset(log)[t] else 0
  {
    if log != [] {
      LosingMultiset(log[..|log| - 1]);
      assert log == log[..|log| - 1] + [log[|log| - 1]];
    }
  }

  /** Every closed trade of the log made a profit. */
  predicate AllWon(log: seq<Trade>) {
    forall i :: 0 <= i < |log| && log[i].profit.Some? ==> log[i].profit.value > 0.0
  }

  /** The winners are as many as the closed trades exactly when every closed trade won. */
  lemma {:induction false} AllClosedWon(log: seq<Trade>)
    ensures |Winning(log)| <= |Closed(log)|
    ensures |Winning(log)| == |Closed(log)| <==> AllWon(log)
  {
    if log != [] {
      var init, last := log[..|log| - 1], log[|log| - 1];
      AllClosedWon(init);
      assert AllWon(log) <==> AllWon(init) && (last.profit.Some? ==> last.profit.value > 0.0) by {
        assert forall i :: 0 <= i < |init| ==> init[i] == log[i];
      }
    }
  }

  /** Winners and losers are both closed trades, and never the same one. */
  lemma {:induction false} WinLoseWithinClosed(log: seq<Trade>)
    ensures |Winning(log)| + |Losing(log)| <= |Closed(log)|
  {
    if log != [] {
      WinLoseWithinClosed(log[..|log| - 1]);
    }
  }

  /** On a log whose profits sit exactly on its sells, the closed trades are the sells. */
  lemma {:induction false} ClosedAreSells(log: seq<Trade>)
    requires ProfitOnSells(log)
    ensures |Closed(log)| == Count(log, SellAction)
  {
    if log != [] {
      var init := log[..|log| - 1];
      assert ProfitOnSells(init) by {
        forall i | 0 <= i < |init| ensures (init[i].profit.Some? <==> init[i].action == SellAction) {
          assert init[i] == log[i];
        }
      }
      ClosedAreSells(log[..|log| - 1]);
    }
  }

  lemma {:induction false} SumPositive(log: seq<Trade>)
    requires forall i :: 0 <= i < |log| ==> ProfitOrZero(log[i]) > 0.0
    ensures log != [] ==> SumProfit(log) > 0.0
    ensures SumProfit(log) >= 0.0
  {
    if log != [] {
      SumPositive(log[..|log| - 1]);
    }
  }

  lemma {:induction false} SumNegative(log: seq<Trade>)
    requires forall i :: 0 <= i < |log| ==> ProfitOrZero(log[i]) < 0.0
    ensures log != [] ==> SumProfit(log) < 0.0
    ensures SumProfit(log) <= 0.0
  {
    if log != [] {
      SumNegative(log[..|log| - 1]);
    }
  }

  /** A share of a positive total, as a percentage, lies in [0, 100]. */
  lemma PercentageBounds(part: nat, total: nat)
    ensures part <= total && total > 0 ==> 0.0 <= (part as real) / (total as real) * 100.0 <= 100.0
  {
    if part <= total && total > 0 {
      var q := (part as real) / (total as real);
      assert q * (total as real) == part as real;
      assert q <= 1.0;
    }
  }

  /** `win_rate`: the winners' share of the closed trades, 0 when there are none. */
  function WinRate(winning: nat, total: nat): (rate: real)
    ensures total == 0 ==> rate == 0.0
    ensures winning <= total ==> 0.0 <= rate <= 100.0
    ensures winning <= total ==> (rate == 100.0 <==> 0 < winning == total)
    ensures total > 0 ==> (rate == 0.0 <==> winning == 0)
    ensures total > 0 ==> rate * (total as real) == (winning as real) * 100.0
  {
    PercentageBounds(winning, total);
    if total > 0 then (winning as real) / (total as real) * 100.0 else 0.0
  }

  /** `avg_win` / `avg_loss`: the mean profit of a list of trades, 0 when it is empty. */
  function AverageProfit(log: seq<Trade>): (avg: real)
    ensures log == [] ==> avg == 0.0
    ensures log != [] ==> (avg > 0.0 <==> SumProfit(log) > 0.0) && (avg < 0.0 <==> SumProfit(log) < 0.0)
    ensures log != [] ==> avg * (|log| as real) == SumProfit(log)
  {
    if log != [] then SumProfit(log) / (|log| as real) else 0.0
  }

  /** `return_percentage`: the return relative to the initial balance. */
  function ReturnPercentage(totalReturn: real, initialBalance: real): (pct: real)
    requires initialBalance != 0.0
    ensures pct * initialBalance == totalReturn * 100.0
  {
    totalReturn / initialBalance * 100.0
  }

  /** `return_percentage` divides by the initial balance, which raises when it is zero. */
  datatype CalcError = ZeroDivision

  datatype Results = Results(
    initialBalance: real, finalBalance: real, totalReturn: real, returnPercentage: real,
    totalTrades: nat, winningTrades: nat, losingTrades: nat, winRate: real,
    averageWin: real, averageLoss: real, trades: seq<Trade>)

  /**
   * `_calculate_results` over an engine's initial balance, balance and
   * trade log: every figure is computed from the log's closed, winning and
   * losing trades.
   */
  function Summarise(initialBalance: real, balance: real, trades: seq<Trade>): (r: Result<Results, CalcError>)
    ensures r.Failure? <==> initialBalance == 0.0
    ensures r.Success? ==>
      && r.value.initialBalance == initialBalance && r.value.finalBalance == balance
      && r.value.totalReturn == balance - initialBalance
      && r.value.returnPercentage * initialBalance == r.value.totalReturn * 100.0
      && r.value.trades == trades
    ensures r.Success? ==>
      && r.value.totalTrades == |Closed(trades)|
      && r.value.winningTrades == |Winning(trades)| && r.value.losingTrades == |Losing(trades)|
      && r.value.winningTrades + r.value.losingTrades <= r.value.totalTrades
    ensures r.Success? ==>
      && r.value.winRate == WinRate(r.value.winningTrades, r.value.totalTrades)
      && r.value.averageWin == AverageProfit(Winning(trades))
      && r.value.averageLoss == AverageProfit(Losing(trades))
  {
    if initialBalance == 0.0 then Failure(ZeroDivision)
    else
      var totalReturn := balance - initialBalance;
      var winning := Winning(trades);
      var losing := Losing(trades);
      WinLoseWithinClosed(trades);
      Success(Results(initialBalance, balance, totalReturn, ReturnPercentage(totalReturn, initialBalance),
                      |Closed(trades)|, |winning|, |losing|, WinRate(|winning|, |Closed(trades)|),
                      AverageProfit(winning), AverageProfit(losing), trades))
  }

  /** The win rate of a log lies in [0, 100], and is 100 exactly when every closed trade won. */
  lemma LogWinRateBounds(trades: seq<Trade>)
    ensures 0.0 <= WinRate(|Winning(trades)|, |Closed(trades)|) <= 100.0
    ensures WinRate(|Winning(trades)|, |Closed(trades)|) == 100.0 <==> AllWon(trades) && Closed(trades) != []
  {
    WinLoseWithinClosed(trades);
    AllClosedWon(trades);
  }

  /**
   * The average win of a log is the mean profit of its winners, positive
   * exactly when there is one; its average loss is the mean of its losers,
   * negative exactly when there is one.
   */
  lemma LogAverages(trades: seq<Trade>)
    ensures AverageProfit(Winning(trades)) * (|Winning(trades)| as real) == SumProfit(Winning(trades))
    ensures AverageProfit(Losing(trades)) * (|Losing(trades)| as real) == SumProfit(Losing(trades))
    ensures AverageProfit(Winning(trades)) > 0.0 <==> Winning(trades) != []
    ensures AverageProfit(Losing(trades)) < 0.0 <==> Losing(trades) != []
  {
    SumPositive(Winning(trades));
    SumNegative(Losing(trades));
  }

  /**
   * `signals[i]` stands for `analyze(ohlcv[:i+1])`: the frame the strategy
   * builds from that prefix is the first `i + 1` rows of the engine's frame,
   * so the last row it analyses is the candle the engine trades on.
   */
  lemma AnalyzedPrefixEndsAtRow(ohlcv: seq<RawCandle>, i: nat)
    requires WellFormed(ohlcv) && i < |ohlcv|
    ensures WellFormed(ohlcv[..i + 1])
    ensures ConvertToDataFrame(ohlcv[..i + 1]) == ConvertToDataFrame(ohlcv)[..i + 1]
    ensures ConvertToDataFrame(ohlcv[..i + 1])[i] == ConvertToDataFrame(ohlcv)[i]
  {
    ConvertPrefix(ohlcv, i + 1);
  }

  class Backtester {
    var initialBalance: real
    var balance: real
    var position: Option<Side>
    var positionSize: real
    var entryPrice: real
    var trades: seq<Trade>

    function State(): Account
      reads this
    {
      Account(balance, position, positionSize, entryPrice, trades)
    }

    /** A fresh engine: all capital in cash, no position, an empty log. */
    constructor (initialBalance: real := DefaultInitialBalance)
      ensures this.initialBalance == initialBalance
      ensures State() == Account(initialBalance, None, 0.0, 0.0, [])
    {
      this.initialBalance := initialBalance;
      balance := initialBalance;
      position := None;
      positionSize := 0.0;
      entryPrice := 0.0;
      trades := [];
    }

    /** `_calculate_results`: the summary of the engine's balances and trade log. */
    function CalculateResults(): (r: Result<Results, CalcError>)
      reads this
      ensures r == Summarise(initialBalance, balance, trades)
      ensures r.Failure? <==> initialBalance == 0.0
    {
      Summarise(initialBalance, balance, trades)
    }

    /**
     * `run`: trade on every candle after the warm-up, close at the last
     * close, and summarise. The strategy hears every position change the
     * loop makes; the closing sale does not tell it.
     */
    method Run(strategy: Strategy, ohlcv: seq<RawCandle>, signals: seq<Signal>, tradeAmount: real := DefaultTradeAmount)
      returns (results: Result<Results, CalcError>)
      requires ValidCandles(ohlcv) && |signals| == |ohlcv|
      requires position == Some(Long) ==> |ohlcv| > 0
      modifies this, strategy
      ensures WellFormed(ohlcv) && PositiveCloses(ConvertToDataFrame(ohlcv))
      ensures State() == RunAccount(old(State()), ConvertToDataFrame(ohlcv), signals, tradeAmount)
      ensures initialBalance == old(initialBalance)
      ensures results == CalculateResults()
      ensures strategy.name == old(strategy.name)
      ensures var loop := Replay(old(State()), ConvertToDataFrame(ohlcv), signals, tradeAmount, |ohlcv|);
        if loop.trades == old(trades) then strategy.GetPosition() == old(strategy.GetPosition())
        else strategy.GetPosition() == PositionInfo(loop.position, loop.entryPrice)
    {
      var rows := ConvertToDataFrame(ohlcv);
      for i := 0 to |rows|
        invariant State() == Replay(old(State()), rows, signals, tradeAmount, i)
        invariant initialBalance == old(initialBalance) && strategy.name == old(strategy.name)
        invariant |trades| >= |old(trades)|
        invariant if trades == old(trades) then strategy.GetPosition() == old(strategy.GetPosition())
                  else strategy.GetPosition() == PositionInfo(position, entryPrice)
      {
        if i + 1 < MinHistory {
          continue;
        }
        TradeOn(strategy, rows[i], signals[i], tradeAmount);
      }
      CloseOpenPosition(rows);
      results := CalculateResults();
    }

    /** The body of the loop of `run` for one candle past the warm-up. */
    method TradeOn(strategy: Strategy, row: Row, signal: Signal, tradeAmount: real)
      requires row.close > 0.0
      modifies this, strategy
      ensures State() == Step(old(State()), row, signal, tradeAmount)
      ensures initialBalance == old(initialBalance) && strategy.name == old(strategy.name)
      ensures if trades == old(trades) then strategy.GetPosition() == old(strategy.GetPosition())
              else strategy.GetPosition() == PositionInfo(position, entryPrice)
    {
      var currentPrice := row.close;
      var currentTime := row.timestamp;
      if signal == Buy && position == None {
        var amountToInvest := balance * tradeAmount;
        ghost var next := Step(State(), row, signal, tradeAmount);
        assert next.positionSize == amountToInvest / currentPrice && next.balance == balance - amountToInvest;
        positionSize := amountToInvest / currentPrice;
        entryPrice := currentPrice;
        position := Some(Long);
        balance := balance - amountToInvest;
        trades := trades + [Trade(currentTime, BuyAction, currentPrice, positionSize, balance, None)];
        strategy.SetPosition(Some(Long), currentPrice);
      } else if signal == Sell && position == Some(Long) {
        // proceeds and profit at the current price
        var sale := SaleRecord(State(), row);
        balance := sale.balance;
        trades := trades + [sale];
        position := None;
        positionSize := 0.0;
        entryPrice := 0.0;
        strategy.SetPosition(None);
      }
    }

    /** The closing sale at the end of `run`; position, size and entry price stay as they are. */
    method CloseOpenPosition(rows: seq<Row>)
      requires position == Some(Long) ==> |rows| > 0
      modifies this
      ensures State() == CloseAtEnd(old(State()), rows)
      ensures initialBalance == old(initialBalance)
    {
      if position == Some(Long) {
        // proceeds and profit at the final close
        var sale := SaleRecord(State(), rows[|rows| - 1]);
        balance := sale.balance;
        trades := trades + [sale];
      }
    }
  }
}
