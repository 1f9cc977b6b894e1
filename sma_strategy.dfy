/**
 * The simple-moving-average crossover strategy: a short and a long rolling
 * mean of the closes, a buy when the short mean crosses above the long one
 * and no long position is held, a sell when it crosses below while long.
 * A rolling mean that pandas reports as NaN is `None` here, and every
 * comparison with it is false, as comparisons with NaN are.
 */
module SmaStrategy {
  import opened Wrappers
  import opened Strategies

  const DefaultShortWindow: nat := 10
  const DefaultLongWindow: nat := 30
  const StrategyName: string := "SimpleMovingAverage"

  function Sum(xs: seq<real>): real {
    if xs == [] then 0.0 else Sum(xs[..|xs| - 1]) + xs[|xs| - 1]
  }

  /** A sum of values that all lie in `[lo, hi]` lies between `|xs|*lo` and `|xs|*hi`. */
  lemma {:induction false} SumBounds(xs: seq<real>, lo: real, hi: real)
    requires forall i :: 0 <= i < |xs| ==> lo <= xs[i] <= hi
    ensures (|xs| as real) * lo <= Sum(xs) <= (|xs| as real) * hi
  {
    if xs != [] {
      SumBounds(xs[..|xs| - 1], lo, hi);
    }
  }

  /**
   * `close.rolling(window=w).mean()` at row `i`: undefined for a window of
   * 0, and until `w` closes are available; then the mean of the last `w`
   * closes up to row `i`.
   */
  function RollingMean(closes: seq<real>, w: nat, i: nat): (m: Option<real>)
    requires i < |closes|
    ensures m.None? <==> w == 0 || i + 1 < w
  {
    if w == 0 || i + 1 < w then None else Some(Sum(closes[i + 1 - w..i + 1]) / (w as real))
  }

  /** A total between `n*lo` and `n*hi`, divided by a positive `n`, lies in `[lo, hi]`. */
  lemma QuotientBounds(total: real, n: real, lo: real, hi: real)
    requires n > 0.0 && n * lo <= total <= n * hi
    ensures lo <= total / n <= hi
  {
    var m := total / n;
    assert m * n == total;
  }

  /** A defined rolling mean lies between the smallest and the largest close of its window. */
  lemma MeanWithinWindow(closes: seq<real>, w: nat, i: nat, lo: real, hi: real)
    requires w >= 1 && w <= i + 1 < |closes| + 1
    requires forall j :: i + 1 - w <= j <= i ==> lo <= closes[j] <= hi
    ensures RollingMean(closes, w, i).Some?
    ensures lo <= RollingMean(closes, w, i).value <= hi
  {
    var win := closes[i + 1 - w..i + 1];
    assert forall j :: 0 <= j < |win| ==> win[j] == closes[i + 1 - w + j];
    SumBounds(win, lo, hi);
    QuotientBounds(Sum(win), w as real, lo, hi);
  }

  /** Comparisons of possibly-undefined means: false whenever a side is undefined. */
  predicate Le(a: Option<real>, b: Option<real>) { a.Some? && b.Some? && a.value <= b.value }
  predicate Ge(a: Option<real>, b: Option<real>) { a.Some? && b.Some? && a.value >= b.value }
  predicate Lt(a: Option<real>, b: Option<real>) { a.Some? && b.Some? && a.value < b.value }
  predicate Gt(a: Option<real>, b: Option<real>) { a.Some? && b.Some? && a.value > b.value }

  /** The two means at the previous and at the current (last) row. */
  datatype Means = Means(prevShort: Option<real>, prevLong: Option<real>, curShort: Option<real>, curLong: Option<real>)

  function MeansAt(rows: seq<Row>, shortWindow: nat, longWindow: nat): Means
    requires |rows| >= 2
  {
    var closes := Closes(rows);
    var n := |rows|;
    Means(RollingMean(closes, shortWindow, n - 2), RollingMean(closes, longWindow, n - 2),
          RollingMean(closes, shortWindow, n - 1), RollingMean(closes, longWindow, n - 1))
  }

  /** The crossover rule; the bearish test is only reached when the bullish one fails. */
  function Crossover(m: Means, position: Option<Side>): Signal {
    if Le(m.prevShort, m.prevLong) && Gt(m.curShort, m.curLong) then
      (if position != Some(Long) then Buy else Hold)
    else if Ge(m.prevShort, m.prevLong) && Lt(m.curShort, m.curLong) then
      (if position == Some(Long) then Sell else Hold)
    else Hold
  }

  /** The outcome of one `analyze` call: the signal, and whether `last_signal` is assigned. */
  datatype Analysis = Analysis(signal: Signal, recorded: bool)

  /** What `analyze` returns for a frame, given the position the strategy holds. */
  function Evaluate(rows: seq<Row>, shortWindow: nat, longWindow: nat, position: Option<Side>): Analysis
  {
    if |rows| < longWindow || |rows| < 2 then Analysis(Hold, false)
    else
      var m := MeansAt(rows, shortWindow, longWindow);
      if m.curShort.None? || m.curLong.None? then Analysis(Hold, false)
      else Analysis(Crossover(m, position), true)
  }

  /** Fewer rows than the long window: `hold`, and `last_signal` is left alone. */
  lemma ShortHistoryHolds(rows: seq<Row>, shortWindow: nat, longWindow: nat, position: Option<Side>)
    requires |rows| < longWindow
    ensures Evaluate(rows, shortWindow, longWindow, position) == Analysis(Hold, false)
  {
  }

  /** The full rule runs, and `last_signal` is assigned, exactly when both current means exist. */
  lemma RecordedIff(rows: seq<Row>, shortWindow: nat, longWindow: nat, position: Option<Side>)
    ensures Evaluate(rows, shortWindow, longWindow, position).recorded
        <==> shortWindow >= 1 && longWindow >= 1
             && |rows| >= shortWindow && |rows| >= longWindow && |rows| >= 2
  {
  }

  /** A window of 0 leaves every mean undefined: the answer is always `hold`, never recorded. */
  lemma ZeroWindowHolds(rows: seq<Row>, shortWindow: nat, longWindow: nat, position: Option<Side>)
    requires shortWindow == 0 || longWindow == 0
    ensures Evaluate(rows, shortWindow, longWindow, position) == Analysis(Hold, false)
  {
  }

  /** A buy is a bullish crossover of defined means while not long, and nothing else. */
  lemma BuyIff(rows: seq<Row>, shortWindow: nat, longWindow: nat, position: Option<Side>)
    ensures Evaluate(rows, shortWindow, longWindow, position).signal == Buy
        <==> |rows| >= longWindow && |rows| >= 2
             && var m := MeansAt(rows, shortWindow, longWindow);
             && m.prevShort.Some? && m.prevLong.Some? && m.curShort.Some? && m.curLong.Some?
             && m.prevShort.value <= m.prevLong.value && m.curShort.value > m.curLong.value
             && position != Some(Long)
  {
  }

  /** A sell is a bearish crossover of defined means while long, and nothing else. */
  lemma SellIff(rows: seq<Row>, shortWindow: nat, longWindow: nat, position: Option<Side>)
    ensures Evaluate(rows, shortWindow, longWindow, position).signal == Sell
        <==> |rows| >= longWindow && |rows| >= 2
             && var m := MeansAt(rows, shortWindow, longWindow);
             && m.prevShort.Some? && m.prevLong.Some? && m.curShort.Some? && m.curLong.Some?
             && m.prevShort.value >= m.prevLong.value && m.curShort.value < m.curLong.value
             && position == Some(Long)
  {
  }

  /** An undefined mean at either of the two rows yields `hold`. */
  lemma UndefinedMeanHolds(rows: seq<Row>, shortWindow: nat, longWindow: nat, position: Option<Side>)
    requires |rows| >= 2
    requires var m := MeansAt(rows, shortWindow, longWindow);
      m.prevShort.None? || m.prevLong.None? || m.curShort.None? || m.curLong.None?
    ensures Evaluate(rows, shortWindow, longWindow, position).signal == Hold
  {
  }

  class SimpleMovingAverage {
    /** The base-strategy part: name, position and entry price. */
    const strategy: Strategy
    const shortWindow: nat
    const longWindow: nat
    var lastSignal: Signal

    constructor (shortWindow: nat := DefaultShortWindow, longWindow: nat := DefaultLongWindow)
      ensures fresh(strategy)
      ensures strategy.name == StrategyName && strategy.position == None && strategy.entryPrice == 0.0
      ensures this.shortWindow == shortWindow && this.longWindow == longWindow && lastSignal == Hold
    {
      strategy := new Strategy(StrategyName);
      this.shortWindow := shortWindow;
      this.longWindow := longWindow;
      lastSignal := Hold;
    }

    /** `analyze`: reads the held position, returns a signal, and may record it. */
    method Analyze(ohlcv: seq<RawCandle>) returns (signal: Signal)
      requires WellFormed(ohlcv)
      modifies this
      ensures var a := Evaluate(ConvertToDataFrame(ohlcv), shortWindow, longWindow, strategy.position);
        signal == a.signal && lastSignal == (if a.recorded then a.signal else old(lastSignal))
      ensures strategy.GetPosition() == old(strategy.GetPosition())
    {
      if |ohlcv| < longWindow {
        return Hold;
      }
      var df := ConvertToDataFrame(ohlcv);
      var closes := Closes(df);
      if |df| < 2 {
        return Hold;
      }
      var n := |df|;
      var curShort := RollingMean(closes, shortWindow, n - 1);
      var curLong := RollingMean(closes, longWindow, n - 1);
      var prevShort := RollingMean(closes, shortWindow, n - 2);
      var prevLong := RollingMean(closes, longWindow, n - 2);
      assert MeansAt(df, shortWindow, longWindow) == Means(prevShort, prevLong, curShort, curLong);
      if curShort.None? || curLong.None? {
        return Hold;
      }
      signal := Hold;
      if Le(prevShort, prevLong) && Gt(curShort, curLong) {
        if strategy.position != Some(Long) {
          signal := Buy;
        }
      } else if Ge(prevShort, prevLong) && Lt(curShort, curLong) {
        if strategy.position == Some(Long) {
          signal := Sell;
        }
      }
      lastSignal := signal;
    }
  }
}
