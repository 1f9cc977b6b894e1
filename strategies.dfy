/**
 * The base trading strategy: a name and the position it believes it holds,
 * plus the conversion of raw OHLCV candles into named-column rows.
 */
module Strategies {
  import opened Wrappers

  /** A trading signal. */
  datatype Signal = Buy | Sell | Hold

  /** The side of an open position ('long' or 'short'); no position is `None`. */
  datatype Side = Long | Short

  /** Number of fields of a raw candle: timestamp, open, high, low, close, volume. */
  const CandleWidth: nat := 6

  /** A raw candle as the exchange delivers it: a list of six numbers. */
  type RawCandle = seq<real>

  predicate WellFormed(ohlcv: seq<RawCandle>) {
    forall i :: 0 <= i < |ohlcv| ==> |ohlcv[i]| == CandleWidth
  }

  /** One row of the frame: the six named columns. The timestamp stays in milliseconds. */
  datatype Row = Row(timestamp: real, open: real, high: real, low: real, close: real, volume: real)

  /** `convert_to_dataframe`: one row per candle, columns taken in field order. */
  function ConvertToDataFrame(ohlcv: seq<RawCandle>): (rows: seq<Row>)
    requires WellFormed(ohlcv)
    ensures |rows| == |ohlcv|
    ensures forall i :: 0 <= i < |rows| ==> rows[i].close == ohlcv[i][4]
    ensures forall i :: 0 <= i < |rows| ==>
      [rows[i].timestamp, rows[i].open, rows[i].high, rows[i].low, rows[i].close, rows[i].volume] == ohlcv[i]
  {
    seq(|ohlcv|, i requires 0 <= i < |ohlcv| && |ohlcv[i]| == CandleWidth =>
      Row(ohlcv[i][0], ohlcv[i][1], ohlcv[i][2], ohlcv[i][3], ohlcv[i][4], ohlcv[i][5]))
  }

  /** The closes of a frame, in order. */
  function Closes(rows: seq<Row>): (c: seq<real>)
    ensures |c| == |rows| && forall i :: 0 <= i < |rows| ==> c[i] == rows[i].close
  {
    seq(|rows|, i requires 0 <= i < |rows| => rows[i].close)
  }

  /** Conversion commutes with taking a prefix of the candles. */
  lemma ConvertPrefix(ohlcv: seq<RawCandle>, n: nat)
    requires WellFormed(ohlcv) && n <= |ohlcv|
    ensures WellFormed(ohlcv[..n])
    ensures ConvertToDataFrame(ohlcv[..n]) == ConvertToDataFrame(ohlcv)[..n]
  {
  }

  /** What `get_position` reports. */
  datatype PositionInfo = PositionInfo(position: Option<Side>, entryPrice: real)

  /** Default entry price of `set_position`. */
  const DefaultEntryPrice: real := 0.0

  class Strategy {
    var name: string
    var position: Option<Side>
    var entryPrice: real

    /** A new strategy holds no position and an entry price of 0.0. */
    constructor (name: string)
      ensures this.name == name && position == None && entryPrice == 0.0
    {
      this.name := name;
      position := None;
      entryPrice := 0.0;
    }

    /** `set_position`: records the position and its entry price; the name is untouched. */
    method SetPosition(position: Option<Side>, entryPrice: real := DefaultEntryPrice)
      modifies this
      ensures this.position == position && this.entryPrice == entryPrice
      ensures name == old(name)
      ensures GetPosition() == PositionInfo(position, entryPrice)
    {
      this.position := position;
      this.entryPrice := entryPrice;
    }

    /** `get_position`: a read of the two position fields. */
    function GetPosition(): (info: PositionInfo)
      reads this
      ensures info.position == position && info.entryPrice == entryPrice
    {
      PositionInfo(position, entryPrice)
    }
  }
}
