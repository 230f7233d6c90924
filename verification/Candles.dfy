/** Candle series and their truncation at a point in time. */
module Candles {
  import opened Sorting

  datatype Timeframe = M5 | M15 | H1 | H4

  /** A closed candle; `ts` is its timestamp in the unit of its feed (microseconds or milliseconds). */
  datatype Candle = Candle(ts: int, open: real, high: real, low: real, close: real)

  /** Three neighbouring candles. */
  datatype Triple = Triple(c0: Candle, c1: Candle, c2: Candle)

  predicate WellFormed(c: Candle) {
    && 0.0 < c.low
    && c.low <= c.open <= c.high
    && c.low <= c.close <= c.high
  }

  /** What the dataset loader hands over: sound candles in strictly increasing time order. */
  ghost predicate Series(candles: seq<Candle>) {
    && (forall i :: 0 <= i < |candles| ==> WellFormed(candles[i]))
    && (forall i, j :: 0 <= i < j < |candles| ==> candles[i].ts < candles[j].ts)
  }

  /** The true range of a candle is the largest of its range and its distances to the close before. */
  predicate IsTrueRange(r: real, prev: Candle, c: Candle) {
    && c.high - c.low <= r
    && c.high - prev.close <= r && prev.close - c.high <= r
    && c.low - prev.close <= r && prev.close - c.low <= r
    && (|| r == c.high - c.low || r == c.high - prev.close || r == prev.close - c.high
        || r == c.low - prev.close || r == prev.close - c.low)
  }

  /** The number of leading candles with a timestamp up to `t`. */
  function CountUpTo(candles: seq<Candle>, t: int): (n: nat)
    ensures n <= |candles|
    ensures forall i :: 0 <= i < n ==> candles[i].ts <= t
    ensures n < |candles| ==> candles[n].ts > t
  {
    Leading(candles, (c: Candle) => c.ts <= t)
  }

  /** The data that is known at time `t`. */
  function Truncate(candles: seq<Candle>, t: int): seq<Candle> {
    Filter(candles, (c: Candle) => c.ts <= t)
  }

  lemma TruncateIsPrefix(candles: seq<Candle>, t: int)
    requires Series(candles)
    ensures Truncate(candles, t) == candles[..CountUpTo(candles, t)]
    ensures Series(Truncate(candles, t))
    ensures forall i :: 0 <= i < |candles| ==> (candles[i].ts <= t <==> i < CountUpTo(candles, t))
  {
    FilterPrefix(candles, (c: Candle) => c.ts <= t, CountUpTo(candles, t));
  }
}
