/** ZigZag pivot detection of the wave engine. */
module Pivots {
  import opened Prelude
  import opened Sorting
  import opened Candles

  datatype WaveEngine = AtrZigZag | PctZigZag

  datatype BreakBasis = Wick | Close

  datatype Profile = Profile(
    entryTimeframes: seq<Timeframe>,
    waveEngine: WaveEngine,
    breakBasis: BreakBasis,
    atrPeriod: nat,
    atrMult: real,
    pctMove: real,
    flatLookbackHours: nat,
    pullbackRatio: real,
    slBuffer: real,
    maxSl: real,
    tp1Max: real,
    tp2: real,
    tp3: real,
    timeStopHours: nat)

  /** The ranges that profile normalisation clamps every field into. */
  predicate Normalized(p: Profile) {
    && p.atrPeriod >= 2
    && 1.5 <= p.atrMult <= 4.0
    && 0.02 <= p.pctMove <= 0.05
    && 60 <= p.flatLookbackHours <= 150
    && 0.4 <= p.pullbackRatio <= 0.8
    && 0.0 <= p.slBuffer
    && 0.02 <= p.maxSl <= 0.04
    && 0.0 <= p.tp1Max
    && 0.02 <= p.tp2 <= 0.04
    && 0.04 <= p.tp3 <= 0.08
    && 4 <= p.timeStopHours <= 16
  }

  datatype PivotKind = High | Low

  datatype Pivot = Pivot(ts: int, price: real, kind: PivotKind, index: nat, threshold: real)

  // ---- average true range ----

  function TrueRangeFrom(prevClose: real, c: Candle): real {
    Max(c.high - c.low, Max(Abs(c.high - prevClose), Abs(c.low - prevClose)))
  }

  function TrueRange(candles: seq<Candle>, i: nat): real
    requires i < |candles|
  {
    TrueRangeFrom(candles[if i == 0 then 0 else i - 1].close, candles[i])
  }

  function TrueRanges(candles: seq<Candle>, lo: nat, hi: nat): seq<real>
    requires lo <= hi <= |candles|
  {
    seq(hi - lo, k requires 0 <= k < hi - lo => TrueRange(candles, lo + k))
  }

  /** The plain average of the last `period` true ranges, once there are that many. */
  function AtrAt(candles: seq<Candle>, period: nat, i: nat): Option<real>
    requires i < |candles| && period > 0
  {
    if i + 1 < period then None
    else Some(Average(TrueRanges(candles, i + 1 - period, i + 1)))
  }

  lemma TrueRangesSlice(candles: seq<Candle>, lo: nat, hi: nat)
    requires lo <= hi <= |candles|
    ensures TrueRanges(candles, 0, hi)[lo..hi] == TrueRanges(candles, lo, hi)
  {
    forall k | 0 <= k < hi - lo ensures TrueRanges(candles, 0, hi)[lo..hi][k] == TrueRanges(candles, lo, hi)[k] {
    }
  }

  lemma TrueRangesStart(candles: seq<Candle>)
    ensures TrueRanges(candles, 0, 0) == []
  {
  }

  lemma TrueRangesGrow(candles: seq<Candle>, i: nat)
    requires i < |candles|
    ensures TrueRanges(candles, 0, i + 1) == TrueRanges(candles, 0, i) + [TrueRange(candles, i)]
  {
  }

  lemma AtrIs(candles: seq<Candle>, period: nat, i: nat)
    requires i < |candles| && period > 0
    ensures i + 1 < period ==> AtrAt(candles, period, i) == None
    ensures i + 1 >= period ==>
      && |TrueRanges(candles, i + 1 - period, i + 1)| == period
      && AtrAt(candles, period, i) == Some(Average(TrueRanges(candles, i + 1 - period, i + 1)))
  {
  }

  /** The window of collected ranges that ends at candle `i` holds the ranges its average is taken over. */
  lemma AtrFromWindow(candles: seq<Candle>, trs: seq<real>, period: nat, i: nat)
    requires i < |candles| && period > 0 && i + 1 >= period
    requires |trs| == i + 1 && trs == TrueRanges(candles, 0, i + 1)
    ensures |trs[i + 1 - period..i + 1]| == period
    ensures AtrAt(candles, period, i) == Some(Average(trs[i + 1 - period..i + 1]))
  {
    hide Average, TrueRange, TrueRangeFrom, TrueRanges, AtrAt;
    AtrIs(candles, period, i);
    TrueRangesSlice(candles, i + 1 - period, i + 1);
  }

  method ComputeAtr(candles: seq<Candle>, period: nat) returns (result: seq<Option<real>>)
    requires period > 0
    ensures |result| == |candles|
    ensures forall i :: 0 <= i < |candles| ==> result[i] == AtrAt(candles, period, i)
  {
    hide Average, TrueRangeFrom, TrueRanges, AtrAt;
    result := [];
    TrueRangesStart(candles);
    var trs: seq<real> := [];
    var prevClose := if |candles| > 0 then candles[0].close else 0.0;
    for index := 0 to |candles|
      invariant |result| == index
      invariant trs == TrueRanges(candles, 0, index) && |trs| == index
      invariant index < |candles| ==> prevClose == candles[if index == 0 then 0 else index - 1].close
      invariant forall i :: 0 <= i < index ==> result[i] == AtrAt(candles, period, i)
    {
      var candle := candles[index];
      var tr := TrueRangeFrom(prevClose, candle);
      assert tr == TrueRange(candles, index);
      TrueRangesGrow(candles, index);
      trs := trs + [tr];
      prevClose := candle.close;
      var atr := None;
      if index + 1 >= period {
        AtrFromWindow(candles, trs, period, index);
        var window := trs[index + 1 - period..index + 1];
        atr := Some(Average(window));
      } else {
        AtrIs(candles, period, index);
      }
      assert atr == AtrAt(candles, period, index);
      result := result + [atr];
    }
  }

  // ---- the ZigZag automaton ----

  datatype Trend = Undecided | Rising | Falling

  /** The detector between two candles: the leg it follows and that leg's extreme so far. */
  datatype ZigZag = ZigZag(trend: Trend, extreme: real, pivots: seq<Pivot>)

  const PRICE_FLOOR := 0.0000001

  function Threshold(p: Profile, atr: Option<real>, pivotPrice: real): real {
    if p.waveEngine == PctZigZag then pivotPrice * p.pctMove
    else Max(0.0, (match atr case Some(v) => v case None => 0.0) * p.atrMult)
  }

  /** A fall of at least `threshold` from the running high confirms a high on this candle. */
  predicate ConfirmsHigh(extreme: real, c: Candle, threshold: real) {
    Max(c.high, extreme) - c.low >= threshold > 0.0
  }

  predicate ConfirmsLow(extreme: real, c: Candle, threshold: real) {
    c.high - Min(c.low, extreme) >= threshold > 0.0
  }

  function Advance(z: ZigZag, c: Candle, index: nat, threshold: real): ZigZag {
    if z.trend != Falling && ConfirmsHigh(z.extreme, c, threshold) then
      ZigZag(Falling, c.low, z.pivots + [Pivot(c.ts, Max(c.high, z.extreme), High, index, threshold)])
    else if z.trend == Rising then
      z.(extreme := Max(c.high, z.extreme))
    else
      var extreme := if z.trend == Undecided then Max(c.high, z.extreme) else z.extreme;
      if ConfirmsLow(extreme, c, threshold) then
        ZigZag(Rising, c.high, z.pivots + [Pivot(c.ts, Min(c.low, extreme), Low, index, threshold)])
      else
        z.(extreme := Min(c.low, extreme))
  }

  /** The detector after the first `n` candles. */
  function ZigZagAfter(candles: seq<Candle>, p: Profile, n: nat): ZigZag
    requires 1 <= n <= |candles| && p.atrPeriod > 0
  {
    if n == 1 then ZigZag(Undecided, candles[0].close, [])
    else
      var z := ZigZagAfter(candles, p, n - 1);
      var atr := AtrAt(candles, p.atrPeriod, n - 1);
      Advance(z, candles[n - 1], n - 1, Threshold(p, atr, Max(z.extreme, PRICE_FLOOR)))
  }

  /** The pivots of a series in the order they are confirmed. */
  function PivotsOf(candles: seq<Candle>, p: Profile): seq<Pivot>
    requires p.atrPeriod > 0
  {
    if |candles| < 3 then [] else ZigZagAfter(candles, p, |candles|).pivots
  }

  // ---- structure of the pivot list ----

  ghost predicate IsMaxHigh(price: real, candles: seq<Candle>, lo: nat, hi: nat)
    requires hi <= |candles|
  {
    && (forall i :: lo <= i < hi ==> candles[i].high <= price)
    && (exists i :: lo <= i < hi && candles[i].high == price)
  }

  ghost predicate IsMinLow(price: real, candles: seq<Candle>, lo: nat, hi: nat)
    requires hi <= |candles|
  {
    && (forall i :: lo <= i < hi ==> price <= candles[i].low)
    && (exists i :: lo <= i < hi && candles[i].low == price)
  }

  /** A pivot carries its confirming candle's time, and that candle lies beyond it by the threshold. */
  ghost predicate Confirmed(v: Pivot, candles: seq<Candle>) {
    && 1 <= v.index < |candles|
    && v.ts == candles[v.index].ts
    && v.threshold > 0.0
    && (if v.kind == High
        then v.price >= candles[v.index].high && v.price - candles[v.index].low >= v.threshold
        else v.price <= candles[v.index].low && candles[v.index].high - v.price >= v.threshold)
  }

  /** `next` is the exact extreme of the leg that starts on the candle confirming `prev`. */
  ghost predicate LegEnds(prev: Pivot, next: Pivot, candles: seq<Candle>)
    requires next.index < |candles|
  {
    && prev.kind != next.kind
    && prev.index < next.index
    && (if next.kind == High
        then IsMaxHigh(next.price, candles, prev.index, next.index + 1)
        else IsMinLow(next.price, candles, prev.index, next.index + 1))
  }

  ghost predicate Structured(pivots: seq<Pivot>, candles: seq<Candle>) {
    && (forall k :: 0 <= k < |pivots| ==> Confirmed(pivots[k], candles))
    && (forall j, k :: 0 <= j < k < |pivots| && k == j + 1 ==> LegEnds(pivots[j], pivots[k], candles))
  }

  ghost predicate Consistent(z: ZigZag, candles: seq<Candle>, n: nat)
    requires n <= |candles|
  {
    && Structured(z.pivots, candles)
    && (z.trend == Undecided <==> z.pivots == [])
    && (z.pivots != [] ==>
          var last := z.pivots[|z.pivots| - 1];
          && last.index < n
          && (if z.trend == Falling
              then last.kind == High && IsMinLow(z.extreme, candles, last.index, n)
              else last.kind == Low && IsMaxHigh(z.extreme, candles, last.index, n)))
  }

  lemma AppendPivot(pivots: seq<Pivot>, v: Pivot, candles: seq<Candle>)
    requires Structured(pivots, candles) && Confirmed(v, candles)
    requires pivots != [] ==> LegEnds(pivots[|pivots| - 1], v, candles)
    ensures Structured(pivots + [v], candles)
  {
    var all := pivots + [v];
    forall j, k | 0 <= j < k < |all| && k == j + 1 ensures LegEnds(all[j], all[k], candles) {
      if k < |pivots| {
        assert all[j] == pivots[j] && all[k] == pivots[k];
      }
    }
  }

  lemma ExtendMaxHigh(price: real, candles: seq<Candle>, lo: nat, n: nat)
    requires n < |candles| && IsMaxHigh(price, candles, lo, n)
    ensures IsMaxHigh(Max(candles[n].high, price), candles, lo, n + 1)
  {
    var i :| lo <= i < n && candles[i].high == price;
    var j := if candles[n].high >= price then n else i;
    assert candles[j].high == Max(candles[n].high, price);
  }

  lemma ExtendMinLow(price: real, candles: seq<Candle>, lo: nat, n: nat)
    requires n < |candles| && IsMinLow(price, candles, lo, n)
    ensures IsMinLow(Min(candles[n].low, price), candles, lo, n + 1)
  {
    var i :| lo <= i < n && candles[i].low == price;
    var j := if candles[n].low <= price then n else i;
    assert candles[j].low == Min(candles[n].low, price);
  }

  lemma ConfirmHigh(z: ZigZag, candles: seq<Candle>, n: nat, threshold: real)
    requires Series(candles) && 1 <= n < |candles| && Consistent(z, candles, n)
    requires z.trend != Falling && ConfirmsHigh(z.extreme, candles[n], threshold)
    ensures Consistent(Advance(z, candles[n], n, threshold), candles, n + 1)
  {
    var c := candles[n];
    var v := Pivot(c.ts, Max(c.high, z.extreme), High, n, threshold);
    if z.pivots != [] {
      ExtendMaxHigh(z.extreme, candles, z.pivots[|z.pivots| - 1].index, n);
    }
    AppendPivot(z.pivots, v, candles);
    assert candles[n].low == c.low;
    assert IsMinLow(c.low, candles, n, n + 1);
  }

  lemma ConfirmLow(z: ZigZag, candles: seq<Candle>, n: nat, extreme: real, threshold: real)
    requires Series(candles) && 1 <= n < |candles| && Consistent(z, candles, n)
    requires z.trend != Rising && ConfirmsLow(extreme, candles[n], threshold)
    requires z.trend == Falling ==> extreme == z.extreme
    ensures var v := Pivot(candles[n].ts, Min(candles[n].low, extreme), Low, n, threshold);
      Consistent(ZigZag(Rising, candles[n].high, z.pivots + [v]), candles, n + 1)
  {
    var c := candles[n];
    var v := Pivot(c.ts, Min(c.low, extreme), Low, n, threshold);
    if z.pivots != [] {
      ExtendMinLow(z.extreme, candles, z.pivots[|z.pivots| - 1].index, n);
    }
    AppendPivot(z.pivots, v, candles);
    assert candles[n].high == c.high;
    assert IsMaxHigh(c.high, candles, n, n + 1);
  }

  lemma AdvanceConsistent(z: ZigZag, candles: seq<Candle>, n: nat, threshold: real)
    requires Series(candles) && 1 <= n < |candles|
    requires Consistent(z, candles, n)
    ensures Consistent(Advance(z, candles[n], n, threshold), candles, n + 1)
  {
    var c := candles[n];
    if z.trend != Falling && ConfirmsHigh(z.extreme, c, threshold) {
      ConfirmHigh(z, candles, n, threshold);
    } else if z.trend == Rising {
      ExtendMaxHigh(z.extreme, candles, z.pivots[|z.pivots| - 1].index, n);
    } else {
      var extreme := if z.trend == Undecided then Max(c.high, z.extreme) else z.extreme;
      if ConfirmsLow(extreme, c, threshold) {
        ConfirmLow(z, candles, n, extreme, threshold);
      } else if z.trend == Falling {
        ExtendMinLow(z.extreme, candles, z.pivots[|z.pivots| - 1].index, n);
      }
    }
  }

  lemma StartConsistent(candles: seq<Candle>, p: Profile)
    requires candles != [] && p.atrPeriod > 0
    ensures Consistent(ZigZagAfter(candles, p, 1), candles, 1)
  {
  }

  lemma {:induction false} ZigZagConsistent(candles: seq<Candle>, p: Profile, n: nat)
    requires Series(candles) && 1 <= n <= |candles| && p.atrPeriod > 0
    ensures Consistent(ZigZagAfter(candles, p, n), candles, n)
  {
    hide Threshold, AtrAt, Max, Advance, Consistent, Series;
    if n == 1 {
      StartConsistent(candles, p);
    } else {
      ZigZagConsistent(candles, p, n - 1);
      var z := ZigZagAfter(candles, p, n - 1);
      AdvanceConsistent(z, candles, n - 1,
                        Threshold(p, AtrAt(candles, p.atrPeriod, n - 1), Max(z.extreme, PRICE_FLOOR)));
    }
  }

  lemma {:induction false} PivotIndexesIncrease(pivots: seq<Pivot>, candles: seq<Candle>, i: nat, j: nat)
    requires Series(candles) && Structured(pivots, candles) && i < j < |pivots|
    ensures pivots[i].index < pivots[j].index && pivots[i].ts < pivots[j].ts
  {
    assert LegEnds(pivots[j - 1], pivots[j], candles);
    if i + 1 < j {
      PivotIndexesIncrease(pivots, candles, i, j - 1);
    }
  }

  ghost predicate Chronological(v: seq<Pivot>) {
    forall i, j :: 0 <= i < j < |v| ==> v[i].index < v[j].index && v[i].ts < v[j].ts
  }

  ghost predicate Separated(v: seq<Pivot>) {
    forall j, k :: 0 <= j < k < |v| && k == j + 1 ==> Abs(v[k].price - v[j].price) >= v[j].threshold > 0.0
  }

  lemma LegLength(prev: Pivot, next: Pivot, candles: seq<Candle>)
    requires Confirmed(prev, candles) && next.index < |candles| && LegEnds(prev, next, candles)
    ensures Abs(next.price - prev.price) >= prev.threshold > 0.0
  {
    var c := candles[prev.index];
    if next.kind == High {
      assert c.high <= next.price;
    } else {
      assert next.price <= c.low;
    }
  }

  /**
   ZigZag structure: kinds alternate, every pivot after the first is the exact
   extreme since the candle that confirmed its predecessor, neighbouring prices
   are at least the earlier pivot's threshold apart, and confirmations never
   share a candle.
   */
  lemma PivotStructure(candles: seq<Candle>, p: Profile)
    requires Series(candles) && p.atrPeriod > 0
    ensures Structured(PivotsOf(candles, p), candles)
    ensures Chronological(PivotsOf(candles, p))
    ensures Separated(PivotsOf(candles, p))
  {
    var v := PivotsOf(candles, p);
    if |candles| >= 3 {
      ZigZagConsistent(candles, p, |candles|);
    }
    forall i, j | 0 <= i < j < |v| ensures v[i].index < v[j].index && v[i].ts < v[j].ts {
      PivotIndexesIncrease(v, candles, i, j);
    }
    forall j, k | 0 <= j < k < |v| && k == j + 1 ensures Abs(v[k].price - v[j].price) >= v[j].threshold > 0.0 {
      LegLength(v[j], v[k], candles);
    }
  }

  // ---- no repainting ----

  lemma AtrPrefix(candles: seq<Candle>, m: nat, period: nat, i: nat)
    requires i < m <= |candles| && period > 0
    ensures AtrAt(candles[..m], period, i) == AtrAt(candles, period, i)
  {
    if i + 1 >= period {
      forall k | i + 1 - period <= k <= i ensures TrueRange(candles[..m], k) == TrueRange(candles, k) {
      }
      assert TrueRanges(candles[..m], i + 1 - period, i + 1) == TrueRanges(candles, i + 1 - period, i + 1);
    }
  }

  lemma {:induction false} ZigZagPrefix(candles: seq<Candle>, p: Profile, m: nat, n: nat)
    requires 1 <= n <= m <= |candles| && p.atrPeriod > 0
    ensures ZigZagAfter(candles[..m], p, n) == ZigZagAfter(candles, p, n)
  {
    if n > 1 {
      ZigZagPrefix(candles, p, m, n - 1);
      AtrPrefix(candles, m, p.atrPeriod, n - 1);
    }
  }

  /** Later candles only append pivots, and only pivots confirmed on those candles. */
  lemma {:induction false} PivotsOnlyAppend(candles: seq<Candle>, p: Profile, m: nat, n: nat)
    requires 1 <= m <= n <= |candles| && p.atrPeriod > 0
    ensures var known := ZigZagAfter(candles, p, m).pivots; var all := ZigZagAfter(candles, p, n).pivots;
      && |known| <= |all| && all[..|known|] == known
      && forall k :: |known| <= k < |all| ==> m <= all[k].index < n && all[k].ts == candles[all[k].index].ts
  {
    hide Threshold, AtrAt, ConfirmsHigh, ConfirmsLow, Max, Min;
    if m < n {
      PivotsOnlyAppend(candles, p, m, n - 1);
    }
  }

  /** Whether the second candle already crosses the reversal threshold. */
  predicate SecondCandleConfirms(candles: seq<Candle>, p: Profile)
    requires |candles| >= 2 && p.atrPeriod > 0
  {
    var threshold := Threshold(p, AtrAt(candles, p.atrPeriod, 1), Max(candles[0].close, PRICE_FLOOR));
    || ConfirmsHigh(candles[0].close, candles[1], threshold)
    || ConfirmsLow(Max(candles[1].high, candles[0].close), candles[1], threshold)
  }

  /**
   Truncation is harmless unless it leaves exactly two candles of a longer
   series whose second candle confirms a pivot: the detector wants three.
   */
  predicate PivotsDecided(candles: seq<Candle>, p: Profile, t: int)
    requires p.atrPeriod > 0
  {
    |candles| < 3 || CountUpTo(candles, t) != 2 || !SecondCandleConfirms(candles, p)
  }

  /** What the full run knows at `t` is what the detector had built by the last candle up to `t`. */
  lemma PivotsUpTo(candles: seq<Candle>, p: Profile, t: int)
    requires Series(candles) && p.atrPeriod > 0 && |candles| >= 3
    ensures var m := CountUpTo(candles, t);
      Filter(PivotsOf(candles, p), (v: Pivot) => v.ts <= t)
        == if m == 0 then [] else ZigZagAfter(candles[..m], p, m).pivots
  {
    var m, n := CountUpTo(candles, t), |candles|;
    var v := PivotsOf(candles, p);
    if m == 0 {
      PivotsOnlyAppend(candles, p, 1, n);
      FilterNone(v, (x: Pivot) => x.ts <= t) by { AppendedLater(candles, p, t, 1); }
    } else {
      PivotsOnlyAppend(candles, p, m, n);
      ZigZagPrefix(candles, p, m, m);
      var known := |ZigZagAfter(candles, p, m).pivots|;
      FilterPrefix(v, (x: Pivot) => x.ts <= t, known) by {
        AppendedLater(candles, p, t, m);
        KnownEarlier(candles, p, t, m);
      }
    }
  }

  /** Pivots the detector adds after its first `m` candles are confirmed after `t`. */
  lemma AppendedLater(candles: seq<Candle>, p: Profile, t: int, m: nat)
    requires Series(candles) && p.atrPeriod > 0 && |candles| >= 3
    requires 1 <= m <= |candles| && CountUpTo(candles, t) <= m
    ensures forall k :: |ZigZagAfter(candles, p, m).pivots| <= k < |PivotsOf(candles, p)| ==>
      PivotsOf(candles, p)[k].ts > t
  {
    TruncateIsPrefix(candles, t);
    hide ZigZagAfter;
    PivotsOnlyAppend(candles, p, m, |candles|);
  }

  /** Pivots the detector has after its first `m` candles were confirmed by the last of them. */
  lemma KnownEarlier(candles: seq<Candle>, p: Profile, t: int, m: nat)
    requires Series(candles) && p.atrPeriod > 0
    requires 1 <= m <= CountUpTo(candles, t)
    ensures forall v :: v in ZigZagAfter(candles, p, m).pivots ==> v.ts <= t
  {
    hide ZigZagAfter;
    TruncateIsPrefix(candles, t);
    ZigZagConsistent(candles, p, m);
    var v := ZigZagAfter(candles, p, m).pivots;
    forall k | 0 <= k < |v| ensures v[k].ts <= t {
      if k < |v| - 1 {
        PivotIndexesIncrease(v, candles, k, |v| - 1);
      }
    }
  }

  /**
   No repainting: the pivots of the data known at `t` are exactly the full
   run's pivots up to `t` - if and only if the truncation is harmless.
   */
  lemma PivotsDoNotRepaint(candles: seq<Candle>, p: Profile, t: int)
    requires Series(candles) && p.atrPeriod > 0
    ensures PivotsDecided(candles, p, t)
       <==> PivotsOf(Truncate(candles, t), p) == Filter(PivotsOf(candles, p), (v: Pivot) => v.ts <= t)
  {
    TruncateIsPrefix(candles, t);
    var m := CountUpTo(candles, t);
    if |candles| >= 3 {
      PivotsUpTo(candles, p, t);
      if m == 1 {
        assert ZigZagAfter(candles[..m], p, 1).pivots == [];
      } else if m == 2 {
        ZigZagPrefix(candles, p, 2, 2);
        AtrPrefix(candles, 2, p.atrPeriod, 1);
        assert ZigZagAfter(candles, p, 1) == ZigZag(Undecided, candles[0].close, []);
      }
    }
  }

  /** The data cut at `t` has other pivots than the full run has by `t`. */
  ghost predicate PivotsRepaint(candles: seq<Candle>, p: Profile, t: int)
    requires p.atrPeriod > 0
  {
    Series(candles) && PivotsOf(Truncate(candles, t), p) != Filter(PivotsOf(candles, p), (v: Pivot) => v.ts <= t)
  }

  /** The settings under which a second candle can cross the reversal threshold at all. */
  predicate EagerZigZag(p: Profile) {
    p.waveEngine == PctZigZag || (p.atrPeriod == 2 && p.atrMult <= 2.0)
  }

  /**
   Exactly the eager settings let pivots repaint: of a percentage zigzag, and of
   an average over two candles with a multiplier of at most two.
   */
  lemma PivotsCanRepaint(p: Profile)
    requires Normalized(p)
    ensures EagerZigZag(p) <==> exists candles: seq<Candle>, t: int :: PivotsRepaint(candles, p, t)
  {
    if EagerZigZag(p) {
      TwoCandlesRepaint(p);
    } else if candles: seq<Candle>, t: int :| PivotsRepaint(candles, p, t) {
      PivotsDoNotRepaint(candles, p, t);
      PatientSecondCandle(candles, p);
    }
  }

  lemma TwoCandlesRepaint(p: Profile)
    requires Normalized(p) && EagerZigZag(p)
    ensures exists candles: seq<Candle>, t: int :: PivotsRepaint(candles, p, t)
  {
    var a, b := Candle(1, 100.0, 100.0, 100.0, 100.0), Candle(2, 90.0, 90.0, 90.0, 90.0);
    var candles := [a, b, b.(ts := 3)];
    TruncateIsPrefix(candles, 2);
    assert candles[0].ts <= 2 && candles[1].ts <= 2 && candles[2].ts > 2;
    AtrOfTwo(candles);
    PivotsDoNotRepaint(candles, p, 2);
    assert PivotsRepaint(candles, p, 2);
  }

  /** The average of the first two true ranges. */
  lemma AtrOfTwo(candles: seq<Candle>)
    requires |candles| >= 2
    ensures AtrAt(candles, 2, 1) == Some((TrueRange(candles, 0) + TrueRange(candles, 1)) / 2.0)
  {
    var ranges := TrueRanges(candles, 0, 2);
    assert ranges[..1] == [TrueRange(candles, 0)] && ranges[..1][..0] == [];
    assert Sum(ranges) == Sum(ranges[..1]) + TrueRange(candles, 1);
  }

  /** Without eager settings no second candle confirms a pivot. */
  lemma PatientSecondCandle(candles: seq<Candle>, p: Profile)
    requires Normalized(p) && !EagerZigZag(p) && Series(candles) && |candles| >= 2
    ensures !SecondCandleConfirms(candles, p)
  {
    if p.atrPeriod == 2 {
      AtrOfTwo(candles);
      var first, second := TrueRange(candles, 0), TrueRange(candles, 1);
      hide AtrAt;
      assert first >= 0.0 && second >= 0.0;
      HalfTimes(first + second, second, p.atrMult);
    }
  }

  lemma HalfTimes(sum: real, part: real, factor: real)
    requires 0.0 <= part <= sum && factor > 2.0
    ensures sum / 2.0 * factor > part || sum == 0.0
  {
    assert sum > 0.0 ==> sum / 2.0 * (factor - 2.0) > 0.0;
  }

  // ---- the detector ----

  function PivotLe(a: Pivot, b: Pivot): bool { a.ts <= b.ts }

  /** Keeps the more extreme of neighbouring pivots of one kind and time. */
  method DedupePivots(pivots: seq<Pivot>) returns (result: seq<Pivot>)
    ensures Chronological(pivots) ==> result == pivots
    ensures forall j, k :: 0 <= j < k < |result| && k == j + 1 ==>
      result[j].ts != result[k].ts || result[j].kind != result[k].kind
  {
    result := [];
    for k := 0 to |pivots|
      invariant Chronological(pivots) ==> result == pivots[..k]
      invariant forall i, j :: 0 <= i < j < |result| && j == i + 1 ==>
        result[i].ts != result[j].ts || result[i].kind != result[j].kind
    {
      var pivot := pivots[k];
      if |result| > 0 && result[|result| - 1].ts == pivot.ts && result[|result| - 1].kind == pivot.kind {
        if pivot.kind == High && pivot.price > result[|result| - 1].price {
          result := result[..|result| - 1] + [pivot];
        } else if pivot.kind == Low && pivot.price < result[|result| - 1].price {
          result := result[..|result| - 1] + [pivot];
        }
        continue;
      }
      result := result + [pivot];
    }
  }

  /** Pivot detection; the closing sort and dedupe passes leave the list as the loop built it. */
  method DetectPivots(candles: seq<Candle>, p: Profile) returns (result: seq<Pivot>)
    requires Series(candles) && p.atrPeriod > 0
    ensures result == PivotsOf(candles, p)
  {
    if |candles| < 3 { return []; }
    var atrs := ComputeAtr(candles, p.atrPeriod);
    var pivots: seq<Pivot> := [];
    var trend := Undecided;
    var extreme := candles[0].close;
    for index := 1 to |candles|
      invariant ZigZag(trend, extreme, pivots) == ZigZagAfter(candles, p, index)
    {
      var candle := candles[index];
      var threshold := Threshold(p, atrs[index], Max(extreme, PRICE_FLOOR));
      if trend == Undecided || trend == Rising {
        if candle.high >= extreme {
          extreme := candle.high;
        }
        if extreme - candle.low >= threshold > 0.0 {
          pivots := pivots + [Pivot(candle.ts, extreme, High, index, threshold)];
          trend := Falling;
          extreme := candle.low;
          continue;
        }
      }
      if trend == Undecided || trend == Falling {
        if candle.low <= extreme {
          extreme := candle.low;
        }
        if candle.high - extreme >= threshold > 0.0 {
          pivots := pivots + [Pivot(candle.ts, extreme, Low, index, threshold)];
          trend := Rising;
          extreme := candle.high;
        }
      }
    }
    PivotStructure(candles, p);
    SortIdentity(pivots, PivotLe);
    pivots := StableSort(pivots, PivotLe);
    result := DedupePivots(pivots);
  }
}
