/**
 Where the pivots of a series are, told from its candles: on which candles the zigzag
 turns and on which it does not, and the reversal that a turn takes.
 */
module PivotAudit {
  import opened Prelude
  import opened Candles
  import opened Pivots

  /** The true ranges of the `n` candles that end at candle `i`; the first candle of all follows itself. */
  ghost predicate AreRanges(ranges: seq<real>, candles: seq<Candle>, n: nat, i: nat) {
    && |ranges| == n <= i + 1 <= |candles|
    && forall k :: 0 <= k < n ==>
         var j := i + 1 - n + k;
         IsTrueRange(ranges[k], candles[if j == 0 then 0 else j - 1], candles[j])
  }

  /** A multiple of a mean, or nothing when that is negative. */
  predicate IsMultiple(reversal: real, total: real, p: Profile)
    requires p.atrPeriod > 0
  {
    var multiple := total * p.atrMult / p.atrPeriod as real;
    reversal == if multiple >= 0.0 then multiple else 0.0
  }

  /** The reversal that turns the leg: a share of its extreme, or a multiple of the mean true range. */
  ghost predicate IsReversal(reversal: real, candles: seq<Candle>, p: Profile, extreme: real, m: nat)
    requires p.atrPeriod > 0
  {
    match p.waveEngine
    case PctZigZag => reversal == (if extreme >= 0.0000001 then extreme else 0.0000001) * p.pctMove
    case AtrZigZag =>
      if m + 1 < p.atrPeriod then reversal == 0.0
      else exists ranges: seq<real> ::
        AreRanges(ranges, candles, p.atrPeriod, m) && IsMultiple(reversal, Sum(ranges), p)
  }

  /**
   The extreme before candle `m` of the leg that follows pivot `k - 1`: the lowest
   low after a high, the highest high after a low. Before the first pivot it is the
   low of the candle before, and at first the opening candle's close.
   */
  ghost predicate IsExtreme(x: real, candles: seq<Candle>, pivots: seq<Pivot>, k: nat, m: nat)
    requires 1 <= m <= |candles| && k <= |pivots|
  {
    if k == 0 then x == if m == 1 then candles[0].close else candles[m - 1].low
    else if pivots[k - 1].kind == High then IsMinLow(x, candles, pivots[k - 1].index, m)
    else IsMaxHigh(x, candles, pivots[k - 1].index, m)
  }

  function Higher(a: real, b: real): real { if a >= b then a else b }

  function Lower(a: real, b: real): real { if a <= b then a else b }

  /**
   Candle `m`, with `k` pivots before it: a first pivot or one after a low is a high,
   taken exactly when the candle's low lies the reversal under the highest price of
   the leg; one after a high is a low, taken exactly when the candle's high lies the
   reversal over its lowest price.
   */
  ghost predicate TurnIs(candles: seq<Candle>, p: Profile, pivots: seq<Pivot>, m: nat, k: nat, x: real, reversal: real)
    requires 1 <= m < |candles| && p.atrPeriod > 0
  {
    var c := candles[m];
    && k <= |pivots|
    && (forall j :: 0 <= j < k ==> pivots[j].index < m)
    && (forall j :: k <= j < |pivots| ==> pivots[j].index >= m)
    && IsExtreme(x, candles, pivots, k, m) && IsReversal(reversal, candles, p, x, m)
    && var turns := k < |pivots| && pivots[k].index == m;
       if k == 0 || pivots[k - 1].kind == Low then
         && (turns <==> Higher(c.high, x) - c.low >= reversal > 0.0)
         && (turns ==> pivots[k] == Pivot(c.ts, Higher(c.high, x), High, m, reversal))
       else
         && (turns <==> c.high - Lower(c.low, x) >= reversal > 0.0)
         && (turns ==> pivots[k] == Pivot(c.ts, Lower(c.low, x), Low, m, reversal))
  }

  ghost predicate TurnTold(candles: seq<Candle>, p: Profile, pivots: seq<Pivot>, m: nat)
    requires 1 <= m < |candles| && p.atrPeriod > 0
  {
    exists k: nat, x: real, reversal: real :: TurnIs(candles, p, pivots, m, k, x, reversal)
  }

  /** The pivots of a series: none of fewer than three candles, none on the first, and elsewhere where the leg turns. */
  ghost predicate TurnsTold(candles: seq<Candle>, p: Profile, pivots: seq<Pivot>)
    requires p.atrPeriod > 0
  {
    if |candles| < 3 then pivots == []
    else
      && (forall k :: 0 <= k < |pivots| ==> 1 <= pivots[k].index < |candles|)
      && forall m :: 1 <= m < |candles| ==> TurnTold(candles, p, pivots, m)
  }

  // ---- the proof ----

  lemma RangesAre(candles: seq<Candle>, n: nat, i: nat)
    requires n <= i + 1 <= |candles|
    ensures AreRanges(TrueRanges(candles, i + 1 - n, i + 1), candles, n, i)
  {
    var ranges := TrueRanges(candles, i + 1 - n, i + 1);
    forall k | 0 <= k < n
      ensures var j := i + 1 - n + k; IsTrueRange(ranges[k], candles[if j == 0 then 0 else j - 1], candles[j])
    {
      assert ranges[k] == TrueRange(candles, i + 1 - n + k);
    }
  }

  lemma QuotientFirst(total: real, n: real, factor: real)
    requires n > 0.0
    ensures total / n * factor == total * factor / n
  {
  }

  lemma MultipleIs(p: Profile, ranges: seq<real>)
    requires |ranges| == p.atrPeriod > 0
    ensures IsMultiple(Max(0.0, Average(ranges) * p.atrMult), Sum(ranges), p)
  {
    QuotientFirst(Sum(ranges), p.atrPeriod as real, p.atrMult);
    hide Sum;
  }

  lemma ReversalIs(candles: seq<Candle>, p: Profile, extreme: real, m: nat)
    requires 1 <= m < |candles| && p.atrPeriod > 0
    ensures IsReversal(Threshold(p, AtrAt(candles, p.atrPeriod, m), Max(extreme, PRICE_FLOOR)), candles, p, extreme, m)
  {
    if p.waveEngine == AtrZigZag {
      AtrIs(candles, p.atrPeriod, m);
      if m + 1 >= p.atrPeriod {
        var ranges := TrueRanges(candles, m + 1 - p.atrPeriod, m + 1);
        RangesAre(candles, p.atrPeriod, m);
        MultipleIs(p, ranges);
        hide AreRanges, TrueRanges, AtrAt, Average, IsMultiple;
        assert AreRanges(ranges, candles, p.atrPeriod, m);
        assert IsMultiple(Max(0.0, Average(ranges) * p.atrMult), Sum(ranges), p);
      }
    }
  }

  /** Before the first pivot the detector holds the low of the candle before. */
  lemma UndecidedExtreme(candles: seq<Candle>, p: Profile, n: nat)
    requires Series(candles) && 1 <= n <= |candles| && p.atrPeriod > 0
    requires ZigZagAfter(candles, p, n).trend == Undecided
    ensures ZigZagAfter(candles, p, n).extreme == if n == 1 then candles[0].close else candles[n - 1].low
  {
    hide Threshold, AtrAt;
    if n > 1 {
      assert WellFormed(candles[n - 1]);
    }
  }

  lemma StepTurns(z: ZigZag, c: Candle, m: nat, reversal: real)
    requires WellFormed(c)
    ensures var after := Advance(z, c, m, reversal).pivots;
      if z.trend != Falling then
        after == if Higher(c.high, z.extreme) - c.low >= reversal > 0.0
                 then z.pivots + [Pivot(c.ts, Higher(c.high, z.extreme), High, m, reversal)] else z.pivots
      else
        after == if c.high - Lower(c.low, z.extreme) >= reversal > 0.0
                 then z.pivots + [Pivot(c.ts, Lower(c.low, z.extreme), Low, m, reversal)] else z.pivots
  {
  }

  lemma KnownBefore(candles: seq<Candle>, p: Profile, m: nat, j: nat)
    requires Series(candles) && p.atrPeriod > 0 && 1 <= m <= |candles| && j < |ZigZagAfter(candles, p, m).pivots|
    ensures ZigZagAfter(candles, p, m).pivots[j].index < m
  {
    ZigZagConsistent(candles, p, m);
    hide ZigZagAfter, Series;
    var known := ZigZagAfter(candles, p, m).pivots;
    if j < |known| - 1 {
      hide Structured;
      PivotIndexesIncrease(known, candles, j, |known| - 1);
    }
  }

  /** The pivots before candle `m`, and the one on it, if any. */
  lemma PivotsSplit(candles: seq<Candle>, p: Profile, m: nat)
    requires Series(candles) && p.atrPeriod > 0 && 1 <= m < |candles| && |candles| >= 3
    ensures var v, known, next := PivotsOf(candles, p), ZigZagAfter(candles, p, m).pivots,
                                  ZigZagAfter(candles, p, m + 1).pivots;
      && |known| <= |next| <= |v| && v[..|next|] == next && v[..|known|] == known
      && (forall j :: 0 <= j < |known| ==> v[j].index < m)
      && (forall j :: |known| <= j < |v| ==> v[j].index >= m)
      && (forall j :: |next| <= j < |v| ==> v[j].index > m)
  {
    var known, next, v := ZigZagAfter(candles, p, m).pivots, ZigZagAfter(candles, p, m + 1).pivots,
                          ZigZagAfter(candles, p, |candles|).pivots;
    assert v == PivotsOf(candles, p);
    hide ZigZagAfter, Series, PivotsOf;
    PivotsOnlyAppend(candles, p, m, |candles|);
    PivotsOnlyAppend(candles, p, m + 1, |candles|);
    PivotsOnlyAppend(candles, p, m, m + 1);
    forall j | 0 <= j < |known| ensures v[j].index < m {
      KnownBefore(candles, p, m, j);
      assert v[j] == v[..|known|][j];
    }
  }

  lemma ExtremeIs(candles: seq<Candle>, p: Profile, m: nat)
    requires Series(candles) && p.atrPeriod > 0 && 1 <= m < |candles|
    ensures var z := ZigZagAfter(candles, p, m);
      && IsExtreme(z.extreme, candles, z.pivots, |z.pivots|, m)
      && (z.trend == Falling <==> z.pivots != [] && z.pivots[|z.pivots| - 1].kind == High)
  {
    ZigZagConsistent(candles, p, m);
    if ZigZagAfter(candles, p, m).trend == Undecided {
      UndecidedExtreme(candles, p, m);
    }
    hide ZigZagAfter, Series, IsMinLow, IsMaxHigh, Structured;
  }

  lemma CandleTurns(candles: seq<Candle>, p: Profile, m: nat)
    requires Series(candles) && p.atrPeriod > 0 && 1 <= m < |candles| && |candles| >= 3
    ensures TurnTold(candles, p, PivotsOf(candles, p), m)
  {
    var z := ZigZagAfter(candles, p, m);
    var reversal := Threshold(p, AtrAt(candles, p.atrPeriod, m), Max(z.extreme, PRICE_FLOOR));
    assert WellFormed(candles[m]);
    assert ZigZagAfter(candles, p, m + 1) == Advance(z, candles[m], m, reversal);
    hide ZigZagAfter, Advance, Threshold, AtrAt, IsReversal, Series, Max, WellFormed, PivotsOf, IsExtreme;
    StepTurns(z, candles[m], m, reversal);
    ReversalIs(candles, p, z.extreme, m);
    ExtremeIs(candles, p, m);
    PivotsSplit(candles, p, m);
    SplitTurns(candles, p, m, z, ZigZagAfter(candles, p, m + 1).pivots, PivotsOf(candles, p), reversal);
  }

  lemma SplitTurns(candles: seq<Candle>, p: Profile, m: nat, z: ZigZag, next: seq<Pivot>, v: seq<Pivot>, reversal: real)
    requires 1 <= m < |candles| && p.atrPeriod > 0
    requires |z.pivots| <= |next| <= |v| && v[..|next|] == next && v[..|z.pivots|] == z.pivots
    requires forall j :: 0 <= j < |z.pivots| ==> v[j].index < m
    requires forall j :: |z.pivots| <= j < |v| ==> v[j].index >= m
    requires forall j :: |next| <= j < |v| ==> v[j].index > m
    requires IsExtreme(z.extreme, candles, z.pivots, |z.pivots|, m) && IsReversal(reversal, candles, p, z.extreme, m)
    requires z.trend == Falling <==> z.pivots != [] && z.pivots[|z.pivots| - 1].kind == High
    requires var c := candles[m];
      if z.trend != Falling then
        next == if Higher(c.high, z.extreme) - c.low >= reversal > 0.0
                then z.pivots + [Pivot(c.ts, Higher(c.high, z.extreme), High, m, reversal)] else z.pivots
      else
        next == if c.high - Lower(c.low, z.extreme) >= reversal > 0.0
                then z.pivots + [Pivot(c.ts, Lower(c.low, z.extreme), Low, m, reversal)] else z.pivots
    ensures TurnTold(candles, p, v, m)
  {
    var k := |z.pivots|;
    assert k > 0 ==> v[k - 1] == v[..k][k - 1];
    assert |next| > k ==> v[k] == v[..|next|][k];
    assert IsExtreme(z.extreme, candles, v, k, m);
    hide IsReversal, IsExtreme, Higher, Lower;
    assert TurnIs(candles, p, v, m, k, z.extreme, reversal);
  }

  /** The detector turns exactly where the leg reverses far enough. */
  lemma PivotsAreTold(candles: seq<Candle>, p: Profile)
    requires Series(candles) && p.atrPeriod > 0
    ensures TurnsTold(candles, p, PivotsOf(candles, p))
  {
    hide TurnTold, Series;
    if |candles| >= 3 {
      PivotStructure(candles, p);
      forall m | 1 <= m < |candles| ensures TurnTold(candles, p, PivotsOf(candles, p), m) {
        CandleTurns(candles, p, m);
      }
    }
  }

  /** The zigzag always opens with a high, whatever the candles do. */
  lemma HighComesFirst(candles: seq<Candle>, p: Profile)
    requires Series(candles) && p.atrPeriod > 0 && PivotsOf(candles, p) != []
    ensures PivotsOf(candles, p)[0].kind == High
  {
    var v := PivotsOf(candles, p);
    PivotsAreTold(candles, p);
    assert TurnTold(candles, p, v, v[0].index);
    var k: nat, x: real, reversal: real :| TurnIs(candles, p, v, v[0].index, k, x, reversal);
    assert k == 0;
  }
}
