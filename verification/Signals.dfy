/** Entry signals of the wave engine: engulfing candles in the context of the 4h regime. */
module Signals {
  import opened Prelude
  import opened Sorting
  import opened Candles
  import opened Pivots
  import opened Regime

  const HOUR := 3_600_000_000

  type Market = map<Timeframe, seq<Candle>>

  function CandlesOf(market: Market, tf: Timeframe): seq<Candle> {
    if tf in market then market[tf] else []
  }

  /** The market as it is known at time `t`. */
  function TruncateMarket(market: Market, t: int): Market {
    map tf | tf in market :: Truncate(market[tf], t)
  }

  ghost predicate SoundMarket(market: Market) {
    forall tf :: tf in market ==> Series(market[tf])
  }

  lemma SoundSeries(market: Market, tf: Timeframe)
    requires SoundMarket(market)
    ensures Series(CandlesOf(market, tf))
  {
  }

  /** What a signal was fired for; at most one signal fires for each. */
  datatype ContextId =
    | FlatContext(timeframe: Timeframe, sequenceId: nat)
    | TrendContext(timeframe: Timeframe, confirmedWave: Option<nat>, correctionTs: int)

  datatype EntrySignal = EntrySignal(
    timeframe: Timeframe,
    ts: int,
    side: Side,
    entry: real,
    regimeState: RegimeState,
    context: ContextId,
    impulseStart: real,
    target: real,
    pullback: Option<real>,
    waveSequenceId: nat,
    confirmedWave: Option<nat>)

  // ---- candle patterns and extremes ----

  predicate BullishEngulfing(prev: Candle, c: Candle) {
    prev.close < prev.open && c.close > c.open && c.open <= prev.close && c.close >= prev.open
  }

  predicate BearishEngulfing(prev: Candle, c: Candle) {
    prev.close > prev.open && c.close < c.open && c.open >= prev.close && c.close <= prev.open
  }

  /** The first candle with the highest high. */
  function FirstHighest(candles: seq<Candle>, lo: nat, hi: nat): (k: nat)
    requires lo < hi <= |candles|
    ensures lo <= k < hi
  {
    if hi == lo + 1 then lo
    else
      var k := FirstHighest(candles, lo, hi - 1);
      if candles[hi - 1].high > candles[k].high then hi - 1 else k
  }

  /** The first candle with the lowest low. */
  function FirstLowest(candles: seq<Candle>, lo: nat, hi: nat): (k: nat)
    requires lo < hi <= |candles|
    ensures lo <= k < hi
  {
    if hi == lo + 1 then lo
    else
      var k := FirstLowest(candles, lo, hi - 1);
      if candles[hi - 1].low < candles[k].low then hi - 1 else k
  }

  lemma {:induction false} FirstHighestIsHighest(candles: seq<Candle>, lo: nat, hi: nat)
    requires lo < hi <= |candles|
    ensures var k := FirstHighest(candles, lo, hi);
      && (forall i :: lo <= i < hi ==> candles[i].high <= candles[k].high)
      && (forall i :: lo <= i < k ==> candles[i].high < candles[k].high)
  {
    if hi > lo + 1 {
      FirstHighestIsHighest(candles, lo, hi - 1);
    }
  }

  lemma {:induction false} FirstLowestIsLowest(candles: seq<Candle>, lo: nat, hi: nat)
    requires lo < hi <= |candles|
    ensures var k := FirstLowest(candles, lo, hi);
      && (forall i :: lo <= i < hi ==> candles[k].low <= candles[i].low)
      && (forall i :: lo <= i < k ==> candles[k].low < candles[i].low)
  {
    if hi > lo + 1 {
      FirstLowestIsLowest(candles, lo, hi - 1);
    }
  }

  /** The first candle at or after the start time. */
  function SegmentStart(candles: seq<Candle>, start: Option<int>): (k: nat)
    ensures k <= |candles|
    ensures start.Some? ==> forall i :: 0 <= i < k ==> candles[i].ts < start.value
    ensures start.Some? && k < |candles| ==> candles[k].ts >= start.value
    ensures start == None ==> k == 0
  {
    match start
    case None => 0
    case Some(ts) => Leading(candles, (c: Candle) => c.ts < ts)
  }

  /** The impulse of the current wave and the correction that answers it. */
  datatype Context = Context(impulseStart: nat, impulseEnd: nat, correction: nat, ratio: real)

  function Ratio(pullback: real, range: real): real
    requires range > 0.0
  {
    pullback / range
  }

  /** `_extreme_context`: impulse and correction before candle `index`, searched from `start`. */
  function ExtremeContext(candles: seq<Candle>, index: nat, start: nat, side: Side): Option<Context>
    requires index < |candles|
  {
    if index - start < 3 then None
    else if side == Long then
      var end := FirstHighest(candles, start, index);
      var first := FirstLowest(candles, start, end + 1);
      if end >= index - 1 then None
      else
        var correction := FirstLowest(candles, end + 1, index + 1);
        var range := candles[end].high - candles[first].low;
        if range <= 0.0 then None
        else Some(Context(first, end, correction, Ratio(candles[end].high - candles[correction].low, range)))
    else
      var end := FirstLowest(candles, start, index);
      var first := FirstHighest(candles, start, end + 1);
      if end >= index - 1 then None
      else
        var correction := FirstHighest(candles, end + 1, index + 1);
        var range := candles[first].high - candles[end].low;
        if range <= 0.0 then None
        else Some(Context(first, end, correction, Ratio(candles[correction].high - candles[end].low, range)))
  }

  // ---- the candidate a candle offers ----

  function Window(candles: seq<Candle>, i: nat, hours: nat): seq<Candle>
    requires i < |candles|
  {
    var from := candles[i].ts - hours * HOUR;
    Filter(candles[..i + 1], (c: Candle) => c.ts >= from)
  }

  /** In a flat regime: an engulfing candle at the extreme of the lookback window. */
  function FlatCandidate(p: Profile, tf: Timeframe, candles: seq<Candle>, i: nat, regime: Snapshot): Option<EntrySignal>
    requires 1 <= i < |candles|
  {
    var prev, c := candles[i - 1], candles[i];
    var window := Window(candles, i, p.flatLookbackHours);
    if window == [] then None
    else
      var lowest := window[FirstLowest(window, 0, |window|)].low;
      var highest := window[FirstHighest(window, 0, |window|)].high;
      var context := FlatContext(tf, regime.sequenceId);
      if BullishEngulfing(prev, c) && (lowest == prev.low || lowest == c.low) then
        Some(EntrySignal(tf, c.ts, Long, c.close, Flat, context, Min(prev.low, c.low), highest, None,
                         regime.sequenceId, regime.confirmedWave))
      else if BearishEngulfing(prev, c) && (highest == prev.high || highest == c.high) then
        Some(EntrySignal(tf, c.ts, Short, c.close, Flat, context, Max(prev.high, c.high), lowest, None,
                         regime.sequenceId, regime.confirmedWave))
      else None
  }

  const MAX_PULLBACK := 0.8

  /** In a trend: an engulfing candle in its direction after a measured pullback. */
  function TrendCandidate(p: Profile, tf: Timeframe, candles: seq<Candle>, i: nat, regime: Snapshot,
                          side: Side): Option<EntrySignal>
    requires 1 <= i < |candles|
  {
    var prev, c := candles[i - 1], candles[i];
    var engulfs := if side == Long then BullishEngulfing(prev, c) else BearishEngulfing(prev, c);
    if !engulfs then None
    else
      match ExtremeContext(candles, i, SegmentStart(candles, regime.confirmedAt), side)
      case None => None
      case Some(x) =>
        if x.ratio < p.pullbackRatio || x.ratio > MAX_PULLBACK then None
        else
          var impulseStart := if side == Long then candles[x.impulseStart].low else candles[x.impulseStart].high;
          var target := if side == Long then candles[x.impulseEnd].high else candles[x.impulseEnd].low;
          Some(EntrySignal(tf, c.ts, side, c.close, regime.state,
                           TrendContext(tf, regime.confirmedWave, candles[x.correction].ts),
                           impulseStart, target, Some(x.ratio), regime.sequenceId, regime.confirmedWave))
  }

  function Candidate(p: Profile, tf: Timeframe, candles: seq<Candle>, i: nat, regime: Snapshot): Option<EntrySignal>
    requires 1 <= i < |candles|
  {
    match regime.state
    case Flat => FlatCandidate(p, tf, candles, i, regime)
    case Trending(side) => TrendCandidate(p, tf, candles, i, regime, side)
  }

  /** The last snapshot taken by `ts`, searched onwards from `from`. */
  function RegimeIndex(regimes: seq<Snapshot>, ts: int, from: nat): (k: nat)
    requires from < |regimes|
    ensures from <= k < |regimes|
    decreases |regimes| - from
  {
    if from + 1 < |regimes| && regimes[from + 1].ts <= ts then RegimeIndex(regimes, ts, from + 1) else from
  }

  function CandidateAt(p: Profile, market: Market, regimes: seq<Snapshot>, tf: Timeframe, i: nat): Option<EntrySignal>
    requires regimes != [] && 1 <= i < |CandlesOf(market, tf)|
  {
    var candles := CandlesOf(market, tf);
    Candidate(p, tf, candles, i, regimes[RegimeIndex(regimes, candles[i].ts, 0)])
  }

  // ---- collecting the signals ----

  datatype Found = Found(signals: seq<EntrySignal>, used: set<ContextId>)

  function Offer(f: Found, candidate: Option<EntrySignal>): Found {
    match candidate
    case None => f
    case Some(s) => if s.context in f.used then f else Found(f.signals + [s], f.used + {s.context})
  }

  /** After the first `n` candles of one timeframe. */
  function Scan(p: Profile, market: Market, regimes: seq<Snapshot>, tf: Timeframe, n: nat, start: Found): Found
    requires regimes != [] && 1 <= n <= |CandlesOf(market, tf)|
  {
    if n == 1 then start
    else Offer(Scan(p, market, regimes, tf, n - 1, start), CandidateAt(p, market, regimes, tf, n - 1))
  }

  function ScanTimeframe(p: Profile, market: Market, regimes: seq<Snapshot>, tf: Timeframe, start: Found): Found
    requires regimes != []
  {
    var n := |CandlesOf(market, tf)|;
    if n < 3 then start else Scan(p, market, regimes, tf, n, start)
  }

  /** After the first `k` entry timeframes. */
  function ScanAll(p: Profile, market: Market, regimes: seq<Snapshot>, k: nat): Found
    requires regimes != [] && k <= |p.entryTimeframes|
  {
    if k == 0 then Found([], {})
    else ScanTimeframe(p, market, regimes, p.entryTimeframes[k - 1], ScanAll(p, market, regimes, k - 1))
  }

  /** The order of the timeframe names "15m", "1h", "4h", "5m". */
  function NameRank(tf: Timeframe): nat {
    match tf case M15 => 0 case H1 => 1 case H4 => 2 case M5 => 3
  }

  function SignalLe(a: EntrySignal, b: EntrySignal): bool {
    a.ts < b.ts || (a.ts == b.ts && NameRank(a.timeframe) <= NameRank(b.timeframe))
  }

  function SignalsOf(p: Profile, market: Market, regimes: seq<Snapshot>): seq<EntrySignal>
    requires regimes != []
  {
    StableSort(ScanAll(p, market, regimes, |p.entryTimeframes|).signals, SignalLe)
  }

  lemma {:induction false} RegimeIndexResumes(regimes: seq<Snapshot>, ts: int, later: int, from: nat)
    requires from < |regimes| && ts <= later
    ensures RegimeIndex(regimes, later, RegimeIndex(regimes, ts, from)) == RegimeIndex(regimes, later, from)
    decreases |regimes| - from
  {
    if from + 1 < |regimes| && regimes[from + 1].ts <= ts {
      RegimeIndexResumes(regimes, ts, later, from + 1);
    }
  }

  ghost predicate Ordered(regimes: seq<Snapshot>) {
    forall i, j :: 0 <= i < j < |regimes| ==> regimes[i].ts < regimes[j].ts
  }

  /** `k` is the last snapshot taken by `ts`, or `from` when none after it is. */
  ghost predicate Latest(regimes: seq<Snapshot>, ts: int, from: nat, k: nat) {
    && from <= k < |regimes|
    && forall j :: from < j < |regimes| ==> (regimes[j].ts <= ts <==> j <= k)
  }

  /** On ordered snapshots the forward search stops at the last one taken by `ts`. */
  lemma {:induction false} RegimeIsLatest(regimes: seq<Snapshot>, ts: int, from: nat)
    requires from < |regimes| && Ordered(regimes)
    ensures Latest(regimes, ts, from, RegimeIndex(regimes, ts, from))
    decreases |regimes| - from
  {
    if from + 1 < |regimes| && regimes[from + 1].ts <= ts {
      RegimeIsLatest(regimes, ts, from + 1);
    }
  }

  /** The snapshots of a candle series are ordered. */
  lemma SnapshotsAreOrdered(candles: seq<Candle>, pivots: seq<Pivot>, basis: BreakBasis)
    requires Series(candles)
    ensures Ordered(SnapshotsOf(candles, pivots, basis))
  {
    hide RegimeAfter;
  }

  /**
   Moves the regime cursor forward. A cursor at the snapshot of an earlier time
   reaches the snapshot of `ts`, which on ordered snapshots is the last one taken by then.
   */
  method AdvanceRegime(regimes: seq<Snapshot>, ts: int, from: nat) returns (k: nat)
    requires from < |regimes|
    ensures k == RegimeIndex(regimes, ts, from)
    ensures Ordered(regimes) ==> Latest(regimes, ts, from, k)
    ensures forall earlier :: earlier <= ts && from == RegimeIndex(regimes, earlier, 0) ==>
      k == RegimeIndex(regimes, ts, 0)
  {
    k := from;
    while k + 1 < |regimes| && regimes[k + 1].ts <= ts
      invariant k < |regimes|
      invariant RegimeIndex(regimes, ts, k) == RegimeIndex(regimes, ts, from)
    {
      k := k + 1;
    }
    if Ordered(regimes) {
      RegimeIsLatest(regimes, ts, from);
    }
    forall earlier | earlier <= ts && from == RegimeIndex(regimes, earlier, 0)
      ensures k == RegimeIndex(regimes, ts, 0)
    {
      RegimeIndexResumes(regimes, earlier, ts, 0);
    }
  }

  lemma CandidatesEngulf(p: Profile, tf: Timeframe, candles: seq<Candle>, i: nat, regime: Snapshot)
    requires 1 <= i < |candles|
    ensures Candidate(p, tf, candles, i, regime).Some? ==>
      && (BullishEngulfing(candles[i - 1], candles[i]) || BearishEngulfing(candles[i - 1], candles[i]))
      && (regime.state == Trending(Long) ==> BullishEngulfing(candles[i - 1], candles[i]))
      && (regime.state == Trending(Short) ==> BearishEngulfing(candles[i - 1], candles[i]))
  {
  }

  /** Walks every entry timeframe, keeps the first signal of each context, and orders the result. */
  method GenerateEntrySignals(p: Profile, market: Market, regimes: seq<Snapshot>) returns (result: seq<EntrySignal>)
    requires SoundMarket(market) && regimes != []
    ensures result == SignalsOf(p, market, regimes)
  {
    hide FlatCandidate, TrendCandidate, RegimeIndex, BullishEngulfing, BearishEngulfing, Ordered, Latest;
    var signals: seq<EntrySignal> := [];
    var used: set<ContextId> := {};
    for k := 0 to |p.entryTimeframes|
      invariant Found(signals, used) == ScanAll(p, market, regimes, k)
    {
      var tf := p.entryTimeframes[k];
      var candles := CandlesOf(market, tf);
      if |candles| < 3 {
        continue;
      }
      ghost var start := Found(signals, used);
      var regimeIndex := 0;
      for index := 1 to |candles|
        invariant if index == 1 then regimeIndex == 0 else regimeIndex == RegimeIndex(regimes, candles[index - 1].ts, 0)
        invariant Found(signals, used) == Scan(p, market, regimes, tf, index, start)
      {
        var candle, prev := candles[index], candles[index - 1];
        assert prev.ts < candle.ts by { SoundSeries(market, tf); }
        regimeIndex := AdvanceRegime(regimes, candle.ts, regimeIndex);
        var regime := regimes[regimeIndex];
        CandidatesEngulf(p, tf, candles, index, regime);
        ghost var offered := CandidateAt(p, market, regimes, tf, index);
        assert offered == Candidate(p, tf, candles, index, regime);
        var bullish, bearish := BullishEngulfing(prev, candle), BearishEngulfing(prev, candle);
        if !bullish && !bearish {
          continue;
        }
        var candidate := None;
        if regime.state == Flat {
          candidate := FlatCandidate(p, tf, candles, index, regime);
        } else {
          var side := if regime.state == Trending(Long) then Long else Short;
          if side == Long && !bullish {
            continue;
          }
          if side == Short && !bearish {
            continue;
          }
          candidate := TrendCandidate(p, tf, candles, index, regime, side);
        }
        assert candidate == offered;
        if candidate.Some? && candidate.value.context !in used {
          used := used + {candidate.value.context};
          signals := signals + [candidate.value];
        }
      }
    }
    result := StableSort(signals, SignalLe);
  }

  // ---- what a signal promises about prices ----

  /** A signal enters at the close, strictly on the far side of where its impulse began. */
  predicate SoundGeometry(s: EntrySignal) {
    && 0.0 < s.entry
    && 0.0 < s.impulseStart
    && 0.0 < s.target
    && (if s.side == Long then s.impulseStart < s.entry else s.entry < s.impulseStart)
  }

  lemma WindowIsSound(candles: seq<Candle>, i: nat, hours: nat)
    requires Series(candles) && i < |candles|
    ensures forall c :: c in Window(candles, i, hours) ==> WellFormed(c)
  {
    var from := candles[i].ts - hours * HOUR;
    FilterMember(candles[..i + 1], (c: Candle) => c.ts >= from);
  }

  lemma FlatGeometry(p: Profile, tf: Timeframe, candles: seq<Candle>, i: nat, regime: Snapshot)
    requires Series(candles) && 1 <= i < |candles|
    ensures var s := FlatCandidate(p, tf, candles, i, regime);
      s.Some? ==> SoundGeometry(s.value) && s.value.entry == candles[i].close
  {
    WindowIsSound(candles, i, p.flatLookbackHours);
    hide Window;
    var window := Window(candles, i, p.flatLookbackHours);
    if window != [] {
      assert WellFormed(window[FirstHighest(window, 0,
                                            |window|)]) && WellFormed(window[FirstLowest(window, 0, |window|)]);
    }
    assert WellFormed(candles[i]) && WellFormed(candles[i - 1]);
  }

  /** The pullback cap keeps the correction, and with it the entry, beyond the start of the impulse. */
  lemma PullbackStaysInside(start: real, end: real, correction: real)
    requires end > start && Ratio(end - correction, end - start) <= MAX_PULLBACK
    ensures correction > start
  {
    var range := end - start;
    assert (end - correction) / range * range == end - correction;
    assert (end - correction) / range * range <= MAX_PULLBACK * range;
  }

  lemma PullbackStaysInsideShort(start: real, end: real, correction: real)
    requires end < start && Ratio(correction - end, start - end) <= MAX_PULLBACK
    ensures correction < start
  {
    PullbackStaysInside(-start, -end, -correction);
  }

  lemma LongTrendGeometry(candles: seq<Candle>, i: nat, start: nat)
    requires Series(candles) && 1 <= i < |candles|
    ensures var x := ExtremeContext(candles, i, start, Long);
      x.Some? && x.value.ratio <= MAX_PULLBACK ==> candles[x.value.impulseStart].low < candles[i].close
  {
    var x := ExtremeContext(candles, i, start, Long);
    if x.Some? && x.value.ratio <= MAX_PULLBACK {
      PullbackStaysInside(candles[x.value.impulseStart].low, candles[x.value.impulseEnd].high,
                          candles[x.value.correction].low);
      FirstLowestIsLowest(candles, x.value.impulseEnd + 1, i + 1);
      assert WellFormed(candles[i]) && candles[x.value.correction].low <= candles[i].low;
    }
  }

  lemma ShortTrendGeometry(candles: seq<Candle>, i: nat, start: nat)
    requires Series(candles) && 1 <= i < |candles|
    ensures var x := ExtremeContext(candles, i, start, Short);
      x.Some? && x.value.ratio <= MAX_PULLBACK ==> candles[i].close < candles[x.value.impulseStart].high
  {
    var x := ExtremeContext(candles, i, start, Short);
    if x.Some? && x.value.ratio <= MAX_PULLBACK {
      PullbackStaysInsideShort(candles[x.value.impulseStart].high, candles[x.value.impulseEnd].low,
                               candles[x.value.correction].high);
      FirstHighestIsHighest(candles, x.value.impulseEnd + 1, i + 1);
      assert WellFormed(candles[i]) && candles[x.value.correction].high >= candles[i].high;
    }
  }

  lemma TrendGeometry(p: Profile, tf: Timeframe, candles: seq<Candle>, i: nat, regime: Snapshot, side: Side)
    requires Series(candles) && 1 <= i < |candles|
    ensures var s := TrendCandidate(p, tf, candles, i, regime, side);
      s.Some? ==> SoundGeometry(s.value) && s.value.entry == candles[i].close && s.value.side == side
  {
    var start := SegmentStart(candles, regime.confirmedAt);
    LongTrendGeometry(candles, i, start);
    ShortTrendGeometry(candles, i, start);
    if TrendCandidate(p, tf, candles, i, regime, side).Some? {
      var x := ExtremeContext(candles, i, start, side).value;
      assert WellFormed(candles[i]) && WellFormed(candles[x.impulseStart]) && WellFormed(candles[x.impulseEnd]);
    }
  }

  lemma CandidateGeometry(p: Profile, tf: Timeframe, candles: seq<Candle>, i: nat, regime: Snapshot)
    requires Series(candles) && 1 <= i < |candles|
    ensures var s := Candidate(p, tf, candles, i, regime);
      s.Some? ==>
        && SoundGeometry(s.value)
        && s.value.entry == candles[i].close
        && s.value.ts == candles[i].ts
  {
    match regime.state
    case Flat => FlatGeometry(p, tf, candles, i, regime);
    case Trending(side) => TrendGeometry(p, tf, candles, i, regime, side);
  }

  lemma OfferGeometry(f: Found, candidate: Option<EntrySignal>)
    requires forall s :: s in f.signals ==> SoundGeometry(s)
    requires candidate.Some? ==> SoundGeometry(candidate.value)
    ensures forall s :: s in Offer(f, candidate).signals ==> SoundGeometry(s)
  {
    hide SoundGeometry;
  }

  lemma CandidateAtGeometry(p: Profile, market: Market, regimes: seq<Snapshot>, tf: Timeframe, i: nat)
    requires SoundMarket(market) && regimes != [] && 1 <= i < |CandlesOf(market, tf)|
    ensures CandidateAt(p, market, regimes, tf, i).Some? ==>
      SoundGeometry(CandidateAt(p, market, regimes, tf, i).value)
  {
    hide Candidate, SoundGeometry, RegimeIndex;
    SoundSeries(market, tf);
    var candles := CandlesOf(market, tf);
    CandidateGeometry(p, tf, candles, i, regimes[RegimeIndex(regimes, candles[i].ts, 0)]);
  }

  lemma {:induction false} ScanGeometry(p: Profile, market: Market, regimes: seq<Snapshot>, tf: Timeframe, n: nat,
                                        start: Found)
    requires SoundMarket(market) && regimes != [] && 1 <= n <= |CandlesOf(market, tf)|
    requires forall s :: s in start.signals ==> SoundGeometry(s)
    ensures forall s :: s in Scan(p, market, regimes, tf, n, start).signals ==> SoundGeometry(s)
  {
    if n > 1 {
      hide CandidateAt, SoundGeometry, Offer, SoundMarket;
      ScanGeometry(p, market, regimes, tf, n - 1, start);
      CandidateAtGeometry(p, market, regimes, tf, n - 1);
      OfferGeometry(Scan(p, market, regimes, tf, n - 1, start), CandidateAt(p, market, regimes, tf, n - 1));
    }
  }

  lemma {:induction false} ScanAllGeometry(p: Profile, market: Market, regimes: seq<Snapshot>, k: nat)
    requires SoundMarket(market) && regimes != [] && k <= |p.entryTimeframes|
    ensures forall s :: s in ScanAll(p, market, regimes, k).signals ==> SoundGeometry(s)
  {
    if k > 0 {
      ScanAllGeometry(p, market, regimes, k - 1);
      var tf := p.entryTimeframes[k - 1];
      if |CandlesOf(market, tf)| >= 3 {
        ScanGeometry(p, market, regimes, tf, |CandlesOf(market, tf)|, ScanAll(p, market, regimes, k - 1));
      }
    }
  }

  /** Every generated signal enters on the sound side of its impulse start. */
  lemma SignalsAreSound(p: Profile, market: Market, regimes: seq<Snapshot>)
    requires SoundMarket(market) && regimes != []
    ensures forall s :: s in SignalsOf(p, market, regimes) ==> SoundGeometry(s)
  {
    hide SoundGeometry, ScanAll;
    ScanAllGeometry(p, market, regimes, |p.entryTimeframes|);
    var found := ScanAll(p, market, regimes, |p.entryTimeframes|).signals;
    forall s | s in SignalsOf(p, market, regimes) ensures SoundGeometry(s) {
      SortMember(found, SignalLe, s);
    }
  }

  // ---- no repainting ----

  lemma WindowPrefix(candles: seq<Candle>, m: nat, i: nat, hours: nat)
    requires i < m <= |candles|
    ensures Window(candles[..m], i, hours) == Window(candles, i, hours)
  {
    assert candles[..m][..i + 1] == candles[..i + 1];
  }

  lemma {:induction false} FirstHighestPrefix(candles: seq<Candle>, m: nat, lo: nat, hi: nat)
    requires lo < hi <= m <= |candles|
    ensures FirstHighest(candles[..m], lo, hi) == FirstHighest(candles, lo, hi)
  {
    if hi > lo + 1 {
      FirstHighestPrefix(candles, m, lo, hi - 1);
    }
  }

  lemma {:induction false} FirstLowestPrefix(candles: seq<Candle>, m: nat, lo: nat, hi: nat)
    requires lo < hi <= m <= |candles|
    ensures FirstLowest(candles[..m], lo, hi) == FirstLowest(candles, lo, hi)
  {
    if hi > lo + 1 {
      FirstLowestPrefix(candles, m, lo, hi - 1);
    }
  }

  lemma SegmentStartPrefix(candles: seq<Candle>, m: nat, start: Option<int>)
    requires m <= |candles|
    ensures SegmentStart(candles[..m], start) == SegmentStart(candles, start)
         || (SegmentStart(candles[..m], start) == m && SegmentStart(candles, start) >= m)
  {
    var a, b := SegmentStart(candles[..m], start), SegmentStart(candles, start);
    if start.Some? {
      if a < m {
        assert candles[..m][a].ts >= start.value;
        assert !(a < b);
      }
      if b < m {
        assert candles[..m][b] == candles[b];
        assert !(b < a);
      }
    }
  }

  lemma LongContextPrefix(candles: seq<Candle>, m: nat, i: nat, lo: nat)
    requires i < m <= |candles|
    ensures ExtremeContext(candles[..m], i, lo, Long) == ExtremeContext(candles, i, lo, Long)
  {
    if i - lo >= 3 {
      hide FirstHighest, FirstLowest, Ratio;
      FirstHighestPrefix(candles, m, lo, i);
      var end := FirstHighest(candles, lo, i);
      FirstLowestPrefix(candles, m, lo, end + 1);
      FirstLowestPrefix(candles, m, end + 1, i + 1);
    }
  }

  lemma ShortContextPrefix(candles: seq<Candle>, m: nat, i: nat, lo: nat)
    requires i < m <= |candles|
    ensures ExtremeContext(candles[..m], i, lo, Short) == ExtremeContext(candles, i, lo, Short)
  {
    if i - lo >= 3 {
      hide FirstHighest, FirstLowest, Ratio;
      FirstLowestPrefix(candles, m, lo, i);
      var end := FirstLowest(candles, lo, i);
      FirstHighestPrefix(candles, m, lo, end + 1);
      FirstHighestPrefix(candles, m, end + 1, i + 1);
    }
  }

  lemma ContextPrefix(candles: seq<Candle>, m: nat, i: nat, start: Option<int>, side: Side)
    requires i < m <= |candles|
    ensures ExtremeContext(candles[..m], i, SegmentStart(candles[..m], start), side)
         == ExtremeContext(candles, i, SegmentStart(candles, start), side)
  {
    hide SegmentStart;
    SegmentStartPrefix(candles, m, start);
    if SegmentStart(candles, start) < m {
      hide ExtremeContext;
      if side == Long {
        LongContextPrefix(candles, m, i, SegmentStart(candles, start));
      } else {
        ShortContextPrefix(candles, m, i, SegmentStart(candles, start));
      }
    }
  }

  lemma FlatPrefix(p: Profile, tf: Timeframe, candles: seq<Candle>, m: nat, i: nat, regime: Snapshot)
    requires 1 <= i < m <= |candles|
    ensures FlatCandidate(p, tf, candles[..m], i, regime) == FlatCandidate(p, tf, candles, i, regime)
  {
    hide Window, FirstHighest, FirstLowest, BullishEngulfing, BearishEngulfing;
    WindowPrefix(candles, m, i, p.flatLookbackHours);
  }

  lemma ContextInRange(candles: seq<Candle>, i: nat, start: nat, side: Side)
    requires i < |candles|
    ensures var x := ExtremeContext(candles, i, start, side);
      x.Some? ==> x.value.impulseStart <= x.value.impulseEnd < x.value.correction <= i
  {
  }

  lemma TrendPrefix(p: Profile, tf: Timeframe, candles: seq<Candle>, m: nat, i: nat, regime: Snapshot, side: Side)
    requires 1 <= i < m <= |candles|
    ensures TrendCandidate(p, tf, candles[..m], i, regime, side) == TrendCandidate(p, tf, candles, i, regime, side)
  {
    hide ExtremeContext, SegmentStart, BullishEngulfing, BearishEngulfing;
    ContextPrefix(candles, m, i, regime.confirmedAt, side);
    ContextInRange(candles, i, SegmentStart(candles, regime.confirmedAt), side);
  }

  /** A candidate depends on the candles up to its own and on the regime, and on nothing later. */
  lemma CandidatePrefix(p: Profile, tf: Timeframe, candles: seq<Candle>, m: nat, i: nat, regime: Snapshot)
    requires 1 <= i < m <= |candles|
    ensures Candidate(p, tf, candles[..m], i, regime) == Candidate(p, tf, candles, i, regime)
  {
    hide FlatCandidate, TrendCandidate;
    match regime.state
    case Flat => FlatPrefix(p, tf, candles, m, i, regime);
    case Trending(side) => TrendPrefix(p, tf, candles, m, i, regime, side);
  }
}
