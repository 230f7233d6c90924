/**
 Which entry signals there are, told from the candles and the regime snapshots: what a
 candle offers in a flat regime and in a trend, and which offers become signals.
 */
module SignalAudit {
  import opened Prelude
  import opened Sorting
  import opened Candles
  import opened Pivots
  import opened Regime
  import opened Signals

  // ---- what a candle offers ----

  /** A candle of the side's colour whose body covers the body of an opposite candle before it. */
  predicate Engulfs(side: Side, prev: Candle, c: Candle) {
    match side
    case Long => c.close > c.open && prev.close < prev.open && c.open <= prev.close && prev.open <= c.close
    case Short => c.close < c.open && prev.close > prev.open && c.close <= prev.open && prev.close <= c.open
  }

  ghost predicate IsFirstHigh(k: nat, candles: seq<Candle>, lo: nat, hi: nat) {
    && lo <= k < hi <= |candles|
    && (forall i :: lo <= i < hi ==> candles[i].high <= candles[k].high)
    && (forall i :: lo <= i < k ==> candles[i].high < candles[k].high)
  }

  ghost predicate IsFirstLow(k: nat, candles: seq<Candle>, lo: nat, hi: nat) {
    && lo <= k < hi <= |candles|
    && (forall i :: lo <= i < hi ==> candles[i].low >= candles[k].low)
    && (forall i :: lo <= i < k ==> candles[i].low > candles[k].low)
  }

  /** The first candle of a stretch that begins at a time. */
  ghost predicate Begins(start: nat, candles: seq<Candle>, from: int) {
    && start <= |candles|
    && (forall j :: 0 <= j < start ==> candles[j].ts < from)
    && (forall j :: start <= j < |candles| ==> candles[j].ts >= from)
  }

  /** The prices of a lookback window: where it begins, its lowest low and its highest high. */
  datatype Range = Range(start: nat, lowest: real, highest: real)

  ghost predicate IsRange(w: Range, candles: seq<Candle>, i: nat, from: int) {
    && i < |candles| && Begins(w.start, candles, from)
    && IsMinLow(w.lowest, candles, w.start, i + 1) && IsMaxHigh(w.highest, candles, w.start, i + 1)
  }

  /**
   In a flat regime an engulfing candle offers a signal when it or the candle before
   it is at the extreme of the lookback: towards the other extreme, away from this one.
   */
  ghost predicate FlatTold(o: Option<EntrySignal>, p: Profile, tf: Timeframe, candles: seq<Candle>, i: nat,
                           regime: Snapshot, w: Range)
    requires 1 <= i < |candles|
  {
    var prev, c := candles[i - 1], candles[i];
    && IsRange(w, candles, i, c.ts - p.flatLookbackHours * 3_600_000_000)
    && if Engulfs(Long, prev, c) && (prev.low == w.lowest || c.low == w.lowest) then
         o == Some(EntrySignal(tf, c.ts, Long, c.close, Flat, FlatContext(tf, regime.sequenceId),
                               if prev.low <= c.low then prev.low else c.low, w.highest, None,
                               regime.sequenceId, regime.confirmedWave))
       else if Engulfs(Short, prev, c) && (prev.high == w.highest || c.high == w.highest) then
         o == Some(EntrySignal(tf, c.ts, Short, c.close, Flat, FlatContext(tf, regime.sequenceId),
                               if prev.high >= c.high then prev.high else c.high, w.lowest, None,
                               regime.sequenceId, regime.confirmedWave))
       else o == None
  }

  /** A wave before a candle: where it is searched from, its impulse and its correction. */
  datatype Wave = Wave(start: nat, foot: nat, peak: nat, turn: nat)

  /** The impulse runs to the first extreme of the stretch, and the correction from there to the candle itself. */
  ghost predicate IsWave(v: Wave, side: Side, candles: seq<Candle>, i: nat) {
    match side
    case Long =>
      IsFirstHigh(v.peak, candles, v.start, i) && IsFirstLow(v.foot, candles, v.start, v.peak + 1)
      && IsFirstLow(v.turn, candles, v.peak + 1, i + 1)
    case Short =>
      IsFirstLow(v.peak, candles, v.start, i) && IsFirstHigh(v.foot, candles, v.start, v.peak + 1)
      && IsFirstHigh(v.turn, candles, v.peak + 1, i + 1)
  }

  /** The end of a candle that an impulse against or with the side has. */
  function Outer(side: Side, c: Candle): real { match side case Long => c.high case Short => c.low }

  function Inner(side: Side, c: Candle): real { match side case Long => c.low case Short => c.high }

  /** How far a price lies from another in the direction of the side. */
  function Ahead(side: Side, to: real, from: real): real { match side case Long => to - from case Short => from - to }

  function Scaled(share: real, range: real): real { share * range }

  /** The correction gives back from the profile's share of the impulse up to eight tenths of it. */
  ghost predicate Corrects(v: Wave, side: Side, candles: seq<Candle>, i: nat, least: real, range: real, back: real)
    requires IsWave(v, side, candles, i)
  {
    && range == Ahead(side, Outer(side, candles[v.peak]), Inner(side, candles[v.foot]))
    && back == Ahead(side, Outer(side, candles[v.peak]), Inner(side, candles[v.turn]))
    && v.peak + 1 < i && range > 0.0 && Scaled(least, range) <= back <= Scaled(0.8, range)
  }

  /**
   In a trend a candle that engulfs in its direction offers a signal when at least
   three candles since the confirmation hold an impulse and a fitting correction:
   from the start of the impulse towards its end.
   */
  ghost predicate TrendTold(o: Option<EntrySignal>, p: Profile, tf: Timeframe, candles: seq<Candle>, i: nat,
                            regime: Snapshot, side: Side, v: Wave)
    requires 1 <= i < |candles|
  {
    var c := candles[i];
    && (match regime.confirmedAt case None => v.start == 0 case Some(ts) => Begins(v.start, candles, ts))
    && if !Engulfs(side, candles[i - 1], c) || i < v.start + 3 then o == None
       else
         && IsWave(v, side, candles, i)
         && var range := Ahead(side, Outer(side, candles[v.peak]), Inner(side, candles[v.foot]));
            var back := Ahead(side, Outer(side, candles[v.peak]), Inner(side, candles[v.turn]));
            if !Corrects(v, side, candles, i, p.pullbackRatio, range, back) then o == None
            else
              && o.Some? && o.value.pullback.Some? && Scaled(o.value.pullback.value, range) == back
              && o == Some(EntrySignal(tf, c.ts, side, c.close, Trending(side),
                                       TrendContext(tf, regime.confirmedWave, candles[v.turn].ts),
                                       Inner(side, candles[v.foot]), Outer(side, candles[v.peak]), o.value.pullback,
                                       regime.sequenceId, regime.confirmedWave))
  }

  /** What candle `i` offers under a regime. */
  ghost predicate OfferTold(o: Option<EntrySignal>, p: Profile, tf: Timeframe, candles: seq<Candle>, i: nat,
                            regime: Snapshot)
    requires 1 <= i < |candles|
  {
    match regime.state
    case Flat => exists w :: FlatTold(o, p, tf, candles, i, regime, w)
    case Trending(side) => exists v :: TrendTold(o, p, tf, candles, i, regime, side, v)
  }

  // ---- the proof for one candle ----

  lemma BeginsWhere(candles: seq<Candle>, from: int)
    requires Series(candles)
    ensures Begins(SegmentStart(candles, Some(from)), candles, from)
  {
    hide WellFormed;
  }

  lemma BeginsOnce(a: nat, b: nat, candles: seq<Candle>, from: int)
    requires Begins(a, candles, from) && Begins(b, candles, from)
    ensures a == b
  {
    assert a < |candles| ==> candles[a].ts >= from;
    assert b < |candles| ==> candles[b].ts >= from;
  }

  /** The lookback window is the stretch from its first candle on. */
  lemma WindowIs(candles: seq<Candle>, i: nat, hours: nat, start: nat)
    requires Series(candles) && i < |candles| && Begins(start, candles, candles[i].ts - hours * HOUR)
    ensures start <= i && Window(candles, i, hours) == candles[start..i + 1]
  {
    var from := candles[i].ts - hours * HOUR;
    var known, keep := candles[..i + 1], (c: Candle) => c.ts >= from;
    assert hours * HOUR >= 0;
    assert start <= i;
    assert known == candles[..start] + candles[start..i + 1];
    FilterConcat(candles[..start], candles[start..i + 1], keep);
    FilterNone(candles[..start], keep);
    FilterAll(candles[start..i + 1], keep);
  }

  lemma RangeIs(candles: seq<Candle>, start: nat, i: nat)
    requires start <= i < |candles|
    ensures var w := candles[start..i + 1];
      && IsMinLow(w[FirstLowest(w, 0, |w|)].low, candles, start, i + 1)
      && IsMaxHigh(w[FirstHighest(w, 0, |w|)].high, candles, start, i + 1)
  {
    var w := candles[start..i + 1];
    FirstLowestIsLowest(w, 0, |w|);
    FirstHighestIsHighest(w, 0, |w|);
    var low, high := FirstLowest(w, 0, |w|), FirstHighest(w, 0, |w|);
    assert candles[start + low] == w[low] && candles[start + high] == w[high];
    forall j | start <= j < i + 1 ensures w[low].low <= candles[j].low && candles[j].high <= w[high].high {
      assert w[j - start] == candles[j];
    }
  }

  lemma WindowRange(candles: seq<Candle>, i: nat, hours: nat)
    requires Series(candles) && i < |candles|
    ensures var w := Window(candles, i, hours);
      && w != []
      && IsRange(Range(SegmentStart(candles, Some(candles[i].ts - hours * HOUR)), w[FirstLowest(w, 0, |w|)].low,
                       w[FirstHighest(w, 0, |w|)].high), candles, i, candles[i].ts - hours * HOUR)
  {
    var start := SegmentStart(candles, Some(candles[i].ts - hours * HOUR));
    BeginsWhere(candles, candles[i].ts - hours * HOUR);
    WindowIs(candles, i, hours, start);
    RangeIs(candles, start, i);
    hide Window, FirstLowest, FirstHighest, IsMinLow, IsMaxHigh, SegmentStart, Series, Begins;
  }

  lemma FlatIsTold(p: Profile, tf: Timeframe, candles: seq<Candle>, i: nat, regime: Snapshot)
    requires Series(candles) && 1 <= i < |candles|
    ensures exists w :: FlatTold(FlatCandidate(p, tf, candles, i, regime), p, tf, candles, i, regime, w)
  {
    SidesEngulf(candles[i - 1], candles[i]);
    WindowRange(candles, i, p.flatLookbackHours);
    hide Window, FirstLowest, FirstHighest, SegmentStart, Series, IsRange, Engulfs, BullishEngulfing, BearishEngulfing;
    var w := Window(candles, i, p.flatLookbackHours);
    var range := Range(SegmentStart(candles, Some(candles[i].ts - p.flatLookbackHours * HOUR)),
                       w[FirstLowest(w, 0, |w|)].low, w[FirstHighest(w, 0, |w|)].high);
    assert FlatTold(FlatCandidate(p, tf, candles, i, regime), p, tf, candles, i, regime, range);
  }

  lemma RangeOnce(a: Range, b: Range, candles: seq<Candle>, i: nat, from: int)
    requires IsRange(a, candles, i, from) && IsRange(b, candles, i, from)
    ensures a == b
  {
    BeginsOnce(a.start, b.start, candles, from);
    hide Begins;
  }

  lemma FlatOnce(a: Option<EntrySignal>, b: Option<EntrySignal>, p: Profile, tf: Timeframe, candles: seq<Candle>,
                 i: nat, regime: Snapshot, v: Range, w: Range)
    requires 1 <= i < |candles|
    requires FlatTold(a, p, tf, candles, i, regime, v) && FlatTold(b, p, tf, candles, i, regime, w)
    ensures a == b
  {
    hide IsRange, Engulfs;
    RangeOnce(v, w, candles, i, candles[i].ts - p.flatLookbackHours * 3_600_000_000);
  }

  lemma RatioIs(back: real, range: real, least: real)
    requires range > 0.0
    ensures Scaled(Ratio(back, range), range) == back
    ensures Ratio(back, range) >= least <==> Scaled(least, range) <= back
    ensures Ratio(back, range) <= MAX_PULLBACK <==> back <= Scaled(0.8, range)
  {
    var q := Ratio(back, range);
    assert q * range == back;
    assert q >= least ==> (q - least) * range >= 0.0;
    assert q < least ==> (least - q) * range > 0.0;
    assert q <= 0.8 ==> (0.8 - q) * range >= 0.0;
    assert q > 0.8 ==> (q - 0.8) * range > 0.0;
  }

  lemma RatioOnce(a: real, b: real, range: real)
    requires range > 0.0 && Scaled(a, range) == Scaled(b, range)
    ensures a == b
  {
    assert a * range == b * range;
    assert (a - b) * range == 0.0;
  }

  /** The wave that the search finds before candle `i`. */
  function WaveOf(candles: seq<Candle>, i: nat, start: nat, side: Side): Wave
    requires start < i < |candles|
  {
    var peak := if side == Long then FirstHighest(candles, start, i) else FirstLowest(candles, start, i);
    Wave(start, if side == Long then FirstLowest(candles, start, peak + 1) else FirstHighest(candles, start, peak + 1),
         peak, if side == Long then FirstLowest(candles, peak + 1, i + 1) else FirstHighest(candles, peak + 1, i + 1))
  }

  lemma HighestIsFirst(candles: seq<Candle>, lo: nat, hi: nat)
    requires lo < hi <= |candles|
    ensures IsFirstHigh(FirstHighest(candles, lo, hi), candles, lo, hi)
  {
    FirstHighestIsHighest(candles, lo, hi);
  }

  lemma LowestIsFirst(candles: seq<Candle>, lo: nat, hi: nat)
    requires lo < hi <= |candles|
    ensures IsFirstLow(FirstLowest(candles, lo, hi), candles, lo, hi)
  {
    FirstLowestIsLowest(candles, lo, hi);
  }

  lemma WaveIs(candles: seq<Candle>, i: nat, start: nat, side: Side)
    requires start < i < |candles|
    ensures IsWave(WaveOf(candles, i, start, side), side, candles, i)
  {
    hide IsFirstHigh, IsFirstLow, FirstHighest, FirstLowest;
    var v := WaveOf(candles, i, start, side);
    match side {
      case Long =>
        HighestIsFirst(candles, start, i);
        LowestIsFirst(candles, start, v.peak + 1);
        LowestIsFirst(candles, v.peak + 1, i + 1);
      case Short =>
        LowestIsFirst(candles, start, i);
        HighestIsFirst(candles, start, v.peak + 1);
        HighestIsFirst(candles, v.peak + 1, i + 1);
    }
  }

  lemma FirstHighOnce(a: nat, b: nat, candles: seq<Candle>, lo: nat, hi: nat)
    requires IsFirstHigh(a, candles, lo, hi) && IsFirstHigh(b, candles, lo, hi)
    ensures a == b
  {
    assert candles[a].high <= candles[b].high && candles[b].high <= candles[a].high;
  }

  lemma FirstLowOnce(a: nat, b: nat, candles: seq<Candle>, lo: nat, hi: nat)
    requires IsFirstLow(a, candles, lo, hi) && IsFirstLow(b, candles, lo, hi)
    ensures a == b
  {
    assert candles[a].low <= candles[b].low && candles[b].low <= candles[a].low;
  }

  lemma WaveOnce(a: Wave, b: Wave, side: Side, candles: seq<Candle>, i: nat)
    requires IsWave(a, side, candles, i) && IsWave(b, side, candles, i) && a.start == b.start
    ensures a == b
  {
    hide IsFirstHigh, IsFirstLow;
    match side {
      case Long =>
        FirstHighOnce(a.peak, b.peak, candles, a.start, i);
        FirstLowOnce(a.foot, b.foot, candles, a.start, a.peak + 1);
        FirstLowOnce(a.turn, b.turn, candles, a.peak + 1, i + 1);
      case Short =>
        FirstLowOnce(a.peak, b.peak, candles, a.start, i);
        FirstHighOnce(a.foot, b.foot, candles, a.start, a.peak + 1);
        FirstHighOnce(a.turn, b.turn, candles, a.peak + 1, i + 1);
    }
  }

  lemma ContextIs(candles: seq<Candle>, i: nat, start: nat, side: Side)
    requires start + 3 <= i < |candles|
    ensures var v := WaveOf(candles, i, start, side);
      var range := Ahead(side, Outer(side, candles[v.peak]), Inner(side, candles[v.foot]));
      var back := Ahead(side, Outer(side, candles[v.peak]), Inner(side, candles[v.turn]));
      ExtremeContext(candles, i, start, side)
        == if v.peak + 1 < i && range > 0.0 then Some(Context(v.foot, v.peak, v.turn, Ratio(back, range))) else None
  {
    hide FirstHighest, FirstLowest, Ratio;
  }

  lemma SidesEngulf(prev: Candle, c: Candle)
    ensures BullishEngulfing(prev, c) <==> Engulfs(Long, prev, c)
    ensures BearishEngulfing(prev, c) <==> Engulfs(Short, prev, c)
  {
  }

  lemma WaveTrendIsTold(p: Profile, tf: Timeframe, candles: seq<Candle>, i: nat, regime: Snapshot, side: Side,
                        start: nat)
    requires 1 <= i < |candles| && regime.state == Trending(side) && start + 3 <= i
    requires start == SegmentStart(candles, regime.confirmedAt)
    requires match regime.confirmedAt case None => start == 0 case Some(ts) => Begins(start, candles, ts)
    requires Engulfs(side, candles[i - 1], candles[i])
    ensures TrendTold(TrendCandidate(p, tf, candles, i, regime, side), p, tf, candles, i, regime, side,
                      WaveOf(candles, i, start, side))
  {
    var v := WaveOf(candles, i, start, side);
    WaveIs(candles, i, start, side);
    ContextIs(candles, i, start, side);
    var range := Ahead(side, Outer(side, candles[v.peak]), Inner(side, candles[v.foot]));
    var back := Ahead(side, Outer(side, candles[v.peak]), Inner(side, candles[v.turn]));
    if range > 0.0 {
      RatioIs(back, range, p.pullbackRatio);
    }
    SidesEngulf(candles[i - 1], candles[i]);
    hide SegmentStart, Begins, ExtremeContext, Ratio, Scaled, IsWave, WaveOf, Engulfs, BullishEngulfing,
         BearishEngulfing;
  }

  lemma TrendIsTold(p: Profile, tf: Timeframe, candles: seq<Candle>, i: nat, regime: Snapshot, side: Side)
    requires Series(candles) && 1 <= i < |candles| && regime.state == Trending(side)
    ensures exists v :: TrendTold(TrendCandidate(p, tf, candles, i, regime, side), p, tf, candles, i, regime, side, v)
  {
    var start, o := SegmentStart(candles, regime.confirmedAt), TrendCandidate(p, tf, candles, i, regime, side);
    if regime.confirmedAt.Some? {
      BeginsWhere(candles, regime.confirmedAt.value);
    }
    if Engulfs(side, candles[i - 1], candles[i]) && start + 3 <= i {
      WaveTrendIsTold(p, tf, candles, i, regime, side, start);
    } else {
      hide SegmentStart, Begins, Series;
      assert TrendTold(o, p, tf, candles, i, regime, side, Wave(start, 0, 0, 0));
    }
  }

  lemma TrendOnce(a: Option<EntrySignal>, b: Option<EntrySignal>, p: Profile, tf: Timeframe, candles: seq<Candle>,
                  i: nat, regime: Snapshot, side: Side, v: Wave, w: Wave)
    requires 1 <= i < |candles|
    requires TrendTold(a, p, tf, candles, i, regime, side, v) && TrendTold(b, p, tf, candles, i, regime, side, w)
    ensures a == b
  {
    if regime.confirmedAt.Some? {
      BeginsOnce(v.start, w.start, candles, regime.confirmedAt.value);
    }
    hide Begins, Engulfs, Scaled;
    if Engulfs(side, candles[i - 1], candles[i]) && v.start + 3 <= i {
      WaveOnce(v, w, side, candles, i);
      hide IsWave;
      if a.Some? && b.Some? {
        RatioOnce(a.value.pullback.value, b.value.pullback.value,
                  Ahead(side, Outer(side, candles[v.peak]), Inner(side, candles[v.foot])));
      }
    }
  }

  /** A candle offers what is told of it, and nothing else is told of it. */
  lemma OfferIsTold(o: Option<EntrySignal>, p: Profile, tf: Timeframe, candles: seq<Candle>, i: nat, regime: Snapshot)
    requires Series(candles) && 1 <= i < |candles|
    ensures OfferTold(o, p, tf, candles, i, regime) <==> o == Candidate(p, tf, candles, i, regime)
  {
    hide FlatTold, TrendTold, FlatCandidate, TrendCandidate, Series;
    var found := Candidate(p, tf, candles, i, regime);
    match regime.state
    case Flat =>
      FlatIsTold(p, tf, candles, i, regime);
      forall v, w | FlatTold(o, p, tf, candles, i, regime, v) && FlatTold(found, p, tf, candles, i, regime, w)
        ensures o == found
      {
        FlatOnce(o, found, p, tf, candles, i, regime, v, w);
      }
    case Trending(side) =>
      TrendIsTold(p, tf, candles, i, regime, side);
      forall v, w
        | TrendTold(o, p, tf, candles, i, regime, side, v) && TrendTold(found, p, tf, candles, i, regime, side, w)
        ensures o == found
      {
        TrendOnce(o, found, p, tf, candles, i, regime, side, v, w);
      }
  }

  // ---- which offers become signals ----

  /** The snapshot in force at a time: the last one taken by then, or the first of all. */
  ghost predicate InForce(regimes: seq<Snapshot>, ts: int, r: nat) {
    && r < |regimes|
    && (r > 0 ==> regimes[r].ts <= ts)
    && forall j :: r < j < |regimes| ==> regimes[j].ts > ts
  }

  /** A candle of an entry timeframe: which timeframe, and which candle. */
  datatype Place = Place(frame: nat, candle: nat)

  /** The candle at a place offers a signal under the snapshot in force at its time. */
  ghost predicate OffersAt(p: Profile, market: Market, regimes: seq<Snapshot>, at: Place, s: EntrySignal) {
    && at.frame < |p.entryTimeframes| && p.entryTimeframes[at.frame] in market
    && var candles := market[p.entryTimeframes[at.frame]];
       && |candles| >= 3 && 1 <= at.candle < |candles|
       && exists r: nat :: (
            && InForce(regimes, candles[at.candle].ts, r)
            && OfferTold(Some(s), p, p.entryTimeframes[at.frame], candles, at.candle, regimes[r]))
  }

  /** The entry timeframes are walked in the profile's order, and each from its first candle on. */
  predicate Precedes(a: Place, b: Place) {
    a.frame < b.frame || (a.frame == b.frame && a.candle < b.candle)
  }

  /** The first place at which a signal of its context is offered. */
  ghost predicate FirstOffer(p: Profile, market: Market, regimes: seq<Snapshot>, at: Place, s: EntrySignal) {
    && OffersAt(p, market, regimes, at, s)
    && forall b: Place, t: EntrySignal ::
         Precedes(b, at) && OffersAt(p, market, regimes, b, t) ==> t.context != s.context
  }

  ghost predicate OnePerContext(signals: seq<EntrySignal>) {
    forall i, j :: 0 <= i < j < |signals| ==> signals[i].context != signals[j].context
  }

  function Name(tf: Timeframe): string {
    match tf case M5 => "5m" case M15 => "15m" case H1 => "1h" case H4 => "4h"
  }

  /** The order of names, character by character. */
  predicate ComesBefore(a: string, b: string) {
    b != [] && (a == [] || a[0] < b[0] || (a[0] == b[0] && ComesBefore(a[1..], b[1..])))
  }

  /** The signals are the first offers of their contexts, in time order and then by the names of their timeframes. */
  ghost predicate SignalsTold(p: Profile, market: Market, regimes: seq<Snapshot>, signals: seq<EntrySignal>) {
    && (forall s :: s in signals <==> exists at: Place :: FirstOffer(p, market, regimes, at, s))
    && OnePerContext(signals)
    && (forall i, j :: 0 <= i < j < |signals| ==>
          signals[i].ts < signals[j].ts
          || (signals[i].ts == signals[j].ts
              && !ComesBefore(Name(signals[j].timeframe), Name(signals[i].timeframe))))
  }

  // ---- the proof for a run ----

  lemma ForceIs(regimes: seq<Snapshot>, ts: int, r: nat)
    requires regimes != [] && Ordered(regimes)
    ensures InForce(regimes, ts, r) <==> r == RegimeIndex(regimes, ts, 0)
  {
    RegimeIsLatest(regimes, ts, 0);
    var k := RegimeIndex(regimes, ts, 0);
    hide RegimeIndex, Ordered;
    if InForce(regimes, ts, r) {
      assert r > 0 ==> (regimes[r].ts <= ts <==> r <= k);
      assert k > 0 ==> regimes[k].ts <= ts;
    }
  }

  lemma OffersAtIs(p: Profile, market: Market, regimes: seq<Snapshot>, at: Place, s: EntrySignal)
    requires SoundMarket(market) && regimes != [] && Ordered(regimes)
    ensures OffersAt(p, market, regimes, at, s)
       <==> (&& at.frame < |p.entryTimeframes|
             && var tf := p.entryTimeframes[at.frame];
                |CandlesOf(market, tf)| >= 3 && 1 <= at.candle < |CandlesOf(market, tf)|
                && CandidateAt(p, market, regimes, tf, at.candle) == Some(s))
  {
    hide OfferTold, Candidate, RegimeIndex, InForce, Ordered, Series;
    if at.frame < |p.entryTimeframes| {
      var tf := p.entryTimeframes[at.frame];
      var candles := CandlesOf(market, tf);
      if |candles| >= 3 && 1 <= at.candle < |candles| {
        var r := RegimeIndex(regimes, candles[at.candle].ts, 0);
        ForceIs(regimes, candles[at.candle].ts, r);
        OfferIsTold(Some(s), p, tf, candles, at.candle, regimes[r]);
        forall q: nat | InForce(regimes, candles[at.candle].ts, q) ensures q == r {
          ForceIs(regimes, candles[at.candle].ts, q);
        }
      }
    }
  }

  ghost predicate UsedBefore(p: Profile, market: Market, regimes: seq<Snapshot>, at: Place, c: ContextId) {
    exists b: Place, t: EntrySignal :: Precedes(b, at) && OffersAt(p, market, regimes, b, t) && t.context == c
  }

  ghost predicate FirstBefore(p: Profile, market: Market, regimes: seq<Snapshot>, at: Place, s: EntrySignal) {
    exists b: Place :: Precedes(b, at) && FirstOffer(p, market, regimes, b, s)
  }

  /** What is found once all places before `at` have been walked. */
  ghost predicate FoundTold(f: Found, p: Profile, market: Market, regimes: seq<Snapshot>, at: Place) {
    && (forall c :: c in f.used <==> UsedBefore(p, market, regimes, at, c))
    && (forall s :: s in f.signals <==> FirstBefore(p, market, regimes, at, s))
    && OnePerContext(f.signals)
  }

  /** Places without an offer between two places change nothing. */
  lemma SkipPlaces(f: Found, p: Profile, market: Market, regimes: seq<Snapshot>, a: Place, b: Place)
    requires FoundTold(f, p, market, regimes, a)
    requires forall c: Place, t: EntrySignal ::
      OffersAt(p, market, regimes, c, t) ==> (Precedes(c, a) <==> Precedes(c, b))
    ensures FoundTold(f, p, market, regimes, b)
  {
    hide OffersAt, Precedes;
  }

  lemma NextPlace(at: Place, next: Place)
    requires next == Place(at.frame, at.candle + 1)
    ensures forall b :: Precedes(b, next) <==> Precedes(b, at) || b == at
  {
  }

  lemma OfferUses(f: Found, p: Profile, market: Market, regimes: seq<Snapshot>, at: Place,
                  candidate: Option<EntrySignal>, next: Place, c: ContextId)
    requires FoundTold(f, p, market, regimes, at)
    requires forall t :: OffersAt(p, market, regimes, at, t) <==> candidate == Some(t)
    requires next == Place(at.frame, at.candle + 1)
    ensures c in Offer(f, candidate).used <==> UsedBefore(p, market, regimes, next, c)
  {
    NextPlace(at, next);
    hide OffersAt, Precedes, FirstBefore;
    if candidate.Some? && candidate.value.context == c {
      assert Precedes(at, next) && OffersAt(p, market, regimes, at, candidate.value);
    }
  }

  lemma OfferFinds(f: Found, p: Profile, market: Market, regimes: seq<Snapshot>, at: Place,
                   candidate: Option<EntrySignal>, next: Place, s: EntrySignal)
    requires FoundTold(f, p, market, regimes, at)
    requires forall t :: OffersAt(p, market, regimes, at, t) <==> candidate == Some(t)
    requires next == Place(at.frame, at.candle + 1)
    ensures s in Offer(f, candidate).signals <==> FirstBefore(p, market, regimes, next, s)
  {
    assert FirstOffer(p, market, regimes, at, s) <==> candidate == Some(s) && s.context !in f.used by {
      hide OffersAt, Precedes;
    }
    NextPlace(at, next);
    hide OffersAt, Precedes, FirstOffer, UsedBefore;
    assert s in Offer(f, candidate).signals <==> s in f.signals || (candidate == Some(s) && s.context !in f.used);
  }

  lemma OfferKeepsDistinct(f: Found, p: Profile, market: Market, regimes: seq<Snapshot>, at: Place,
                           candidate: Option<EntrySignal>, i: nat, j: nat)
    requires FoundTold(f, p, market, regimes, at) && i < j < |Offer(f, candidate).signals|
    ensures Offer(f, candidate).signals[i].context != Offer(f, candidate).signals[j].context
  {
    hide OffersAt, Precedes;
    if j == |f.signals| {
      var s := f.signals[i];
      assert s in f.signals;
      var b :| Precedes(b, at) && FirstOffer(p, market, regimes, b, s);
      assert s.context in f.used;
    }
  }

  lemma OfferOne(f: Found, p: Profile, market: Market, regimes: seq<Snapshot>, at: Place,
                 candidate: Option<EntrySignal>)
    requires FoundTold(f, p, market, regimes, at)
    requires forall t :: OffersAt(p, market, regimes, at, t) <==> candidate == Some(t)
    ensures FoundTold(Offer(f, candidate), p, market, regimes, Place(at.frame, at.candle + 1))
  {
    hide OffersAt, Precedes, UsedBefore, FirstBefore, Offer;
    var next, g := Place(at.frame, at.candle + 1), Offer(f, candidate);
    forall c ensures c in g.used <==> UsedBefore(p, market, regimes, next, c) {
      OfferUses(f, p, market, regimes, at, candidate, next, c);
    }
    forall s ensures s in g.signals <==> FirstBefore(p, market, regimes, next, s) {
      OfferFinds(f, p, market, regimes, at, candidate, next, s);
    }
    forall i, j | 0 <= i < j < |g.signals| ensures g.signals[i].context != g.signals[j].context {
      OfferKeepsDistinct(f, p, market, regimes, at, candidate, i, j);
    }
  }

  lemma {:induction false} ScanIsTold(p: Profile, market: Market, regimes: seq<Snapshot>, k: nat, n: nat, start: Found)
    requires SoundMarket(market) && regimes != [] && Ordered(regimes) && k < |p.entryTimeframes|
    requires |CandlesOf(market, p.entryTimeframes[k])| >= 3 && 1 <= n <= |CandlesOf(market, p.entryTimeframes[k])|
    requires FoundTold(start, p, market, regimes, Place(k, 1))
    ensures FoundTold(Scan(p, market, regimes, p.entryTimeframes[k], n, start), p, market, regimes, Place(k, n))
  {
    hide FoundTold, OffersAt, CandidateAt, Offer;
    if n > 1 {
      var tf, at := p.entryTimeframes[k], Place(k, n - 1);
      ScanIsTold(p, market, regimes, k, n - 1, start);
      forall t ensures OffersAt(p, market, regimes, at, t) <==> CandidateAt(p, market, regimes, tf, n - 1) == Some(t) {
        OffersAtIs(p, market, regimes, at, t);
      }
      OfferOne(Scan(p, market, regimes, tf, n - 1, start), p, market, regimes, at,
               CandidateAt(p, market, regimes, tf, n - 1));
    }
  }

  lemma NothingFound(p: Profile, market: Market, regimes: seq<Snapshot>)
    ensures FoundTold(Found([], {}), p, market, regimes, Place(0, 1))
  {
    hide OfferTold, InForce;
    assert forall b, t :: OffersAt(p, market, regimes, b, t) ==> !Precedes(b, Place(0, 1));
    hide OffersAt, Precedes;
  }

  /** A timeframe offers nothing on its first candle, beyond its last, or when it has fewer than three. */
  lemma NoneAfter(p: Profile, market: Market, regimes: seq<Snapshot>, k: nat)
    requires k < |p.entryTimeframes|
    ensures var n := |CandlesOf(market, p.entryTimeframes[k])|;
      forall c: Place, t: EntrySignal :: OffersAt(p, market, regimes, c, t) ==>
        (Precedes(c, Place(k, if n < 3 then 1 else n)) <==> Precedes(c, Place(k + 1, 1)))
  {
    hide OfferTold, InForce;
  }

  lemma ScanFrameIsTold(p: Profile, market: Market, regimes: seq<Snapshot>, k: nat, start: Found)
    requires SoundMarket(market) && regimes != [] && Ordered(regimes) && k < |p.entryTimeframes|
    requires FoundTold(start, p, market, regimes, Place(k, 1))
    ensures FoundTold(ScanTimeframe(p, market, regimes, p.entryTimeframes[k], start), p, market, regimes,
                      Place(k + 1, 1))
  {
    hide FoundTold, OffersAt, Precedes, CandidateAt, SoundMarket, Ordered, Scan;
    var tf := p.entryTimeframes[k];
    var n := |CandlesOf(market, tf)|;
    NoneAfter(p, market, regimes, k);
    if n < 3 {
      SkipPlaces(start, p, market, regimes, Place(k, 1), Place(k + 1, 1));
    } else {
      ScanIsTold(p, market, regimes, k, n, start);
      SkipPlaces(Scan(p, market, regimes, tf, n, start), p, market, regimes, Place(k, n), Place(k + 1, 1));
    }
  }

  lemma {:induction false} ScanAllIsTold(p: Profile, market: Market, regimes: seq<Snapshot>, k: nat)
    requires SoundMarket(market) && regimes != [] && Ordered(regimes) && k <= |p.entryTimeframes|
    ensures FoundTold(ScanAll(p, market, regimes, k), p, market, regimes, Place(k, 1))
  {
    hide FoundTold, SoundMarket, Ordered, ScanTimeframe;
    if k == 0 {
      NothingFound(p, market, regimes);
    } else {
      ScanAllIsTold(p, market, regimes, k - 1);
      ScanFrameIsTold(p, market, regimes, k - 1, ScanAll(p, market, regimes, k - 1));
    }
  }

  lemma RanksAreNames(a: Timeframe, b: Timeframe)
    ensures NameRank(a) <= NameRank(b) <==> !ComesBefore(Name(b), Name(a))
  {
    assert "15m"[1..] == "5m" && "1h"[1..] == "h" && "4h"[1..] == "h" && "5m"[1..] == "m";
    assert "h"[1..] == [] && "m"[1..] == [];
  }

  lemma LeIsPreorder()
    ensures TotalPreorder(SignalLe)
  {
  }

  lemma {:induction false} DistinctCounts(a: seq<EntrySignal>, x: EntrySignal)
    requires OnePerContext(a)
    ensures multiset(a)[x] <= 1
  {
    if a != [] {
      var n := |a| - 1;
      DistinctCounts(a[..n], x);
      assert a == a[..n] + [a[n]];
    }
  }

  lemma TwiceCounts(b: seq<EntrySignal>, i: nat, j: nat)
    requires i < j < |b| && b[i] == b[j]
    ensures multiset(b)[b[i]] >= 2
  {
    assert b == b[..j] + b[j..];
    assert b[i] in b[..j] && b[j] in b[j..] by { assert b[..j][i] == b[i] && b[j..][0] == b[j]; }
    assert b[i] in multiset(b[..j]) && b[i] in multiset(b[j..]);
  }

  /** Distinct contexts survive the sorting. */
  lemma ContextsStayDistinct(a: seq<EntrySignal>, b: seq<EntrySignal>)
    requires multiset(a) == multiset(b)
    requires OnePerContext(a)
    ensures OnePerContext(b)
  {
    forall i, j | 0 <= i < j < |b| ensures b[i].context != b[j].context {
      assert b[i] in multiset(b) && b[j] in multiset(b);
      assert b[i] in a && b[j] in a by { assert b[i] in multiset(a) && b[j] in multiset(a); }
      DistinctCounts(a, b[i]);
      if b[i] == b[j] {
        TwiceCounts(b, i, j);
      }
    }
  }

  lemma SortedByName(signals: seq<EntrySignal>, i: nat, j: nat)
    requires Sorted(signals, SignalLe) && i < j < |signals|
    ensures signals[i].ts < signals[j].ts
            || (signals[i].ts == signals[j].ts
                && !ComesBefore(Name(signals[j].timeframe), Name(signals[i].timeframe)))
  {
    assert SignalLe(signals[i], signals[j]);
    RanksAreNames(signals[i].timeframe, signals[j].timeframe);
  }

  /** Every place precedes the end of the walk. */
  lemma AllPlacesPrecede(p: Profile, market: Market, regimes: seq<Snapshot>, at: Place, s: EntrySignal)
    requires OffersAt(p, market, regimes, at, s)
    ensures Precedes(at, Place(|p.entryTimeframes|, 1))
  {
  }

  lemma FoundAreFirst(p: Profile, market: Market, regimes: seq<Snapshot>, s: EntrySignal)
    requires SoundMarket(market) && regimes != [] && Ordered(regimes)
    ensures s in ScanAll(p, market, regimes, |p.entryTimeframes|).signals
       <==> exists at: Place :: FirstOffer(p, market, regimes, at, s)
  {
    ScanAllIsTold(p, market, regimes, |p.entryTimeframes|);
    var end := Place(|p.entryTimeframes|, 1);
    hide ScanAll, SoundMarket, Ordered, Precedes, OffersAt;
    forall at: Place | FirstOffer(p, market, regimes, at, s) ensures Precedes(at, end) {
      AllPlacesPrecede(p, market, regimes, at, s);
    }
  }

  lemma FoundAreDistinct(p: Profile, market: Market, regimes: seq<Snapshot>)
    requires SoundMarket(market) && regimes != [] && Ordered(regimes)
    ensures OnePerContext(ScanAll(p, market, regimes, |p.entryTimeframes|).signals)
  {
    hide ScanAll, UsedBefore, FirstBefore;
    ScanAllIsTold(p, market, regimes, |p.entryTimeframes|);
  }

  /** The signals of a run are the first offers of their contexts, in order. */
  lemma SignalsAreTold(p: Profile, market: Market, regimes: seq<Snapshot>)
    requires SoundMarket(market) && regimes != [] && Ordered(regimes)
    ensures SignalsTold(p, market, regimes, SignalsOf(p, market, regimes))
  {
    var f, signals := ScanAll(p, market, regimes, |p.entryTimeframes|), SignalsOf(p, market, regimes);
    hide ScanAll, SoundMarket, Ordered, FirstOffer, OffersAt, OnePerContext, StableSort, TotalPreorder, Sorted,
         ComesBefore, Name;
    LeIsPreorder();
    SortSorts(f.signals, SignalLe);
    SortPermutes(f.signals, SignalLe);
    FoundAreDistinct(p, market, regimes);
    ContextsStayDistinct(f.signals, signals);
    forall s ensures s in signals <==> exists at: Place :: FirstOffer(p, market, regimes, at, s) {
      SortMember(f.signals, SignalLe, s);
      FoundAreFirst(p, market, regimes, s);
    }
    forall i, j | 0 <= i < j < |signals|
      ensures signals[i].ts < signals[j].ts
              || (signals[i].ts == signals[j].ts
                  && !ComesBefore(Name(signals[j].timeframe), Name(signals[i].timeframe)))
    {
      SortedByName(signals, i, j);
    }
  }
}
