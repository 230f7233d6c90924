/**
 Which prices break which pivots: the snapshots of a run told from the candles
 and the pivots alone, without the machine that takes them.
 */
module RegimeBreaks {
  import opened Prelude
  import opened Candles
  import opened Pivots
  import opened Regime

  /** The latest pivot of a kind that is confirmed by `ts`. */
  ghost predicate IsLatest(pivots: seq<Pivot>, kind: PivotKind, ts: int, k: nat) {
    && k < |pivots| && pivots[k].kind == kind && pivots[k].ts <= ts
    && forall j :: k < j < |pivots| && pivots[j].kind == kind ==> pivots[j].ts > ts
  }

  /** What was known before candle `n`: the snapshot before it, or nothing. */
  function Previous(snaps: seq<Snapshot>, n: nat): Snapshot
    requires n <= |snaps|
  {
    if n == 0 then Snapshot(0, Flat, 0, 0, None, None, None, None, None) else snaps[n - 1]
  }

  /** Candle `n` counts as a break in this direction. */
  ghost predicate BreaksAt(snaps: seq<Snapshot>, n: nat, d: Direction) {
    n < |snaps| && snaps[n].sequenceId == Previous(snaps, n).sequenceId + 1 && snaps[n].lastBreak == Some(d)
  }

  /** An earlier break in this direction met pivot `k` as the latest of its kind. */
  ghost predicate Spent(snaps: seq<Snapshot>, candles: seq<Candle>, pivots: seq<Pivot>, d: Direction, n: nat, k: nat)
    requires n <= |candles|
  {
    exists m: nat :: (0 <= m < n && BreaksAt(snaps, m, d)
                 && IsLatest(pivots, if d == Up then High else Low, candles[m].ts, k))
  }

  /** Candle `n` passes the latest unspent high by the distance `gap`: with its high, or with its close. */
  ghost predicate Above(snaps: seq<Snapshot>, candles: seq<Candle>, pivots: seq<Pivot>, basis: BreakBasis, n: nat,
                        gap: real)
    requires n < |candles|
  {
    var price := match basis case Wick => candles[n].high case Close => candles[n].close;
    exists k: nat :: (IsLatest(pivots, High, candles[n].ts, k) && !Spent(snaps, candles, pivots, Up, n, k)
                 && 0.0 < gap == price - pivots[k].price)
  }

  /** Candle `n` passes the latest unspent low by the distance `gap`: with its low, or with its close. */
  ghost predicate Below(snaps: seq<Snapshot>, candles: seq<Candle>, pivots: seq<Pivot>, basis: BreakBasis, n: nat,
                        gap: real)
    requires n < |candles|
  {
    var price := match basis case Wick => candles[n].low case Close => candles[n].close;
    exists k: nat :: (IsLatest(pivots, Low, candles[n].ts, k) && !Spent(snaps, candles, pivots, Down, n, k)
                 && 0.0 < gap == pivots[k].price - price)
  }

  /** The price that a snapshot reports for a kind is that of the latest pivot. */
  ghost predicate Reports(price: Option<real>, pivots: seq<Pivot>, kind: PivotKind, ts: int) {
    match price
    case None => forall k: nat :: !IsLatest(pivots, kind, ts, k)
    case Some(x) => exists k: nat :: IsLatest(pivots, kind, ts, k) && pivots[k].price == x
  }

  /** Without a break everything stays; a second break in a row makes a trend, confirmed on its candle. */
  predicate Follows(s: Snapshot, before: Snapshot) {
    if s.sequenceId == before.sequenceId then
      && s.state == before.state && s.breakCount == before.breakCount && s.lastBreak == before.lastBreak
      && s.confirmedWave == before.confirmedWave && s.confirmedAt == before.confirmedAt
    else if s.lastBreak == before.lastBreak then
      && s.sequenceId == before.sequenceId + 1 && s.breakCount == 2
      && s.state == Trending(if s.lastBreak == Some(Up) then Long else Short)
      && s.confirmedWave == Some(s.sequenceId) && s.confirmedAt == Some(s.ts)
    else
      && s.sequenceId == before.sequenceId + 1 && s.breakCount == 1 && s.state == Flat
      && s.confirmedWave == None && s.confirmedAt == None
  }

  /**
   A candle breaks upwards exactly when it passes the latest unspent high, and no
   lower low by more; it breaks downwards exactly when it passes the latest unspent
   low, by more than it passes a high.
   */
  ghost predicate DeclaredAt(snaps: seq<Snapshot>, candles: seq<Candle>, pivots: seq<Pivot>, basis: BreakBasis, n: nat)
    requires n < |candles| == |snaps|
  {
    && (BreaksAt(snaps, n, Up)
        <==> exists up :: (Above(snaps, candles, pivots, basis, n, up)
                           && forall down :: Below(snaps, candles, pivots, basis, n, down) ==> up >= down))
    && (BreaksAt(snaps, n, Down)
        <==> exists down :: (Below(snaps, candles, pivots, basis, n, down)
                             && forall up :: Above(snaps, candles, pivots, basis, n, up) ==> up < down))
    && snaps[n].ts == candles[n].ts
    && Reports(snaps[n].lastHighPrice, pivots, High, candles[n].ts)
    && Reports(snaps[n].lastLowPrice, pivots, Low, candles[n].ts)
    && Follows(snaps[n], Previous(snaps, n))
  }

  ghost predicate Declared(snaps: seq<Snapshot>, candles: seq<Candle>, pivots: seq<Pivot>, basis: BreakBasis) {
    |snaps| == |candles| && forall n :: 0 <= n < |candles| ==> DeclaredAt(snaps, candles, pivots, basis, n)
  }

  // ---- what the machine has absorbed ----

  /** The last pivot of a kind among the first `n`. */
  ghost predicate LastIn(v: Option<Pivot>, kind: PivotKind, pivots: seq<Pivot>, n: nat)
    requires n <= |pivots|
  {
    match v
    case None => forall j :: 0 <= j < n ==> pivots[j].kind != kind
    case Some(x) =>
      exists k: nat :: (0 <= k < n && pivots[k] == x && x.kind == kind
                   && forall j :: k < j < n ==> pivots[j].kind != kind)
  }

  ghost predicate Holds(r: Regime, pivots: seq<Pivot>) {
    && r.pivotIndex <= |pivots|
    && LastIn(r.lastHigh, High, pivots, r.pivotIndex) && LastIn(r.lastLow, Low, pivots, r.pivotIndex)
  }

  lemma {:induction false} AbsorbHolds(r: Regime, pivots: seq<Pivot>, ts: int)
    requires Holds(r, pivots)
    ensures Holds(Absorb(r, pivots, ts), pivots)
    decreases |pivots| - r.pivotIndex
  {
    if r.pivotIndex < |pivots| && pivots[r.pivotIndex].ts <= ts {
      var v := pivots[r.pivotIndex];
      var seen := if v.kind == High then r.(lastHigh := Some(v)) else r.(lastLow := Some(v));
      AbsorbHolds(seen.(pivotIndex := r.pivotIndex + 1), pivots, ts);
    }
  }

  lemma StepHolds(r: Regime, c: Candle, pivots: seq<Pivot>, basis: BreakBasis)
    requires Holds(r, pivots)
    ensures Holds(Step(r, c, pivots, basis), pivots)
  {
    AbsorbHolds(r, pivots, c.ts);
    hide LastIn, Absorb;
  }

  lemma {:induction false} RegimeHolds(candles: seq<Candle>, pivots: seq<Pivot>, basis: BreakBasis, n: nat)
    requires n <= |candles|
    ensures Holds(RegimeAfter(candles, pivots, basis, n), pivots)
  {
    if n > 0 {
      hide Holds, Step;
      RegimeHolds(candles, pivots, basis, n - 1);
      StepHolds(RegimeAfter(candles, pivots, basis, n - 1), candles[n - 1], pivots, basis);
    }
  }

  /** The machine as it looks at candle `n`. */
  function SeenAt(candles: seq<Candle>, pivots: seq<Pivot>, basis: BreakBasis, n: nat): Regime
    requires n < |candles|
  {
    Absorb(RegimeAfter(candles, pivots, basis, n), pivots, candles[n].ts)
  }

  /** The pivot held for a kind is the latest one confirmed by `ts`. */
  ghost predicate HoldsLatest(v: Option<Pivot>, pivots: seq<Pivot>, kind: PivotKind, ts: int) {
    match v
    case None => forall k: nat :: !IsLatest(pivots, kind, ts, k)
    case Some(x) => exists k: nat :: IsLatest(pivots, kind, ts, k) && pivots[k] == x
  }

  lemma LastIsLatest(v: Option<Pivot>, kind: PivotKind, pivots: seq<Pivot>, n: nat, ts: int)
    requires n <= |pivots| && LastIn(v, kind, pivots, n)
    requires forall j :: 0 <= j < |pivots| ==> (pivots[j].ts <= ts <==> j < n)
    ensures HoldsLatest(v, pivots, kind, ts)
  {
    if v.Some? {
      var k :| 0 <= k < n && pivots[k] == v.value && v.value.kind == kind
        && forall j :: k < j < n ==> pivots[j].kind != kind;
      assert IsLatest(pivots, kind, ts, k);
    }
  }

  lemma SeenIsLatest(candles: seq<Candle>, pivots: seq<Pivot>, basis: BreakBasis, n: nat)
    requires Series(candles) && Chronological(pivots) && n < |candles|
    ensures var seen := SeenAt(candles, pivots, basis, n);
      && HoldsLatest(seen.lastHigh, pivots, High, candles[n].ts)
      && HoldsLatest(seen.lastLow, pivots, Low, candles[n].ts)
  {
    hide RegimeAfter, Absorb, LastIn, HoldsLatest, Tracks, Breaks;
    var r, seen := RegimeAfter(candles, pivots, basis, n), SeenAt(candles, pivots, basis, n);
    RegimeHolds(candles, pivots, basis, n);
    AbsorbHolds(r, pivots, candles[n].ts);
    AbsorbKeeps(r, pivots, candles[n].ts);
    AbsorbedByNow(candles, pivots, basis, n + 1);
    forall j | 0 <= j < |pivots| ensures pivots[j].ts <= candles[n].ts <==> j < seen.pivotIndex {
      if j < seen.pivotIndex {
        assert pivots[j] in pivots[..seen.pivotIndex];
      }
    }
    LastIsLatest(seen.lastHigh, High, pivots, seen.pivotIndex, candles[n].ts);
    LastIsLatest(seen.lastLow, Low, pivots, seen.pivotIndex, candles[n].ts);
  }

  // ---- breaks and snapshots ----

  /** Everything of a snapshot that does not depend on its candle. */
  predicate Mirrors(s: Snapshot, r: Regime) {
    && s.state == r.state && s.sequenceId == r.sequenceId && s.breakCount == r.breakCount
    && s.lastBreak == r.lastBreak && s.confirmedWave == r.confirmedWave && s.confirmedAt == r.confirmedAt
  }

  lemma SnapshotIs(candles: seq<Candle>, pivots: seq<Pivot>, basis: BreakBasis, n: nat)
    requires n < |candles|
    ensures var snaps, r := SnapshotsOf(candles, pivots, basis), RegimeAfter(candles, pivots, basis, n + 1);
      && |snaps| == |candles|
      && Mirrors(snaps[n], r) && snaps[n].ts == candles[n].ts
      && snaps[n].lastHighPrice == PriceOf(r.lastHigh) && snaps[n].lastLowPrice == PriceOf(r.lastLow)
  {
    hide RegimeAfter;
  }

  lemma PreviousIs(candles: seq<Candle>, pivots: seq<Pivot>, basis: BreakBasis, n: nat)
    requires n <= |candles|
    ensures var snaps := SnapshotsOf(candles, pivots, basis);
      |snaps| == |candles| && Mirrors(Previous(snaps, n), RegimeAfter(candles, pivots, basis, n))
  {
    if n > 0 {
      hide RegimeAfter;
      SnapshotIs(candles, pivots, basis, n - 1);
    } else {
      RegimeStarts(candles, pivots, basis);
    }
  }

  /** The break event of candle `n`. */
  function EventAt(candles: seq<Candle>, pivots: seq<Pivot>, basis: BreakBasis, n: nat): Option<Direction>
    requires n < |candles|
  {
    EventOf(SeenAt(candles, pivots, basis, n), candles[n], basis)
  }

  lemma NextIs(candles: seq<Candle>, pivots: seq<Pivot>, basis: BreakBasis, n: nat)
    requires n < |candles|
    ensures var seen, event := SeenAt(candles, pivots, basis, n), EventAt(candles, pivots, basis, n);
      RegimeAfter(candles, pivots, basis, n + 1)
      == match event case None => seen case Some(d) => Break(seen, d, candles[n].ts)
  {
    hide Absorb;
  }

  lemma StepFollows(s: Snapshot, before: Snapshot, seen: Regime, event: Option<Direction>, ts: int, b: seq<BreakEvent>)
    requires Mirrors(before, seen) && Tracks(seen, b) && s.ts == ts
    requires event == Some(Up) ==> seen.lastHigh.Some?
    requires event == Some(Down) ==> seen.lastLow.Some?
    requires Mirrors(s, match event case None => seen case Some(d) => Break(seen, d, ts))
    ensures Follows(s, before)
    ensures s.sequenceId == before.sequenceId + 1 <==> event.Some?
    ensures event.Some? ==> s.lastBreak == event
  {
  }

  lemma EventHasPivot(r: Regime, c: Candle, basis: BreakBasis)
    ensures EventOf(r, c, basis) == Some(Up) ==> r.lastHigh.Some?
    ensures EventOf(r, c, basis) == Some(Down) ==> r.lastLow.Some?
  {
  }

  lemma SeenMirrors(candles: seq<Candle>, pivots: seq<Pivot>, basis: BreakBasis, n: nat)
    requires n < |candles|
    ensures var r, seen := RegimeAfter(candles, pivots, basis, n), SeenAt(candles, pivots, basis, n);
      && seen == r.(lastHigh := seen.lastHigh, lastLow := seen.lastLow, pivotIndex := seen.pivotIndex)
      && Tracks(seen, Breaks(candles, pivots, basis, n))
  {
    hide RegimeAfter, Absorb, Breaks, LastTwo;
    RegimeHolds(candles, pivots, basis, n);
    AbsorbKeeps(RegimeAfter(candles, pivots, basis, n), pivots, candles[n].ts);
    TwoBreaksMakeATrend(candles, pivots, basis, n);
  }

  /** The sequence number moves exactly with the events of the machine. */
  lemma BreaksAreEvents(candles: seq<Candle>, pivots: seq<Pivot>, basis: BreakBasis, n: nat)
    requires n < |candles|
    ensures var snaps := SnapshotsOf(candles, pivots, basis);
      && |snaps| == |candles|
      && Follows(snaps[n], Previous(snaps, n))
      && forall d :: BreaksAt(snaps, n, d) <==> EventAt(candles, pivots, basis, n) == Some(d)
  {
    hide RegimeAfter, SnapshotsOf, SeenAt, EventAt, Tracks, Break, Follows, Previous;
    SnapshotIs(candles, pivots, basis, n);
    PreviousIs(candles, pivots, basis, n);
    NextIs(candles, pivots, basis, n);
    SeenMirrors(candles, pivots, basis, n);
    EventAtHasPivot(candles, pivots, basis, n);
    var snaps := SnapshotsOf(candles, pivots, basis);
    StepFollows(snaps[n], Previous(snaps, n), SeenAt(candles, pivots, basis, n), EventAt(candles, pivots, basis, n),
                candles[n].ts, Breaks(candles, pivots, basis, n));
  }

  lemma EventAtHasPivot(candles: seq<Candle>, pivots: seq<Pivot>, basis: BreakBasis, n: nat)
    requires n < |candles|
    ensures EventAt(candles, pivots, basis, n) == Some(Up) ==> SeenAt(candles, pivots, basis, n).lastHigh.Some?
    ensures EventAt(candles, pivots, basis, n) == Some(Down) ==> SeenAt(candles, pivots, basis, n).lastLow.Some?
  {
    hide EventOf, SeenAt;
    EventHasPivot(SeenAt(candles, pivots, basis, n), candles[n], basis);
  }

  // ---- which pivots are spent ----

  function KindOf(d: Direction): PivotKind { if d == Up then High else Low }

  function BrokenTs(r: Regime, d: Direction): Option<int> { if d == Up then r.brokenHighTs else r.brokenLowTs }

  /** The remembered time is that of the latest spent pivot. */
  ghost predicate Remembers(ts: Option<int>, snaps: seq<Snapshot>, candles: seq<Candle>, pivots: seq<Pivot>,
                            d: Direction, n: nat)
    requires n <= |candles|
  {
    && (forall k: nat :: Spent(snaps, candles, pivots, d, n, k) ==> ts.Some? && pivots[k].ts <= ts.value)
    && (ts.Some? ==> exists k: nat :: Spent(snaps, candles, pivots, d, n, k) && pivots[k].ts == ts.value)
  }

  lemma SpentIsPast(snaps: seq<Snapshot>, candles: seq<Candle>, pivots: seq<Pivot>, d: Direction, n: nat, k: nat,
                    l: nat)
    requires Series(candles) && n < |candles| && Spent(snaps, candles, pivots, d, n, k)
    requires IsLatest(pivots, KindOf(d), candles[n].ts, l) && Chronological(pivots)
    ensures k <= l && k < |pivots| && pivots[k].ts <= pivots[l].ts
  {
    var m :| 0 <= m < n && BreaksAt(snaps, m, d) && IsLatest(pivots, KindOf(d), candles[m].ts, k);
  }

  lemma SpentNext(snaps: seq<Snapshot>, candles: seq<Candle>, pivots: seq<Pivot>, d: Direction, n: nat, k: nat)
    requires n < |candles|
    ensures Spent(snaps, candles, pivots, d, n + 1, k)
       <==> Spent(snaps, candles, pivots, d, n, k)
            || (BreaksAt(snaps, n, d) && IsLatest(pivots, KindOf(d), candles[n].ts, k))
  {
    hide BreaksAt, IsLatest;
  }

  lemma LatestIsUnique(pivots: seq<Pivot>, kind: PivotKind, ts: int, k: nat, l: nat)
    requires IsLatest(pivots, kind, ts, k) && IsLatest(pivots, kind, ts, l)
    ensures k == l
  {
  }

  lemma RememberNext(ts: Option<int>, snaps: seq<Snapshot>, candles: seq<Candle>, pivots: seq<Pivot>, d: Direction,
                     n: nat, l: nat)
    requires Series(candles) && n < |candles| && Chronological(pivots) && Remembers(ts, snaps, candles, pivots, d, n)
    requires BreaksAt(snaps, n, d) ==> IsLatest(pivots, KindOf(d), candles[n].ts, l)
    ensures Remembers(if BreaksAt(snaps, n, d) && l < |pivots| then Some(pivots[l].ts) else ts,
                      snaps, candles, pivots, d, n + 1)
  {
    forall k: nat ensures Spent(snaps, candles, pivots, d, n + 1, k)
      <==> Spent(snaps, candles, pivots, d, n, k) || (BreaksAt(snaps, n, d) && k == l)
    {
      SpentNext(snaps, candles, pivots, d, n, k);
      if BreaksAt(snaps, n, d) && IsLatest(pivots, KindOf(d), candles[n].ts, k) {
        LatestIsUnique(pivots, KindOf(d), candles[n].ts, k, l);
      }
    }
    if BreaksAt(snaps, n, d) {
      forall k: nat | Spent(snaps, candles, pivots, d, n, k) ensures pivots[k].ts <= pivots[l].ts {
        SpentIsPast(snaps, candles, pivots, d, n, k, l);
      }
    }
    hide Spent, BreaksAt, IsLatest, Series, Chronological;
  }

  lemma {:induction false} RunRemembers(candles: seq<Candle>, pivots: seq<Pivot>, basis: BreakBasis, d: Direction,
                                        n: nat)
    requires Series(candles) && Chronological(pivots) && n <= |candles|
    ensures Remembers(BrokenTs(RegimeAfter(candles, pivots, basis, n), d), SnapshotsOf(candles, pivots, basis),
                      candles, pivots, d, n)
  {
    hide RegimeAfter, SnapshotsOf, Remembers, SeenAt, EventAt, Chronological, Series, Tracks, Follows, HoldsLatest;
    var snaps := SnapshotsOf(candles, pivots, basis);
    if n == 0 {
      NothingSpent(candles, pivots, basis, d);
    } else {
      RunRemembers(candles, pivots, basis, d, n - 1);
      var r, seen := RegimeAfter(candles, pivots, basis, n - 1), SeenAt(candles, pivots, basis, n - 1);
      NextIs(candles, pivots, basis, n - 1);
      SeenMirrors(candles, pivots, basis, n - 1);
      BreaksAreEvents(candles, pivots, basis, n - 1);
      EventAtHasPivot(candles, pivots, basis, n - 1);
      SeenIsLatest(candles, pivots, basis, n - 1);
      var l := LatestIndex(if d == Up then seen.lastHigh else seen.lastLow, pivots, KindOf(d), candles[n - 1].ts);
      RememberNext(BrokenTs(r, d), snaps, candles, pivots, d, n - 1, l);
    }
  }

  lemma LatestIndex(v: Option<Pivot>, pivots: seq<Pivot>, kind: PivotKind, ts: int) returns (k: nat)
    requires HoldsLatest(v, pivots, kind, ts)
    ensures v.Some? ==> IsLatest(pivots, kind, ts, k) && pivots[k] == v.value
    ensures v == None ==> forall j: nat :: !IsLatest(pivots, kind, ts, j)
  {
    k := 0;
    if v.Some? {
      k :| IsLatest(pivots, kind, ts, k) && pivots[k] == v.value;
    }
  }

  lemma NothingSpent(candles: seq<Candle>, pivots: seq<Pivot>, basis: BreakBasis, d: Direction)
    ensures Remembers(BrokenTs(RegimeAfter(candles, pivots, basis, 0), d), SnapshotsOf(candles, pivots, basis),
                      candles, pivots, d, 0)
  {
  }

  /** The machine takes a pivot for unbroken exactly when no earlier break met it. */
  lemma SpentIs(ts: Option<int>, snaps: seq<Snapshot>, candles: seq<Candle>, pivots: seq<Pivot>, d: Direction, n: nat,
                l: nat)
    requires Series(candles) && Chronological(pivots) && n < |candles| && Remembers(ts, snaps, candles, pivots, d, n)
    requires IsLatest(pivots, KindOf(d), candles[n].ts, l)
    ensures Spent(snaps, candles, pivots, d, n, l) <==> ts == Some(pivots[l].ts)
  {
    if Spent(snaps, candles, pivots, d, n, l) {
      var k: nat :| Spent(snaps, candles, pivots, d, n, k) && pivots[k].ts == ts.value;
      SpentIsPast(snaps, candles, pivots, d, n, k, l);
    }
    if ts == Some(pivots[l].ts) {
      var k: nat :| Spent(snaps, candles, pivots, d, n, k) && pivots[k].ts == ts.value;
      SpentIsPast(snaps, candles, pivots, d, n, k, l);
    }
    hide Spent;
  }

  /** The machine's test for a broken high and the declared one agree, and so do their distances. */
  ghost predicate PassesUp(snaps: seq<Snapshot>, candles: seq<Candle>, pivots: seq<Pivot>, basis: BreakBasis, n: nat,
                           seen: Regime)
    requires n < |candles|
  {
    forall gap :: (Above(snaps, candles, pivots, basis, n, gap)
      <==> UpBroken(seen, candles[n], basis) && gap == BasisUp(candles[n], basis) - seen.lastHigh.value.price)
  }

  ghost predicate PassesDown(snaps: seq<Snapshot>, candles: seq<Candle>, pivots: seq<Pivot>, basis: BreakBasis, n: nat,
                             seen: Regime)
    requires n < |candles|
  {
    forall gap :: (Below(snaps, candles, pivots, basis, n, gap)
      <==> DownBroken(seen, candles[n], basis) && gap == seen.lastLow.value.price - BasisDown(candles[n], basis))
  }

  lemma AboveIs(snaps: seq<Snapshot>, candles: seq<Candle>, pivots: seq<Pivot>, basis: BreakBasis, n: nat,
                seen: Regime)
    requires Series(candles) && Chronological(pivots) && n < |candles|
    requires HoldsLatest(seen.lastHigh, pivots, High, candles[n].ts)
    requires Remembers(seen.brokenHighTs, snaps, candles, pivots, Up, n)
    ensures PassesUp(snaps, candles, pivots, basis, n, seen)
  {
    var l := LatestIndex(seen.lastHigh, pivots, High, candles[n].ts);
    if seen.lastHigh.Some? {
      SpentIs(seen.brokenHighTs, snaps, candles, pivots, Up, n, l);
      forall k: nat | IsLatest(pivots, High, candles[n].ts, k) ensures k == l {
        LatestIsUnique(pivots, High, candles[n].ts, k, l);
      }
    }
    hide IsLatest, Spent, Series, Chronological, Remembers;
  }

  lemma BelowIs(snaps: seq<Snapshot>, candles: seq<Candle>, pivots: seq<Pivot>, basis: BreakBasis, n: nat,
                seen: Regime)
    requires Series(candles) && Chronological(pivots) && n < |candles|
    requires HoldsLatest(seen.lastLow, pivots, Low, candles[n].ts)
    requires Remembers(seen.brokenLowTs, snaps, candles, pivots, Down, n)
    ensures PassesDown(snaps, candles, pivots, basis, n, seen)
  {
    var l := LatestIndex(seen.lastLow, pivots, Low, candles[n].ts);
    if seen.lastLow.Some? {
      SpentIs(seen.brokenLowTs, snaps, candles, pivots, Down, n, l);
      forall k: nat | IsLatest(pivots, Low, candles[n].ts, k) ensures k == l {
        LatestIsUnique(pivots, Low, candles[n].ts, k, l);
      }
    }
    hide IsLatest, Spent, Series, Chronological, Remembers;
  }

  lemma SpentTimes(candles: seq<Candle>, pivots: seq<Pivot>, basis: BreakBasis, n: nat)
    requires Series(candles) && Chronological(pivots) && n < |candles|
    ensures var snaps, seen := SnapshotsOf(candles, pivots, basis), SeenAt(candles, pivots, basis, n);
      && Remembers(seen.brokenHighTs, snaps, candles, pivots, Up, n)
      && Remembers(seen.brokenLowTs, snaps, candles, pivots, Down, n)
  {
    hide RegimeAfter, SnapshotsOf, SeenAt, Chronological, Series, Tracks, Remembers;
    SeenMirrors(candles, pivots, basis, n);
    RunRemembers(candles, pivots, basis, Up, n);
    RunRemembers(candles, pivots, basis, Down, n);
  }

  lemma LatestPrice(v: Option<Pivot>, pivots: seq<Pivot>, kind: PivotKind, ts: int)
    requires HoldsLatest(v, pivots, kind, ts)
    ensures Reports(PriceOf(v), pivots, kind, ts)
  {
    hide IsLatest;
  }

  lemma EventIsDeclared(snaps: seq<Snapshot>, candles: seq<Candle>, pivots: seq<Pivot>, basis: BreakBasis, n: nat,
                        seen: Regime)
    requires n < |candles|
    requires PassesUp(snaps, candles, pivots, basis, n, seen) && PassesDown(snaps, candles, pivots, basis, n, seen)
    ensures EventOf(seen, candles[n], basis) == Some(Up)
       <==> exists up :: (Above(snaps, candles, pivots, basis, n, up)
                          && forall down :: Below(snaps, candles, pivots, basis, n, down) ==> up >= down)
    ensures EventOf(seen, candles[n], basis) == Some(Down)
       <==> exists down :: (Below(snaps, candles, pivots, basis, n, down)
                            && forall up :: Above(snaps, candles, pivots, basis, n, up) ==> up < down)
  {
    hide Above, Below, BasisUp, BasisDown;
    if UpBroken(seen, candles[n], basis) {
      assert Above(snaps, candles, pivots, basis, n, BasisUp(candles[n], basis) - seen.lastHigh.value.price);
    }
    if DownBroken(seen, candles[n], basis) {
      assert Below(snaps, candles, pivots, basis, n, seen.lastLow.value.price - BasisDown(candles[n], basis));
    }
  }

  /** A break changes no pivot. */
  lemma BreakKeepsPivots(seen: Regime, event: Option<Direction>, ts: int)
    requires event == Some(Up) ==> seen.lastHigh.Some?
    requires event == Some(Down) ==> seen.lastLow.Some?
    ensures var r := match event case None => seen case Some(d) => Break(seen, d, ts);
      r.lastHigh == seen.lastHigh && r.lastLow == seen.lastLow
  {
  }

  /** Every snapshot of a run is the declared one. */
  lemma SnapshotIsDeclared(candles: seq<Candle>, pivots: seq<Pivot>, basis: BreakBasis, n: nat)
    requires Series(candles) && Chronological(pivots) && n < |candles|
    ensures |SnapshotsOf(candles, pivots, basis)| == |candles|
    ensures DeclaredAt(SnapshotsOf(candles, pivots, basis), candles, pivots, basis, n)
  {
    hide RegimeAfter, SnapshotsOf, SeenAt, Chronological, Series, Tracks, Follows, HoldsLatest, Remembers, Reports,
         Above, Below, BreaksAt, PassesUp, PassesDown, EventOf, Break, Previous, PriceOf, BrokenTs;
    SpentTimes(candles, pivots, basis, n);
    var snaps, seen := SnapshotsOf(candles, pivots, basis), SeenAt(candles, pivots, basis, n);
    SnapshotIs(candles, pivots, basis, n);
    NextIs(candles, pivots, basis, n);
    SeenMirrors(candles, pivots, basis, n);
    SeenIsLatest(candles, pivots, basis, n);
    BreaksAreEvents(candles, pivots, basis, n);
    AboveIs(snaps, candles, pivots, basis, n, seen);
    BelowIs(snaps, candles, pivots, basis, n, seen);
    EventIsDeclared(snaps, candles, pivots, basis, n, seen);
    EventAtHasPivot(candles, pivots, basis, n);
    BreakKeepsPivots(seen, EventAt(candles, pivots, basis, n), candles[n].ts);
    LatestPrice(seen.lastHigh, pivots, High, candles[n].ts);
    LatestPrice(seen.lastLow, pivots, Low, candles[n].ts);
  }

  /**
   The regime of a run, told from the candles: which candle breaks which pivot, in
   which direction, and what that makes of the state.
   */
  lemma SnapshotsAreDeclared(candles: seq<Candle>, pivots: seq<Pivot>, basis: BreakBasis)
    requires Series(candles) && Chronological(pivots)
    ensures Declared(SnapshotsOf(candles, pivots, basis), candles, pivots, basis)
  {
    hide SnapshotsOf, DeclaredAt, Series, Chronological;
    RegimeStarts(candles, pivots, basis);
    forall n | 0 <= n < |candles| ensures DeclaredAt(SnapshotsOf(candles, pivots, basis), candles, pivots, basis, n) {
      SnapshotIsDeclared(candles, pivots, basis, n);
    }
  }
}
