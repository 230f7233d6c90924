/** The break-counting regime state machine of the wave engine. */
module Regime {
  import opened Prelude
  import opened Sorting
  import opened Candles
  import opened Pivots

  datatype RegimeState = Flat | Trending(side: Side)

  datatype Direction = Up | Down

  /** The machine between two candles. */
  datatype Regime = Regime(
    state: RegimeState,
    sequenceId: nat,
    breakCount: nat,
    lastBreak: Option<Direction>,
    lastHigh: Option<Pivot>,
    lastLow: Option<Pivot>,
    brokenHighTs: Option<int>,
    brokenLowTs: Option<int>,
    confirmedWave: Option<nat>,
    confirmedAt: Option<int>,
    pivotIndex: nat)

  datatype Snapshot = Snapshot(
    ts: int,
    state: RegimeState,
    sequenceId: nat,
    breakCount: nat,
    lastBreak: Option<Direction>,
    lastHighPrice: Option<real>,
    lastLowPrice: Option<real>,
    confirmedWave: Option<nat>,
    confirmedAt: Option<int>)

  const INITIAL := Regime(Flat, 0, 0, None, None, None, None, None, None, None, 0)

  /** Takes over every pivot confirmed by time `ts`. */
  function Absorb(r: Regime, pivots: seq<Pivot>, ts: int): Regime
    decreases |pivots| - r.pivotIndex
  {
    if r.pivotIndex < |pivots| && pivots[r.pivotIndex].ts <= ts then
      var v := pivots[r.pivotIndex];
      var seen := if v.kind == High then r.(lastHigh := Some(v)) else r.(lastLow := Some(v));
      Absorb(seen.(pivotIndex := r.pivotIndex + 1), pivots, ts)
    else r
  }

  function BasisUp(c: Candle, basis: BreakBasis): real { if basis == Close then c.close else c.high }

  function BasisDown(c: Candle, basis: BreakBasis): real { if basis == Close then c.close else c.low }

  predicate UpBroken(r: Regime, c: Candle, basis: BreakBasis) {
    r.lastHigh.Some? && BasisUp(c, basis) > r.lastHigh.value.price && r.brokenHighTs != Some(r.lastHigh.value.ts)
  }

  predicate DownBroken(r: Regime, c: Candle, basis: BreakBasis) {
    r.lastLow.Some? && BasisDown(c, basis) < r.lastLow.value.price && r.brokenLowTs != Some(r.lastLow.value.ts)
  }

  /** The break event of a candle; a candle breaking both ways counts for the longer break. */
  function EventOf(r: Regime, c: Candle, basis: BreakBasis): Option<Direction> {
    var up, down := UpBroken(r, c, basis), DownBroken(r, c, basis);
    if up && down then
      Some(if BasisUp(c, basis) - r.lastHigh.value.price >= r.lastLow.value.price - BasisDown(c, basis) then Up
           else Down)
    else if up then Some(Up)
    else if down then Some(Down)
    else None
  }

  function SideOf(d: Direction): Side { if d == Up then Long else Short }

  function Break(r: Regime, d: Direction, ts: int): Regime
    requires if d == Up then r.lastHigh.Some? else r.lastLow.Some?
  {
    var repeated := r.lastBreak == Some(d);
    var count := if repeated then (if r.breakCount >= 1 then 2 else 1) else 1;
    var id := r.sequenceId + 1;
    r.(state := if count == 1 then Flat else Trending(SideOf(d)),
       sequenceId := id,
       breakCount := count,
       lastBreak := Some(d),
       brokenHighTs := if d == Up then Some(r.lastHigh.value.ts) else r.brokenHighTs,
       brokenLowTs := if d == Down then Some(r.lastLow.value.ts) else r.brokenLowTs,
       confirmedWave := if count == 1 then None else Some(id),
       confirmedAt := if count == 1 then None else Some(ts))
  }

  function Step(r: Regime, c: Candle, pivots: seq<Pivot>, basis: BreakBasis): Regime {
    var seen := Absorb(r, pivots, c.ts);
    match EventOf(seen, c, basis)
    case None => seen
    case Some(d) => Break(seen, d, c.ts)
  }

  function RegimeAfter(candles: seq<Candle>, pivots: seq<Pivot>, basis: BreakBasis, n: nat): Regime
    requires n <= |candles|
  {
    if n == 0 then INITIAL
    else Step(RegimeAfter(candles, pivots, basis, n - 1), candles[n - 1], pivots, basis)
  }

  function PriceOf(v: Option<Pivot>): Option<real> {
    match v case Some(p) => Some(p.price) case None => None
  }

  function Snap(r: Regime, ts: int): Snapshot {
    Snapshot(ts, r.state, r.sequenceId, r.breakCount, r.lastBreak, PriceOf(r.lastHigh), PriceOf(r.lastLow),
             r.confirmedWave, r.confirmedAt)
  }

  function SnapshotAt(candles: seq<Candle>, pivots: seq<Pivot>, basis: BreakBasis, i: nat): Snapshot
    requires i < |candles|
  {
    Snap(RegimeAfter(candles, pivots, basis, i + 1), candles[i].ts)
  }

  /** One snapshot per candle. */
  function SnapshotsOf(candles: seq<Candle>, pivots: seq<Pivot>, basis: BreakBasis): seq<Snapshot> {
    seq(|candles|, i requires 0 <= i < |candles| => SnapshotAt(candles, pivots, basis, i))
  }

  lemma RegimeStarts(candles: seq<Candle>, pivots: seq<Pivot>, basis: BreakBasis)
    ensures RegimeAfter(candles, pivots, basis, 0) == INITIAL && |SnapshotsOf(candles, pivots, basis)| == |candles|
  {
  }

  lemma RegimeGrows(candles: seq<Candle>, pivots: seq<Pivot>, basis: BreakBasis, n: nat)
    requires n < |candles|
    ensures RegimeAfter(candles, pivots, basis, n + 1)
         == Step(RegimeAfter(candles, pivots, basis, n), candles[n], pivots, basis)
    ensures |SnapshotsOf(candles, pivots, basis)| == |candles|
    ensures SnapshotsOf(candles, pivots, basis)[..n + 1]
         == SnapshotsOf(candles, pivots, basis)[..n]
            + [Snap(RegimeAfter(candles, pivots, basis, n + 1), candles[n].ts)]
  {
    hide Step;
  }

  method BuildRegime(candles: seq<Candle>, pivots: seq<Pivot>, basis: BreakBasis) returns (snapshots: seq<Snapshot>)
    ensures snapshots == SnapshotsOf(candles, pivots, basis)
  {
    hide RegimeAfter, SnapshotsOf;
    RegimeStarts(candles, pivots, basis);
    var state := Flat;
    var sequenceId: nat, breakCount: nat := 0, 0;
    var lastBreak: Option<Direction> := None;
    var confirmedWave: Option<nat>, confirmedAt: Option<int> := None, None;
    var lastHigh: Option<Pivot>, lastLow: Option<Pivot> := None, None;
    var brokenHighTs: Option<int>, brokenLowTs: Option<int> := None, None;
    var pivotIndex: nat := 0;
    snapshots := [];
    for n := 0 to |candles|
      invariant Regime(state, sequenceId, breakCount, lastBreak, lastHigh, lastLow, brokenHighTs, brokenLowTs,
                       confirmedWave, confirmedAt, pivotIndex) == RegimeAfter(candles, pivots, basis, n)
      invariant snapshots == SnapshotsOf(candles, pivots, basis)[..n]
    {
      var candle := candles[n];
      ghost var before := RegimeAfter(candles, pivots, basis, n);
      while pivotIndex < |pivots| && pivots[pivotIndex].ts <= candle.ts
        invariant Absorb(before.(lastHigh := lastHigh, lastLow := lastLow, pivotIndex := pivotIndex), pivots, candle.ts)
               == Absorb(before, pivots, candle.ts)
      {
        var pivot := pivots[pivotIndex];
        if pivot.kind == High {
          lastHigh := Some(pivot);
        } else {
          lastLow := Some(pivot);
        }
        pivotIndex := pivotIndex + 1;
      }
      ghost var seen := before.(lastHigh := lastHigh, lastLow := lastLow, pivotIndex := pivotIndex);
      assert seen == Absorb(before, pivots, candle.ts);
      var basisUp := if basis == Close then candle.close else candle.high;
      var basisDown := if basis == Close then candle.close else candle.low;
      var upBroken := lastHigh.Some? && basisUp > lastHigh.value.price && brokenHighTs != Some(lastHigh.value.ts);
      var downBroken := lastLow.Some? && basisDown < lastLow.value.price && brokenLowTs != Some(lastLow.value.ts);

      var event: Option<Direction> := None;
      if upBroken && downBroken {
        var upDistance := Abs(basisUp - lastHigh.value.price);
        var downDistance := Abs(lastLow.value.price - basisDown);
        event := Some(if upDistance >= downDistance then Up else Down);
      } else if upBroken {
        event := Some(Up);
      } else if downBroken {
        event := Some(Down);
      }
      assert event == EventOf(seen, candle, basis);

      if event.Some? {
        sequenceId := sequenceId + 1;
        if lastBreak == event {
          breakCount := if breakCount + 1 < 2 then breakCount + 1 else 2;
        } else {
          lastBreak := event;
          breakCount := 1;
        }
        state := if breakCount == 1 then Flat else Trending(SideOf(event.value));
        if event == Some(Up) && lastHigh.Some? {
          brokenHighTs := Some(lastHigh.value.ts);
        }
        if event == Some(Down) && lastLow.Some? {
          brokenLowTs := Some(lastLow.value.ts);
        }
        if state != Flat {
          confirmedWave := Some(sequenceId);
          confirmedAt := Some(candle.ts);
        } else {
          confirmedWave := None;
          confirmedAt := None;
        }
      }
      assert Regime(state, sequenceId, breakCount, lastBreak, lastHigh, lastLow, brokenHighTs, brokenLowTs,
                    confirmedWave, confirmedAt, pivotIndex) == Step(before, candle, pivots, basis);
      RegimeGrows(candles, pivots, basis, n);
      snapshots := snapshots + [Snapshot(candle.ts, state, sequenceId, breakCount, lastBreak,
                                         PriceOf(lastHigh), PriceOf(lastLow), confirmedWave, confirmedAt)];
    }
  }

  // ---- the history of breaks ----

  /** The pivot that the candle's event consumes. */
  function Consumed(r: Regime, d: Direction): Option<Pivot> {
    if d == Up then r.lastHigh else r.lastLow
  }

  /** A break event: its direction, the pivot it consumed and the candle that made it. */
  datatype BreakEvent = BreakEvent(direction: Direction, pivot: Pivot, candle: nat)

  function Breaks(candles: seq<Candle>, pivots: seq<Pivot>, basis: BreakBasis, n: nat): seq<BreakEvent>
    requires n <= |candles|
  {
    if n == 0 then []
    else
      var seen := Absorb(RegimeAfter(candles, pivots, basis, n - 1), pivots, candles[n - 1].ts);
      Breaks(candles, pivots, basis, n - 1) + BreakOn(seen, candles[n - 1], basis, n - 1)
  }

  /** The break of candle `i`, if it makes one. */
  function BreakOn(seen: Regime, c: Candle, basis: BreakBasis, i: nat): seq<BreakEvent> {
    match EventOf(seen, c, basis)
    case None => []
    case Some(d) => [BreakEvent(d, Consumed(seen, d).value, i)]
  }

  predicate LastTwo(b: seq<BreakEvent>, d: Direction) {
    |b| >= 2 && b[|b| - 1].direction == d && b[|b| - 2].direction == d
  }

  lemma {:induction false} AbsorbKeeps(r: Regime, pivots: seq<Pivot>, ts: int)
    requires r.pivotIndex <= |pivots|
    ensures var a := Absorb(r, pivots, ts);
      && a == r.(lastHigh := a.lastHigh, lastLow := a.lastLow, pivotIndex := a.pivotIndex)
      && r.pivotIndex <= a.pivotIndex <= |pivots|
      && (forall k :: r.pivotIndex <= k < a.pivotIndex ==> pivots[k].ts <= ts)
      && (a.pivotIndex < |pivots| ==> pivots[a.pivotIndex].ts > ts)
      && (a.lastHigh == r.lastHigh || (a.lastHigh.Some? && a.lastHigh.value.kind == High
            && exists k :: r.pivotIndex <= k < a.pivotIndex && pivots[k] == a.lastHigh.value))
      && (a.lastLow == r.lastLow || (a.lastLow.Some? && a.lastLow.value.kind == Low
            && exists k :: r.pivotIndex <= k < a.pivotIndex && pivots[k] == a.lastLow.value))
    decreases |pivots| - r.pivotIndex
  {
    if r.pivotIndex < |pivots| && pivots[r.pivotIndex].ts <= ts {
      var v := pivots[r.pivotIndex];
      var seen := if v.kind == High then r.(lastHigh := Some(v)) else r.(lastLow := Some(v));
      var next := seen.(pivotIndex := r.pivotIndex + 1);
      AbsorbKeeps(next, pivots, ts);
      assert pivots[r.pivotIndex] == v;
    }
  }

  /** How the machine's state follows from the history of breaks. */
  ghost predicate Tracks(r: Regime, b: seq<BreakEvent>) {
    && r.sequenceId == |b|
    && (r.state == Trending(Long) <==> LastTwo(b, Up))
    && (r.state == Trending(Short) <==> LastTwo(b, Down))
    && r.lastBreak == (if b == [] then None else Some(b[|b| - 1].direction))
    && (r.breakCount == 0 <==> b == [])
    && (r.breakCount >= 2 <==> r.state != Flat)
    && (r.state == Flat <==> r.confirmedWave == None)
  }

  lemma StepTracks(r: Regime, b: seq<BreakEvent>, pivots: seq<Pivot>, c: Candle, basis: BreakBasis, i: nat)
    requires r.pivotIndex <= |pivots| && Tracks(r, b)
    ensures Tracks(Step(r, c, pivots, basis), b + BreakOn(Absorb(r, pivots, c.ts), c, basis, i))
    ensures Step(r, c, pivots, basis).pivotIndex <= |pivots|
  {
    AbsorbKeeps(r, pivots, c.ts);
    var seen := Absorb(r, pivots, c.ts);
    if EventOf(seen, c, basis) == None {
      assert b + [] == b;
    }
  }

  lemma TracksStart()
    ensures Tracks(INITIAL, [])
  {
  }

  /**
   The regime is long (short) exactly when the two most recent breaks both went
   up (down), and the sequence number counts the breaks.
   */
  lemma {:induction false} TwoBreaksMakeATrend(candles: seq<Candle>, pivots: seq<Pivot>, basis: BreakBasis, n: nat)
    requires n <= |candles|
    ensures Tracks(RegimeAfter(candles, pivots, basis, n), Breaks(candles, pivots, basis, n))
    ensures RegimeAfter(candles, pivots, basis, n).pivotIndex <= |pivots|
  {
    hide Tracks, Step, BreakOn, Absorb;
    TracksStart();
    if n > 0 {
      TwoBreaksMakeATrend(candles, pivots, basis, n - 1);
      StepTracks(RegimeAfter(candles, pivots, basis, n - 1), Breaks(candles, pivots, basis, n - 1), pivots,
                 candles[n - 1], basis, n - 1);
    }
  }

  ghost predicate Drawn(v: Option<Pivot>, kind: PivotKind, pivots: seq<Pivot>, n: nat)
    requires n <= |pivots|
  {
    v.Some? ==> v.value.kind == kind && v.value in pivots[..n]
  }

  ghost predicate LatestOf(v: Option<Pivot>, ts: Option<int>) {
    ts.Some? ==> v.Some? && ts.value <= v.value.ts
  }

  /** What the machine remembers about pivots: the latest of each kind, and which of them is spent. */
  ghost predicate Accounted(r: Regime, b: seq<BreakEvent>, pivots: seq<Pivot>) {
    && r.pivotIndex <= |pivots|
    && Drawn(r.lastHigh, High, pivots, r.pivotIndex)
    && Drawn(r.lastLow, Low, pivots, r.pivotIndex)
    && LatestOf(r.lastHigh, r.brokenHighTs)
    && LatestOf(r.lastLow, r.brokenLowTs)
    && (forall e :: e in b ==>
          && e.pivot in pivots[..r.pivotIndex]
          && e.pivot.kind == (if e.direction == Up then High else Low)
          && (var spent := if e.direction == Up then r.brokenHighTs else r.brokenLowTs;
              spent.Some? && e.pivot.ts <= spent.value))
    && (forall i, j :: 0 <= i < j < |b| ==> b[i].pivot != b[j].pivot)
  }

  lemma AbsorbAccounted(r: Regime, b: seq<BreakEvent>, pivots: seq<Pivot>, ts: int)
    requires Chronological(pivots) && Accounted(r, b, pivots)
    ensures Accounted(Absorb(r, pivots, ts), b, pivots)
  {
    AbsorbKeeps(r, pivots, ts);
    var a := Absorb(r, pivots, ts);
    assert forall x :: x in pivots[..r.pivotIndex] ==> x in pivots[..a.pivotIndex];
    assert forall k :: r.pivotIndex <= k < a.pivotIndex ==> pivots[k] in pivots[..a.pivotIndex];
    forall k, x | r.pivotIndex <= k < |pivots| && x in pivots[..r.pivotIndex] ensures x.ts < pivots[k].ts {
      var j :| 0 <= j < r.pivotIndex && pivots[j] == x;
    }
  }

  lemma BreakAccounted(r: Regime, b: seq<BreakEvent>, pivots: seq<Pivot>, c: Candle, basis: BreakBasis, i: nat)
    requires Accounted(r, b, pivots) && EventOf(r, c, basis).Some?
    ensures var d := EventOf(r, c, basis).value;
      Accounted(Break(r, d, c.ts), b + [BreakEvent(d, Consumed(r, d).value, i)], pivots)
  {
    var d := EventOf(r, c, basis).value;
    var v := if d == Up then r.lastHigh.value else r.lastLow.value;
    var spent := if d == Up then r.brokenHighTs else r.brokenLowTs;
    assert spent != Some(v.ts);
    assert spent.Some? ==> spent.value < v.ts;
    forall k | 0 <= k < |b| ensures b[k].pivot != v {
      assert b[k] in b;
    }
  }

  lemma StepAccounted(r: Regime, b: seq<BreakEvent>, pivots: seq<Pivot>, c: Candle, basis: BreakBasis, i: nat)
    requires Chronological(pivots) && Accounted(r, b, pivots)
    ensures Accounted(Step(r, c, pivots, basis), b + BreakOn(Absorb(r, pivots, c.ts), c, basis, i), pivots)
  {
    AbsorbAccounted(r, b, pivots, c.ts);
    var seen := Absorb(r, pivots, c.ts);
    match EventOf(seen, c, basis) {
      case None => assert b + [] == b;
      case Some(_) => BreakAccounted(seen, b, pivots, c, basis, i);
    }
  }

  lemma AccountedStart(pivots: seq<Pivot>)
    ensures Accounted(INITIAL, [], pivots)
  {
  }

  lemma {:induction false} BreaksAccounted(candles: seq<Candle>, pivots: seq<Pivot>, basis: BreakBasis, n: nat)
    requires n <= |candles| && Chronological(pivots)
    ensures Accounted(RegimeAfter(candles, pivots, basis, n), Breaks(candles, pivots, basis, n), pivots)
  {
    hide Accounted, Chronological, Step, BreakOn, Absorb;
    AccountedStart(pivots);
    if n > 0 {
      BreaksAccounted(candles, pivots, basis, n - 1);
      StepAccounted(RegimeAfter(candles, pivots, basis, n - 1), Breaks(candles, pivots, basis, n - 1), pivots,
                    candles[n - 1], basis, n - 1);
    }
  }

  /**
   Every break consumes a confirmed pivot of its own, so there are never more
   breaks than pivots seen.
   */
  lemma BreaksConsumePivots(candles: seq<Candle>, pivots: seq<Pivot>, basis: BreakBasis, n: nat)
    requires n <= |candles| && Chronological(pivots)
    ensures var r := RegimeAfter(candles, pivots, basis, n);
      var b := Breaks(candles, pivots, basis, n);
      && r.pivotIndex <= |pivots|
      && (forall i, j :: 0 <= i < j < |b| ==> b[i].pivot != b[j].pivot)
      && (forall e :: e in b ==> e.pivot in pivots[..r.pivotIndex])
      && r.sequenceId <= r.pivotIndex
  {
    hide RegimeAfter, Breaks, Chronological, Drawn, LatestOf, LastTwo;
    BreaksAccounted(candles, pivots, basis, n);
    TwoBreaksMakeATrend(candles, pivots, basis, n);
    var r, b := RegimeAfter(candles, pivots, basis, n), Breaks(candles, pivots, basis, n);
    var consumed := seq(|b|, i requires 0 <= i < |b| => b[i].pivot);
    forall x | x in consumed ensures x in pivots[..r.pivotIndex] {
      var i :| 0 <= i < |b| && consumed[i] == x;
      assert b[i] in b;
    }
    Pigeonhole(consumed, pivots[..r.pivotIndex]);
  }

  lemma PivotNotBrokenAtOnce(v: Pivot, candles: seq<Candle>, i: nat)
    requires Series(candles) && i < |candles| && Confirmed(v, candles) && v.ts <= candles[i].ts
    requires if v.kind == High then v.price < candles[i].high else candles[i].low < v.price
    ensures v.index < i
  {
  }

  /** Every pivot the machine has absorbed was confirmed by the current candle. */
  lemma {:induction false} AbsorbedByNow(candles: seq<Candle>, pivots: seq<Pivot>, basis: BreakBasis, n: nat)
    requires Series(candles) && 1 <= n <= |candles|
    ensures var seen := Absorb(RegimeAfter(candles, pivots, basis, n - 1), pivots, candles[n - 1].ts);
      seen.pivotIndex <= |pivots| && forall x :: x in pivots[..seen.pivotIndex] ==> x.ts <= candles[n - 1].ts
  {
    hide Absorb, Step, Tracks, Breaks, LastTwo;
    TwoBreaksMakeATrend(candles, pivots, basis, n - 1);
    var r := RegimeAfter(candles, pivots, basis, n - 1);
    AbsorbKeeps(r, pivots, candles[n - 1].ts);
    if n == 1 {
      assert r.pivotIndex == 0;
    } else {
      AbsorbedByNow(candles, pivots, basis, n - 1);
      StepAbsorbs(RegimeAfter(candles, pivots, basis, n - 2), candles[n - 2], pivots, basis);
      assert candles[n - 2].ts < candles[n - 1].ts;
    }
  }

  lemma StepAbsorbs(r: Regime, c: Candle, pivots: seq<Pivot>, basis: BreakBasis)
    ensures Step(r, c, pivots, basis).pivotIndex == Absorb(r, pivots, c.ts).pivotIndex
  {
  }

  lemma EventPassesPivot(r: Regime, c: Candle, basis: BreakBasis)
    requires WellFormed(c) && EventOf(r, c, basis).Some?
    ensures var d := EventOf(r, c, basis).value;
      && Consumed(r, d).Some?
      && (if d == Up then Consumed(r, d).value.price < c.high else c.low < Consumed(r, d).value.price)
  {
  }

  lemma DrawnIsConfirmed(v: Option<Pivot>, kind: PivotKind, candles: seq<Candle>, pivots: seq<Pivot>, k: nat)
    requires k <= |pivots| && Drawn(v, kind, pivots, k) && Structured(pivots, candles) && v.Some?
    ensures Confirmed(v.value, candles)
  {
    var j :| 0 <= j < k && pivots[j] == v.value;
  }

  /** What the machine holds when it looks at a candle was drawn from the pivots it has absorbed. */
  lemma SeenIsDrawn(candles: seq<Candle>, pivots: seq<Pivot>, basis: BreakBasis, n: nat, ts: int)
    requires n <= |candles| && Chronological(pivots)
    ensures var seen := Absorb(RegimeAfter(candles, pivots, basis, n), pivots, ts);
      && seen.pivotIndex <= |pivots|
      && Drawn(seen.lastHigh, High, pivots, seen.pivotIndex) && Drawn(seen.lastLow, Low, pivots, seen.pivotIndex)
  {
    hide RegimeAfter, Breaks, Absorb, Chronological, Drawn, LatestOf;
    BreaksAccounted(candles, pivots, basis, n);
    AbsorbAccounted(RegimeAfter(candles, pivots, basis, n), Breaks(candles, pivots, basis, n), pivots, ts);
  }

  /** A pivot that an event consumes was confirmed on an earlier candle. */
  lemma ConsumedIsEarlier(seen: Regime, pivots: seq<Pivot>, candles: seq<Candle>, i: nat, basis: BreakBasis)
    requires Series(candles) && i < |candles| && Structured(pivots, candles) && seen.pivotIndex <= |pivots|
    requires Drawn(seen.lastHigh, High, pivots, seen.pivotIndex) && Drawn(seen.lastLow, Low, pivots, seen.pivotIndex)
    requires forall x :: x in pivots[..seen.pivotIndex] ==> x.ts <= candles[i].ts
    requires EventOf(seen, candles[i], basis).Some?
    ensures var d := EventOf(seen, candles[i], basis).value;
      Consumed(seen, d).Some? && Consumed(seen, d).value.index < i
  {
    hide Structured, Confirmed, EventOf;
    var d := EventOf(seen, candles[i], basis).value;
    EventPassesPivot(seen, candles[i], basis);
    DrawnIsConfirmed(Consumed(seen, d), if d == Up then High else Low, candles, pivots, seen.pivotIndex);
    PivotNotBrokenAtOnce(Consumed(seen, d).value, candles, i);
  }

  lemma EventComesLater(candles: seq<Candle>, p: Profile, basis: BreakBasis, n: nat)
    requires Series(candles) && p.atrPeriod > 0 && 1 <= n <= |candles|
    ensures var pivots := PivotsOf(candles, p);
      var seen := Absorb(RegimeAfter(candles, pivots, basis, n - 1), pivots, candles[n - 1].ts);
      var event := EventOf(seen, candles[n - 1], basis);
      event.Some? ==> Consumed(seen, event.value).Some? && Consumed(seen, event.value).value.index < n - 1
  {
    hide RegimeAfter, Absorb, EventOf, Consumed, Chronological, Structured, Separated, Drawn, PivotsOf, Series;
    var pivots := PivotsOf(candles, p);
    PivotStructure(candles, p);
    SeenIsDrawn(candles, pivots, basis, n - 1, candles[n - 1].ts);
    AbsorbedByNow(candles, pivots, basis, n);
    var seen := Absorb(RegimeAfter(candles, pivots, basis, n - 1), pivots, candles[n - 1].ts);
    if EventOf(seen, candles[n - 1], basis).Some? {
      ConsumedIsEarlier(seen, pivots, candles, n - 1, basis);
    }
  }

  /** No pivot is broken on the candle that confirmed it, nor before. */
  lemma {:induction false} BreaksComeLater(candles: seq<Candle>, p: Profile, basis: BreakBasis, n: nat)
    requires Series(candles) && p.atrPeriod > 0 && n <= |candles|
    ensures forall e :: e in Breaks(candles, PivotsOf(candles, p), basis, n) ==> e.pivot.index < e.candle < n
  {
    if n > 0 {
      BreaksComeLater(candles, p, basis, n - 1);
      EventComesLater(candles, p, basis, n);
    }
  }

  // ---- no repainting ----

  /** Nothing can be known on the first candle: its snapshot is flat, with no breaks and no pivots. */
  lemma FirstSnapshotIsFlat(candles: seq<Candle>, p: Profile, basis: BreakBasis)
    requires Series(candles) && p.atrPeriod > 0 && candles != []
    ensures SnapshotAt(candles, PivotsOf(candles, p), basis, 0)
         == Snapshot(candles[0].ts, Flat, 0, 0, None, None, None, None, None)
  {
    PivotStructure(candles, p);
    var v := PivotsOf(candles, p);
    if v != [] {
      assert Confirmed(v[0], candles);
    }
    assert RegimeAfter(candles, v, basis, 0) == INITIAL;
    assert RegimeAfter(candles, v, basis, 1) == INITIAL;
  }

  lemma {:induction false} AbsorbPrefix(r: Regime, pivots: seq<Pivot>, k: nat, ts: int)
    requires k <= |pivots| && r.pivotIndex <= k
    requires forall j :: k <= j < |pivots| ==> pivots[j].ts > ts
    ensures Absorb(r, pivots[..k], ts) == Absorb(r, pivots, ts)
    ensures Absorb(r, pivots, ts).pivotIndex <= k
    decreases k - r.pivotIndex
  {
    if r.pivotIndex < k && pivots[r.pivotIndex].ts <= ts {
      var v := pivots[r.pivotIndex];
      var seen := if v.kind == High then r.(lastHigh := Some(v)) else r.(lastLow := Some(v));
      AbsorbPrefix(seen.(pivotIndex := r.pivotIndex + 1), pivots, k, ts);
    }
  }

  lemma {:induction false} RegimePrefix(candles: seq<Candle>, pivots: seq<Pivot>, basis: BreakBasis, m: nat, k: nat,
                                        n: nat)
    requires Series(candles) && n <= m <= |candles| && k <= |pivots|
    requires forall i, j :: 0 <= i < m && k <= j < |pivots| ==> pivots[j].ts > candles[i].ts
    ensures RegimeAfter(candles[..m], pivots[..k], basis, n) == RegimeAfter(candles, pivots, basis, n)
    ensures RegimeAfter(candles, pivots, basis, n).pivotIndex <= k
  {
    if n > 0 {
      RegimePrefix(candles, pivots, basis, m, k, n - 1);
      AbsorbPrefix(RegimeAfter(candles, pivots, basis, n - 1), pivots, k, candles[n - 1].ts);
    }
  }

  lemma SnapshotsPrefix(candles: seq<Candle>, pivots: seq<Pivot>, basis: BreakBasis, m: nat, k: nat)
    requires Series(candles) && m <= |candles| && k <= |pivots|
    requires forall i, j :: 0 <= i < m && k <= j < |pivots| ==> pivots[j].ts > candles[i].ts
    ensures SnapshotsOf(candles[..m], pivots[..k], basis) == SnapshotsOf(candles, pivots, basis)[..m]
  {
    forall i | 0 <= i < m
      ensures SnapshotAt(candles[..m], pivots[..k], basis, i) == SnapshotAt(candles, pivots, basis, i)
    {
      hide Step, Absorb;
      RegimePrefix(candles, pivots, basis, m, k, i + 1);
    }
  }

  lemma SnapshotsUpTo(candles: seq<Candle>, pivots: seq<Pivot>, basis: BreakBasis, t: int)
    requires Series(candles)
    ensures Filter(SnapshotsOf(candles, pivots, basis), (s: Snapshot) => s.ts <= t)
         == SnapshotsOf(candles, pivots, basis)[..CountUpTo(candles, t)]
  {
    hide RegimeAfter;
    TruncateIsPrefix(candles, t);
    FilterPrefix(SnapshotsOf(candles, pivots, basis), (s: Snapshot) => s.ts <= t, CountUpTo(candles, t));
  }

  /** No repainting: the snapshots of the data known at `t` are the full run's snapshots up to `t`. */
  lemma SnapshotsDoNotRepaint(candles: seq<Candle>, p: Profile, basis: BreakBasis, t: int)
    requires Series(candles) && p.atrPeriod > 0 && PivotsDecided(candles, p, t)
    ensures var known := SnapshotsOf(Truncate(candles, t), PivotsOf(Truncate(candles, t), p), basis);
      && known == SnapshotsOf(candles, PivotsOf(candles, p), basis)[..CountUpTo(candles, t)]
      && known == Filter(SnapshotsOf(candles, PivotsOf(candles, p), basis), (s: Snapshot) => s.ts <= t)
  {
    hide SnapshotsOf, PivotsDecided, PivotsOf;
    TruncateIsPrefix(candles, t);
    PivotsDoNotRepaint(candles, p, t);
    assert Chronological(PivotsOf(candles, p)) by { PivotStructure(candles, p); }
    var m, v := CountUpTo(candles, t), PivotsOf(candles, p);
    var k := PivotCount(v, t);
    FilterPrefix(v, (x: Pivot) => x.ts <= t, k);
    SnapshotsPrefix(candles, v, basis, m, k);
    SnapshotsUpTo(candles, v, basis, t);
  }

  function PivotCount(pivots: seq<Pivot>, t: int): (n: nat)
    requires Chronological(pivots)
    ensures n <= |pivots|
    ensures forall i :: 0 <= i < n ==> pivots[i].ts <= t
    ensures forall i :: n <= i < |pivots| ==> pivots[i].ts > t
  {
    Leading(pivots, (v: Pivot) => v.ts <= t)
  }
}
