/**
 What every bar of the risk backtest does, told from the bar, the signal and the
 configuration: the day, the stop, the targets, the exits, the records and the entries.
 */
module RiskAudit {
  import opened Prelude
  import opened RiskBacktest

  // ---- sales ----

  /** How far `to` lies beyond `from` in the direction of the side. */
  function Won(side: Side, from: real, to: real): real {
    match side case Long => to - from case Short => from - to
  }

  /** A price that many steps ahead in the direction of the side. */
  function Beyond(side: Side, from: real, steps: real): real {
    match side case Long => from + steps case Short => from - steps
  }

  /** The price that is further ahead for the side. */
  function Tighter(side: Side, a: real, b: real): real {
    match side case Long => (if a >= b then a else b) case Short => (if a <= b then a else b)
  }

  /** Entering and leaving costs the fee and the slippage each time, on the entry price. */
  function Costs(entry: real, cfg: Config): real { entry * 2.0 * (cfg.feePerSide + cfg.slippagePerSide) }

  /** A sale earns the price difference on its quantity, less the costs of that quantity. */
  predicate SaleTold(p: Position, q: Position, qty: real, price: real, tag: Tag, cfg: Config) {
    q == p.(qty := p.qty - qty,
            realized := p.realized + (Won(p.side, p.entry, price) * qty - Costs(p.entry, cfg) * qty),
            fills := p.fills + [Fill(tag, qty, price)])
  }

  /** A finished position leaves one record, and its last profit reaches the equity. */
  predicate EndTold(b: Book, n: Book, was: Position, q: Position, bar: Bar, exit: real, kind: ExitKind) {
    && |n.trades| == |b.trades| + 1
    && var r := n.trades[|b.trades|];
       && n == b.(equity := b.equity + (q.realized - was.realized), pos := None, trades := b.trades + [r])
       && r == Record(q.entryTs, bar.ts, q.side, q.entry, exit, q.entryQty, q.realized, r.rMultiple, q.hits,
                      kind != FullExit, kind, q, was.tp1Filled)
       && r.rMultiple * (if q.risk >= 0.000000001 then q.risk else 0.000000001) == q.realized
  }

  // ---- the day ----

  /**
   A new day starts from its opening equity with the hard stop reset. When the day's
   loss reaches the limit, trading stops and an open position is sold at the close.
   */
  ghost predicate MorningTold(b: Book, m: Book, bar: Bar, cfg: Config) {
    var today := Some(bar.ts / 86_400);
    var opening := if b.day == today then b.dayStartEquity else b.equity;
    var stopped := b.day == today && b.stopTriggered;
    var dawn := b.(day := today, dayStartEquity := opening, stopTriggered := stopped);
    if stopped || b.equity > opening * (1.0 - cfg.dailyHardStopDd) then m == dawn
    else
      match b.pos
      case None => m == dawn.(stopTriggered := true)
      case Some(p) => exists q :: (
        SaleTold(p, q, p.qty, bar.close, Exit, cfg)
        && EndTold(dawn.(stopTriggered := true), m, p, q, bar, bar.close, HardStopExit))
  }

  // ---- an open position ----

  /** The bar touches a level on the losing side. */
  predicate Hurts(side: Side, bar: Bar, level: real) {
    match side case Long => bar.low <= level case Short => level <= bar.high
  }

  /** The bar touches a level on the winning side. */
  predicate Pays(side: Side, bar: Bar, level: real) {
    match side case Long => level <= bar.high case Short => bar.low <= level
  }

  function Lesser(a: real, b: real): real { if a <= b then a else b }

  /**
   A target that is left and touched sells its fraction of the entry quantity, or all
   that remains if that is less. The first moves the stop to the entry plus costs and
   the second to 1.2 average ranges behind the close, but never backwards.
   */
  predicate TargetTold(p: Position, q: Position, j: nat, bar: Bar, cfg: Config)
    requires WellShaped(p) && j < 3
  {
    if p.left[j] <= 0.0 || !Pays(p.side, bar, p.targets[j]) then q == p
    else
      var sold := q.(left := p.left, hits := p.hits, tp1Filled := p.tp1Filled, stop := p.stop);
      && SaleTold(p, sold, Lesser(p.entryQty * p.left[j], p.qty), p.targets[j], Target(j), cfg)
      && q.left == p.left[j := 0.0] && q.hits == p.hits + 1 && q.tp1Filled == (p.tp1Filled || j == 0)
      && q.stop == (if j == 0 then Tighter(p.side, p.stop, Beyond(p.side, p.entry, Costs(p.entry, cfg)))
                    else if j == 1 then Tighter(p.side, p.stop, Beyond(p.side, bar.close, -(1.2 * bar.atr)))
                    else p.stop)
  }

  /** What remains is sold at the close on a reverse signal, or when the position is as old as it may get. */
  predicate LeaveTold(p: Position, q: Position, bar: Bar, i: nat, signal: Option<Side>, cfg: Config) {
    var against := match p.side case Long => Short case Short => Long;
    if p.qty > 0.000000000001 && (signal == Some(against) || i >= p.entryIdx + cfg.maxBars)
    then SaleTold(p, q, p.qty, bar.close, Exit, cfg) else q == p
  }

  /** A position through one bar: after each of the three targets, and after a possible exit. */
  datatype Path = Path(first: Position, second: Position, third: Position, last: Position)

  predicate PathTold(x: Path, p: Position, bar: Bar, i: nat, signal: Option<Side>, cfg: Config)
    requires WellShaped(p)
  {
    && TargetTold(p, x.first, 0, bar, cfg) && WellShaped(x.first)
    && TargetTold(x.first, x.second, 1, bar, cfg) && WellShaped(x.second)
    && TargetTold(x.second, x.third, 2, bar, cfg)
    && LeaveTold(x.third, x.last, bar, i, signal, cfg)
  }

  /** The stop comes first, at its own price; a position that is spared and keeps anything stays open. */
  ghost predicate ManagedTold(b: Book, n: Book, bar: Bar, i: nat, signal: Option<Side>, cfg: Config)
    requires b.pos.Some? ==> WellShaped(b.pos.value)
  {
    match b.pos
    case None => n == b
    case Some(p) =>
      if Hurts(p.side, bar, p.stop) then
        exists q :: SaleTold(p, q, p.qty, p.stop, Exit, cfg) && EndTold(b, n, p, q, bar, p.stop, StopExit)
      else
        exists x :: (
          && PathTold(x, p, bar, i, signal, cfg)
          && if x.last.qty <= 0.000000000001 then EndTold(b, n, p, x.last, bar, bar.close, FullExit)
             else n == b.(equity := b.equity + (x.last.realized - p.realized), pos := Some(x.last)))
  }

  // ---- an entry ----

  /** The extreme of the last bars on the losing side, the stop's distance, the amount at risk, and the quantity. */
  datatype Plan = Plan(structure: real, distance: real, amount: real, qty: real)

  /** The extreme of this bar and up to twelve before it. */
  ghost predicate StructureTold(structure: real, side: Side, bars: seq<Bar>, i: nat)
    requires i < |bars|
  {
    match side
    case Long =>
      && (forall j :: 0 <= j <= i <= j + 12 ==> structure <= bars[j].low)
      && exists j :: 0 <= j <= i <= j + 12 && structure == bars[j].low
    case Short =>
      && (forall j :: 0 <= j <= i <= j + 12 ==> bars[j].high <= structure)
      && exists j :: 0 <= j <= i <= j + 12 && structure == bars[j].high
  }

  /** The distance to the structure plus a part of the average range, capped by a share of the price. */
  predicate DistanceTold(x: Plan, bar: Bar, cfg: Config) {
    var apart := if bar.close >= x.structure then bar.close - x.structure else x.structure - bar.close;
    var wanted, cap := apart + bar.atr * cfg.atrBufferMult, bar.close * cfg.stopCapPct;
    var capped := if wanted <= cap then wanted else cap;
    x.distance == if capped >= 0.000000001 then capped else 0.000000001
  }

  /** Losing the stop distance on the quantity costs the share of the equity that a trade risks. */
  predicate AmountTold(x: Plan, equity: real, cfg: Config) {
    x.amount == equity * cfg.riskPerTrade && x.qty * x.distance == x.amount
  }

  /** The position that a plan opens at a close. */
  function Planned(x: Plan, side: Side, bar: Bar, i: nat, cfg: Config): Position
    requires Usable(cfg)
  {
    Position(side, x.qty, x.qty, i, bar.ts, bar.close, x.amount, x.distance, Beyond(side, bar.close, -x.distance),
             [Beyond(side, bar.close, cfg.targetR[0] * x.distance),
              Beyond(side, bar.close, cfg.targetR[1] * x.distance),
              Beyond(side, bar.close, cfg.targetR[2] * x.distance)],
             cfg.targetFraction, 0, 0.0, [], false)
  }

  /** An entry takes the bar's close, when the plan buys anything. */
  ghost predicate PlanTold(x: Plan, b: Book, n: Book, bars: seq<Bar>, i: nat, side: Side, cfg: Config)
    requires i < |bars| && Usable(cfg)
  {
    && StructureTold(x.structure, side, bars, i) && DistanceTold(x, bars[i], cfg)
    && AmountTold(x, b.equity, cfg)
    && n == if x.qty <= 0.0 then b else b.(pos := Some(Planned(x, side, bars[i], i, cfg)))
  }

  /** Without a position, unless trading is stopped for the day, a signal enters as planned. */
  ghost predicate EntryTold(b: Book, n: Book, bars: seq<Bar>, i: nat, signal: Option<Side>, cfg: Config)
    requires i < |bars| && Usable(cfg)
  {
    if b.pos.Some? || b.stopTriggered || signal == None then n == b
    else exists x: Plan :: PlanTold(x, b, n, bars, i, signal.value, cfg)
  }

  // ---- a bar ----

  /** One bar: the day, the open position, an entry, and the equity on the curve. */
  ghost predicate BarTold(b: Book, after: Book, bars: seq<Bar>, i: nat, signal: Option<Side>, cfg: Config)
    requires i < |bars| && Usable(cfg)
  {
    exists m: Book, n: Book, e: Book :: (
      && MorningTold(b, m, bars[i], cfg)
      && (m.pos.Some? ==> WellShaped(m.pos.value)) && ManagedTold(m, n, bars[i], i, signal, cfg)
      && EntryTold(n, e, bars, i, signal, cfg)
      && after == e.(curve := e.curve + [e.equity]))
  }

  // ---- the proof ----

  lemma CloseIsTold(p: Position, qty: real, price: real, tag: Tag, cfg: Config)
    ensures SaleTold(p, Close(p, qty, price, tag, cfg), qty, price, tag, cfg)
  {
  }

  lemma FinishIsTold(b: Book, was: Position, q: Position, bar: Bar, exit: real, kind: ExitKind)
    ensures EndTold(b, Finish(b, was, q, bar, exit, kind), was, q, bar, exit, kind)
  {
    var n := Finish(b, was, q, bar, exit, kind);
    assert n.trades[|b.trades|] == RecordOf(q, bar, exit, kind, was.tp1Filled);
    assert q.realized / Max(q.risk, TINY) * Max(q.risk, TINY) == q.realized;
  }

  lemma MorningIsTold(b: Book, bar: Bar, cfg: Config)
    ensures MorningTold(b, HardStop(NewDay(b, bar), bar, cfg), bar, cfg)
  {
    hide SaleTold, EndTold, Close, Finish;
    var dawn := NewDay(b, bar);
    if b.pos.Some? {
      var p := b.pos.value;
      var q := Close(p, p.qty, bar.close, Exit, cfg);
      CloseIsTold(p, p.qty, bar.close, Exit, cfg);
      FinishIsTold(dawn.(stopTriggered := true), p, q, bar, bar.close, HardStopExit);
    }
  }

  lemma TargetIsTold(p: Position, j: nat, bar: Bar, cfg: Config)
    requires WellShaped(p) && j < 3
    ensures TargetTold(p, TakeTarget(p, j, bar, cfg), j, bar, cfg)
    ensures WellShaped(TakeTarget(p, j, bar, cfg))
  {
    if p.left[j] > 0.0 && TargetTouched(p, j, bar) {
      var share, q := Lesser(p.entryQty * p.left[j], p.qty), TakeTarget(p, j, bar, cfg);
      assert FillQty(p, j) == share;
      hide FillQty, Lesser, TargetTouched, Pays;
      FillIsTold(p, share, j, cfg);
      MoveIsTold(FillTarget(p, j, cfg), j, bar, cfg);
      hide MoveStop, FillTarget, Close, SaleTold, Costs, Beyond, Tighter;
      assert q == MoveStop(FillTarget(p, j, cfg), j, bar, cfg);
    }
  }

  lemma FillIsTold(p: Position, share: real, j: nat, cfg: Config)
    requires WellShaped(p) && j < 3 && FillQty(p, j) == share
    ensures var q := FillTarget(p, j, cfg);
      && q.left == p.left[j := 0.0] && q.hits == p.hits + 1 && q.tp1Filled == (p.tp1Filled || j == 0)
      && q.side == p.side && q.entry == p.entry && q.stop == p.stop
      && SaleTold(p, q.(left := p.left, hits := p.hits, tp1Filled := p.tp1Filled, stop := p.stop), share,
                  p.targets[j], Target(j), cfg)
  {
    CloseIsTold(p, share, p.targets[j], Target(j), cfg);
    hide SaleTold, Net, Gain, RoundTripCost;
    assert FillTarget(p, j, cfg).(left := p.left, hits := p.hits, tp1Filled := p.tp1Filled, stop := p.stop)
        == Close(p, share, p.targets[j], Target(j), cfg);
  }

  lemma MoveIsTold(p: Position, j: nat, bar: Bar, cfg: Config)
    ensures MoveStop(p, j, bar, cfg)
         == p.(stop := if j == 0 then Tighter(p.side, p.stop, Beyond(p.side, p.entry, Costs(p.entry, cfg)))
                       else if j == 1 then Tighter(p.side, p.stop, Beyond(p.side, bar.close, -(1.2 * bar.atr)))
                       else p.stop)
  {
  }

  lemma PathIsTold(p: Position, bar: Bar, i: nat, signal: Option<Side>, cfg: Config) returns (x: Path)
    requires WellShaped(p)
    ensures PathTold(x, p, bar, i, signal, cfg)
    ensures x.last == LeaveInFull(TakeTargets(p, 3, bar, cfg), bar, i, signal, cfg)
  {
    var first := TakeTarget(p, 0, bar, cfg);
    TargetIsTold(p, 0, bar, cfg);
    var second := TakeTarget(first, 1, bar, cfg);
    TargetIsTold(first, 1, bar, cfg);
    var third := TakeTarget(second, 2, bar, cfg);
    TargetIsTold(second, 2, bar, cfg);
    x := Path(first, second, third, LeaveInFull(third, bar, i, signal, cfg));
    ThreeTargets(p, bar, cfg);
    LeaveIsTold(third, bar, i, signal, cfg);
    hide TargetTold, TakeTarget, LeaveTold, LeaveInFull;
  }

  lemma ThreeTargets(p: Position, bar: Bar, cfg: Config)
    requires WellShaped(p)
    ensures var first := TakeTargets(p, 1, bar, cfg);
      && first == TakeTarget(p, 0, bar, cfg)
      && TakeTargets(p, 3, bar, cfg) == TakeTarget(TakeTarget(first, 1, bar, cfg), 2, bar, cfg)
  {
    hide TakeTarget;
    assert TakeTargets(p, 0, bar, cfg) == p;
    assert TakeTargets(p, 1, bar, cfg) == TakeTarget(p, 0, bar, cfg);
    assert TakeTargets(p, 2, bar, cfg) == TakeTarget(TakeTargets(p, 1, bar, cfg), 1, bar, cfg);
  }

  lemma LeaveIsTold(p: Position, bar: Bar, i: nat, signal: Option<Side>, cfg: Config)
    ensures LeaveTold(p, LeaveInFull(p, bar, i, signal, cfg), bar, i, signal, cfg)
  {
    CloseIsTold(p, p.qty, bar.close, Exit, cfg);
    hide SaleTold, Close;
  }

  lemma ManagedIsTold(b: Book, bar: Bar, i: nat, signal: Option<Side>, cfg: Config)
    requires b.pos.Some? ==> WellShaped(b.pos.value)
    ensures ManagedTold(b, Manage(b, bar, i, signal, cfg), bar, i, signal, cfg)
  {
    hide SaleTold, EndTold, PathTold, Close, Finish, TakeTargets, LeaveInFull;
    if b.pos.Some? {
      var p := b.pos.value;
      if StopTouched(p, bar) {
        var q := Close(p, p.qty, p.stop, Exit, cfg);
        CloseIsTold(p, p.qty, p.stop, Exit, cfg);
        FinishIsTold(b, p, q, bar, p.stop, StopExit);
      } else {
        var x := PathIsTold(p, bar, i, signal, cfg);
        FinishIsTold(b, p, x.last, bar, bar.close, FullExit);
      }
    }
  }

  lemma {:induction false} LowestIs(bars: seq<Bar>, lo: nat, hi: nat)
    requires lo < hi <= |bars|
    ensures forall j :: lo <= j < hi ==> LowestLow(bars, lo, hi) <= bars[j].low
    ensures exists j :: lo <= j < hi && LowestLow(bars, lo, hi) == bars[j].low
  {
    if hi == lo + 1 {
      assert LowestLow(bars, lo, hi) == bars[lo].low;
    } else {
      LowestIs(bars, lo, hi - 1);
      var j :| lo <= j < hi - 1 && LowestLow(bars, lo, hi - 1) == bars[j].low;
      assert LowestLow(bars, lo, hi) == bars[if bars[hi - 1].low <= bars[j].low then hi - 1 else j].low;
    }
  }

  lemma {:induction false} HighestIs(bars: seq<Bar>, lo: nat, hi: nat)
    requires lo < hi <= |bars|
    ensures forall j :: lo <= j < hi ==> bars[j].high <= HighestHigh(bars, lo, hi)
    ensures exists j :: lo <= j < hi && HighestHigh(bars, lo, hi) == bars[j].high
  {
    if hi == lo + 1 {
      assert HighestHigh(bars, lo, hi) == bars[lo].high;
    } else {
      HighestIs(bars, lo, hi - 1);
      var j :| lo <= j < hi - 1 && HighestHigh(bars, lo, hi - 1) == bars[j].high;
      assert HighestHigh(bars, lo, hi) == bars[if bars[hi - 1].high >= bars[j].high then hi - 1 else j].high;
    }
  }

  lemma StructureIsTold(side: Side, bars: seq<Bar>, i: nat)
    requires i < |bars|
    ensures var from := if i >= LOOKBACK then i - LOOKBACK else 0;
      StructureTold(if side == Long then LowestLow(bars, from, i + 1) else HighestHigh(bars, from, i + 1), side, bars,
                    i)
  {
    var from := if i >= LOOKBACK then i - LOOKBACK else 0;
    LowestIs(bars, from, i + 1);
    HighestIs(bars, from, i + 1);
    hide LowestLow, HighestHigh;
  }

  lemma SizingIsTold(x: Plan, sizing: Sizing, equity: real, cfg: Config)
    requires x.distance > 0.0 && sizing == SizePosition(equity, cfg.riskPerTrade, x.distance)
    requires x.amount == sizing.risk && x.qty == sizing.qty
    ensures AmountTold(x, equity, cfg)
  {
    assert x.amount / x.distance * x.distance == x.amount;
  }

  lemma EntryIsTold(b: Book, bars: seq<Bar>, i: nat, signal: Option<Side>, cfg: Config)
    requires i < |bars| && Usable(cfg)
    ensures EntryTold(b, Enter(b, bars, i, signal, cfg), bars, i, signal, cfg)
  {
    if b.pos == None && !b.stopTriggered && signal.Some? {
      var bar, from := bars[i], if i >= LOOKBACK then i - LOOKBACK else 0;
      var structure := if signal.value == Long then LowestLow(bars, from, i + 1) else HighestHigh(bars, from, i + 1);
      var distance := StopDistance(bar.close, structure, bar.atr, cfg.atrBufferMult, cfg.stopCapPct);
      var sizing := SizePosition(b.equity, cfg.riskPerTrade, distance);
      var x := Plan(structure, distance, sizing.risk, sizing.qty);
      StructureIsTold(signal.value, bars, i);
      assert DistanceTold(x, bar, cfg);
      SizingIsTold(x, sizing, b.equity, cfg);
      PlannedIs(x, signal.value, bar, i, sizing, cfg);
      hide StructureTold, DistanceTold, AmountTold, LowestLow, HighestHigh, StopDistance, Planned, Opened, SizePosition;
      assert Enter(b, bars, i, signal, cfg)
          == if sizing.qty > 0.0 then b.(pos := Some(Opened(signal.value, bar, i, distance, sizing, cfg))) else b;
      assert PlanTold(x, b, Enter(b, bars, i, signal, cfg), bars, i, signal.value, cfg);
    }
  }

  lemma PlannedIs(x: Plan, side: Side, bar: Bar, i: nat, sizing: Sizing, cfg: Config)
    requires Usable(cfg) && x.qty == sizing.qty && x.amount == sizing.risk
    ensures Opened(side, bar, i, x.distance, sizing, cfg) == Planned(x, side, bar, i, cfg)
  {
    StepsAhead(side, bar.close, -x.distance);
    forall j | 0 <= j < 3
      ensures Offset(side, bar.close, cfg.targetR[j] * x.distance)
           == Beyond(side, bar.close, cfg.targetR[j] * x.distance)
    {
      StepsAhead(side, bar.close, cfg.targetR[j] * x.distance);
    }
    hide Offset, Beyond;
    var actual, planned := Opened(side, bar, i, x.distance, sizing, cfg), Planned(x, side, bar, i, cfg);
    assert forall j :: 0 <= j < 3 ==> actual.targets[j] == planned.targets[j];
    assert actual.targets == planned.targets;
  }

  lemma StepsAhead(side: Side, from: real, steps: real)
    ensures Offset(side, from, steps) == Beyond(side, from, steps)
  {
  }

  /** A run begins with its initial equity and nothing else, and every bar does what is told of it. */
  lemma RunIsTold(bars: seq<Bar>, signals: seq<Option<Side>>, cfg: Config, n: nat)
    requires n < |bars| == |signals| && Usable(cfg)
    ensures After(bars, signals, cfg, 0) == Book(cfg.initialEquity, cfg.initialEquity, false, None, None, [], [])
    ensures BarTold(After(bars, signals, cfg, n), After(bars, signals, cfg, n + 1), bars, n, signals[n], cfg)
  {
    hide MorningTold, ManagedTold, EntryTold, HardStop, NewDay, Manage, Enter;
    var b, bar, signal := After(bars, signals, cfg, n), bars[n], signals[n];
    var m := HardStop(NewDay(b, bar), bar, cfg);
    MorningShaped(b, bar, cfg);
    MorningIsTold(b, bar, cfg);
    ManagedIsTold(m, bar, n, signal, cfg);
    var managed := Manage(m, bar, n, signal, cfg);
    EntryIsTold(managed, bars, n, signal, cfg);
  }

  lemma MorningShaped(b: Book, bar: Bar, cfg: Config)
    requires b.pos.Some? ==> WellShaped(b.pos.value)
    ensures var m := HardStop(NewDay(b, bar), bar, cfg); m.pos.Some? ==> WellShaped(m.pos.value)
  {
    hide Close, RecordOf;
  }
}
