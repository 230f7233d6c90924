/** The bar-by-bar risk backtest: R-multiple targets, ratcheting stop, daily hard stop. */
module RiskBacktest {
  import opened Prelude

  datatype Config = Config(
    initialEquity: real,
    riskPerTrade: real,
    stopCapPct: real,
    atrBufferMult: real,
    targetR: seq<real>,
    targetFraction: seq<real>,
    maxBars: nat,
    dailyHardStopDd: real,
    feePerSide: real,
    slippagePerSide: real)

  /** Three targets, each with an R multiple and a fraction. */
  predicate Usable(cfg: Config) {
    |cfg.targetR| == 3 && |cfg.targetFraction| == 3
  }

  /** Costs are not negative and targets lie on the winning side. */
  predicate Plausible(cfg: Config) {
    && 0.0 <= cfg.feePerSide && 0.0 <= cfg.slippagePerSide
    && forall j :: 0 <= j < |cfg.targetR| ==> cfg.targetR[j] >= 0.0
  }

  datatype Bar = Bar(ts: int, high: real, low: real, close: real, atr: real)

  ghost predicate SoundBars(bars: seq<Bar>) {
    forall i :: 0 <= i < |bars| ==> 0.0 < bars[i].low <= bars[i].close <= bars[i].high
  }

  const DAY := 86_400

  function DayOf(ts: int): int { ts / DAY }

  // ---- sizing ----

  const TINY := 0.000000001

  function StopDistance(entry: real, structureStop: real, atr: real, atrBufferMult: real, stopCapPct: real): real {
    Max(TINY, Min(Abs(entry - structureStop) + atr * atrBufferMult, entry * stopCapPct))
  }

  datatype Sizing = Sizing(qty: real, risk: real)

  function SizePosition(equity: real, riskPerTrade: real, stopDistance: real): Sizing {
    var risk := equity * riskPerTrade;
    Sizing(if stopDistance > 0.0 then risk / stopDistance else 0.0, risk)
  }

  /** The stop is at a positive distance, and hitting it in full costs the risk amount. */
  lemma SizingRisksTheAmount(equity: real, riskPerTrade: real, entry: real, structureStop: real, atr: real, mult: real,
                             cap: real)
    ensures var d := StopDistance(entry, structureStop, atr, mult, cap);
      d > 0.0 && d * SizePosition(equity, riskPerTrade, d).qty == SizePosition(equity, riskPerTrade, d).risk
  {
  }

  // ---- a position and its fills ----

  datatype Tag = Target(j: nat) | Exit

  datatype Fill = Fill(tag: Tag, qty: real, price: real)

  /** An open position. `distance`, `fills` and `tp1Filled` are history that no code reads. */
  datatype Position = Position(
    side: Side,
    qty: real,
    entryQty: real,
    entryIdx: nat,
    entryTs: int,
    entry: real,
    risk: real,
    distance: real,
    stop: real,
    targets: seq<real>,
    left: seq<real>,
    hits: nat,
    realized: real,
    fills: seq<Fill>,
    tp1Filled: bool)

  function Gain(side: Side, from: real, to: real): real {
    if side == Long then to - from else from - to
  }

  /** `steps` in the direction of the side. */
  function Offset(side: Side, from: real, steps: real): real {
    if side == Long then from + steps else from - steps
  }

  function RoundTripCost(price: real, cfg: Config): real {
    price * 2.0 * (cfg.feePerSide + cfg.slippagePerSide)
  }

  /** Net profit of closing a quantity, given the gain and the cost per unit. */
  function Net(gain: real, cost: real, qty: real): real {
    gain * qty - cost * qty
  }

  function Close(p: Position, qty: real, price: real, tag: Tag, cfg: Config): Position {
    p.(qty := p.qty - qty,
       realized := p.realized + Net(Gain(p.side, p.entry, price), RoundTripCost(p.entry, cfg), qty),
       fills := p.fills + [Fill(tag, qty, price)])
  }

  predicate StopTouched(p: Position, bar: Bar) {
    if p.side == Long then bar.low <= p.stop else bar.high >= p.stop
  }

  predicate TargetTouched(p: Position, j: nat, bar: Bar)
    requires j < |p.targets|
  {
    if p.side == Long then bar.high >= p.targets[j] else bar.low <= p.targets[j]
  }

  /** The stop after it may have been moved in the position's favour, never against it. */
  function Ratchet(p: Position, to: real): Position {
    p.(stop := if p.side == Long then Max(p.stop, to) else Min(p.stop, to))
  }

  predicate WellShaped(p: Position) {
    |p.targets| == 3 && |p.left| == 3
  }

  const TRAIL := 1.2

  /** The share of target `j`, capped at what is left. */
  function FillQty(p: Position, j: nat): real
    requires WellShaped(p) && j < 3
  {
    Min(p.entryQty * p.left[j], p.qty)
  }

  /** Sells the share of target `j` and marks the target as hit. */
  function FillTarget(p: Position, j: nat, cfg: Config): Position
    requires WellShaped(p) && j < 3
  {
    Close(p, FillQty(p, j), p.targets[j], Target(j), cfg).(
      left := p.left[j := 0.0], hits := p.hits + 1, tp1Filled := p.tp1Filled || j == 0)
  }

  /** The first target moves the stop to breakeven plus costs, the second trails it behind the close. */
  function MoveStop(p: Position, j: nat, bar: Bar, cfg: Config): Position {
    if j == 0 then Ratchet(p, Offset(p.side, p.entry, RoundTripCost(p.entry, cfg)))
    else if j == 1 then Ratchet(p, Offset(p.side, bar.close, -(TRAIL * bar.atr)))
    else p
  }

  function TakeTarget(p: Position, j: nat, bar: Bar, cfg: Config): Position
    requires WellShaped(p) && j < 3
  {
    if p.left[j] > 0.0 && TargetTouched(p, j, bar) then MoveStop(FillTarget(p, j, cfg), j, bar, cfg) else p
  }

  /** After the first `n` targets have been considered on a bar. */
  function TakeTargets(p: Position, n: nat, bar: Bar, cfg: Config): (q: Position)
    requires WellShaped(p) && n <= 3
    ensures WellShaped(q)
  {
    if n == 0 then p else TakeTarget(TakeTargets(p, n - 1, bar, cfg), n - 1, bar, cfg)
  }

  // ---- the book ----

  datatype ExitKind = HardStopExit | StopExit | FullExit

  /** A recorded trade. `kind`, `position` and `tp1Before` are history that no code reads. */
  datatype Record = Record(
    entryTs: int,
    exitTs: int,
    side: Side,
    entry: real,
    exit: real,
    qty: real,
    pnl: real,
    rMultiple: real,
    hits: nat,
    stopped: bool,
    kind: ExitKind,
    position: Position,
    tp1Before: bool)

  datatype Book = Book(
    equity: real,
    dayStartEquity: real,
    stopTriggered: bool,
    day: Option<int>,
    pos: Option<Position>,
    trades: seq<Record>,
    curve: seq<real>)

  function RecordOf(p: Position, bar: Bar, exit: real, kind: ExitKind, tp1Before: bool): Record {
    Record(p.entryTs, bar.ts, p.side, p.entry, exit, p.entryQty, p.realized, p.realized / Max(p.risk, TINY),
           p.hits, kind != FullExit, kind, p, tp1Before)
  }

  function NewDay(b: Book, bar: Bar): Book {
    if b.day != Some(DayOf(bar.ts)) then
      b.(day := Some(DayOf(bar.ts)), dayStartEquity := b.equity, stopTriggered := false)
    else b
  }

  /** Books a finished position: its last profit reaches the equity and the trade list. */
  function Finish(b: Book, was: Position, p: Position, bar: Bar, exit: real, kind: ExitKind): Book {
    b.(equity := b.equity + (p.realized - was.realized), pos := None,
       trades := b.trades + [RecordOf(p, bar, exit, kind, was.tp1Filled)])
  }

  function HardStop(b: Book, bar: Bar, cfg: Config): Book {
    if b.stopTriggered || b.equity > b.dayStartEquity * (1.0 - cfg.dailyHardStopDd) then b
    else
      var triggered := b.(stopTriggered := true);
      match b.pos
      case None => triggered
      case Some(p) => Finish(triggered, p, Close(p, p.qty, bar.close, Exit, cfg), bar, bar.close, HardStopExit)
  }

  const DUST := 0.000000000001

  function LeaveInFull(p: Position, bar: Bar, i: nat, signal: Option<Side>, cfg: Config): Position {
    if p.qty > DUST && (signal == Some(Opposite(p.side)) || i - p.entryIdx >= cfg.maxBars)
    then Close(p, p.qty, bar.close, Exit, cfg) else p
  }

  function Manage(b: Book, bar: Bar, i: nat, signal: Option<Side>, cfg: Config): Book
    requires b.pos.Some? ==> WellShaped(b.pos.value)
  {
    match b.pos
    case None => b
    case Some(p) =>
      if StopTouched(p, bar) then
        Finish(b, p, Close(p, p.qty, p.stop, Exit, cfg), bar, p.stop, StopExit)
      else
        var q := LeaveInFull(TakeTargets(p, 3, bar, cfg), bar, i, signal, cfg);
        if q.qty <= DUST then Finish(b, p, q, bar, bar.close, FullExit)
        else b.(equity := b.equity + (q.realized - p.realized), pos := Some(q))
  }

  function LowestLow(bars: seq<Bar>, lo: nat, hi: nat): real
    requires lo < hi <= |bars|
  {
    if hi == lo + 1 then bars[lo].low else Min(LowestLow(bars, lo, hi - 1), bars[hi - 1].low)
  }

  function HighestHigh(bars: seq<Bar>, lo: nat, hi: nat): real
    requires lo < hi <= |bars|
  {
    if hi == lo + 1 then bars[lo].high else Max(HighestHigh(bars, lo, hi - 1), bars[hi - 1].high)
  }

  const LOOKBACK := 12

  function Opened(side: Side, bar: Bar, i: nat, distance: real, sizing: Sizing, cfg: Config): Position
    requires Usable(cfg)
  {
    Position(side, sizing.qty, sizing.qty, i, bar.ts, bar.close, sizing.risk, distance,
             Offset(side, bar.close, -distance),
             [Offset(side, bar.close, cfg.targetR[0] * distance),
              Offset(side, bar.close, cfg.targetR[1] * distance),
              Offset(side, bar.close, cfg.targetR[2] * distance)],
             cfg.targetFraction, 0, 0.0, [], false)
  }

  function Enter(b: Book, bars: seq<Bar>, i: nat, signal: Option<Side>, cfg: Config): Book
    requires i < |bars| && Usable(cfg)
  {
    if b.pos.Some? || b.stopTriggered || signal == None then b
    else
      var bar, from := bars[i], if i >= LOOKBACK then i - LOOKBACK else 0;
      var structureStop := if signal == Some(Long) then LowestLow(bars, from, i + 1)
                           else HighestHigh(bars, from, i + 1);
      var distance := StopDistance(bar.close, structureStop, bar.atr, cfg.atrBufferMult, cfg.stopCapPct);
      var sizing := SizePosition(b.equity, cfg.riskPerTrade, distance);
      if sizing.qty > 0.0 then b.(pos := Some(Opened(signal.value, bar, i, distance, sizing, cfg))) else b
  }

  /** The book after the first `n` bars. */
  function After(bars: seq<Bar>, signals: seq<Option<Side>>, cfg: Config, n: nat): (b: Book)
    requires n <= |bars| == |signals| && Usable(cfg)
    ensures b.pos.Some? ==> WellShaped(b.pos.value)
  {
    if n == 0 then Book(cfg.initialEquity, cfg.initialEquity, false, None, None, [], [])
    else
      var bar, signal := bars[n - 1], signals[n - 1];
      var morning := HardStop(NewDay(After(bars, signals, cfg, n - 1), bar), bar, cfg);
      var b := Enter(Manage(morning, bar, n - 1, signal, cfg), bars, n - 1, signal, cfg);
      b.(curve := b.curve + [b.equity])
  }

  // ---- the ledger of a position ----

  function LedgerQty(fills: seq<Fill>): real {
    if fills == [] then 0.0 else LedgerQty(fills[..|fills| - 1]) + fills[|fills| - 1].qty
  }

  function LedgerNet(fills: seq<Fill>, side: Side, entry: real, cost: real): real {
    if fills == [] then 0.0
    else
      var last := fills[|fills| - 1];
      LedgerNet(fills[..|fills| - 1], side, entry, cost) + Net(Gain(side, entry, last.price), cost, last.qty)
  }

  /** A target with a positive fraction; the others are passed over. */
  predicate InUse(cfg: Config, j: nat)
    requires Usable(cfg) && j < 3
  {
    cfg.targetFraction[j] > 0.0
  }

  /** A multiple of the stop distance. */
  function Multiple(r: real, distance: real): real { r * distance }

  /** Losing `distance` and paying `cost` on a quantity. */
  function Exposure(distance: real, cost: real, qty: real): real {
    (distance + cost) * qty
  }

  /**
   A sound position: its stop never risks more than the initial distance, its
   quantity and profit are exactly what its fills say, only targets in use are
   left, and what it has lost so far is covered by the quantity it has closed.
   */
  ghost predicate SoundPosition(p: Position, cfg: Config)
    requires Usable(cfg)
  {
    var cost := RoundTripCost(p.entry, cfg);
    && WellShaped(p)
    && p.distance > 0.0 && cost >= 0.0
    && p.risk == p.distance * p.entryQty
    && 0.0 <= p.qty <= p.entryQty
    && Gain(p.side, p.entry, p.stop) >= -p.distance
    && (forall j :: 0 <= j < 3 ==>
          Gain(p.side, p.entry, p.targets[j]) == Multiple(cfg.targetR[j], p.distance) && cfg.targetR[j] >= 0.0)
    && (forall j :: 0 <= j < 3 && p.left[j] > 0.0 ==> InUse(cfg, j))
    && p.qty == p.entryQty - LedgerQty(p.fills)
    && p.realized == LedgerNet(p.fills, p.side, p.entry, cost)
    && p.realized >= -Exposure(p.distance, cost, p.entryQty - p.qty)
  }

  lemma NetFloor(gain: real, distance: real, cost: real, qty: real)
    requires gain >= -distance && qty >= 0.0
    ensures Net(gain, cost, qty) >= -Exposure(distance, cost, qty)
  {
    assert (gain + distance) * qty >= 0.0;
  }

  lemma ExposureAdds(distance: real, cost: real, a: real, b: real)
    ensures Exposure(distance, cost, a) + Exposure(distance, cost, b) == Exposure(distance, cost, a + b)
  {
  }

  lemma ExposureNonNegative(distance: real, cost: real, qty: real)
    requires distance + cost >= 0.0 && qty >= 0.0
    ensures Exposure(distance, cost, qty) >= 0.0
  {
  }

  lemma ExposureGrows(distance: real, cost: real, a: real, b: real)
    requires distance + cost >= 0.0 && a <= b
    ensures Exposure(distance, cost, a) <= Exposure(distance, cost, b)
  {
    hide Exposure;
    ExposureNonNegative(distance, cost, b - a);
    ExposureAdds(distance, cost, a, b - a);
  }

  /** Closing a part at a price no worse than the initial stop keeps the position sound. */
  lemma CloseKeepsSound(p: Position, qty: real, price: real, tag: Tag, cfg: Config)
    requires Usable(cfg) && SoundPosition(p, cfg) && 0.0 <= qty <= p.qty && Gain(p.side, p.entry, price) >= -p.distance
    ensures SoundPosition(Close(p, qty, price, tag, cfg), cfg)
  {
    hide Net, Gain, RoundTripCost, Exposure, LedgerQty, LedgerNet;
    var cost, gain := RoundTripCost(p.entry, cfg), Gain(p.side, p.entry, price);
    LedgerAppend(p.fills, Fill(tag, qty, price), p.side, p.entry, cost);
    NetFloor(gain, p.distance, cost, qty);
    ExposureAdds(p.distance, cost, p.entryQty - p.qty, qty);
  }

  lemma LedgerAppend(fills: seq<Fill>, f: Fill, side: Side, entry: real, cost: real)
    ensures LedgerQty(fills + [f]) == LedgerQty(fills) + f.qty
    ensures LedgerNet(fills + [f], side, entry, cost)
         == LedgerNet(fills, side, entry, cost) + Net(Gain(side, entry, f.price), cost, f.qty)
  {
    hide Net, Gain;
    assert (fills + [f])[..|fills|] == fills;
  }

  lemma RatchetKeepsSound(p: Position, to: real, cfg: Config)
    requires Usable(cfg) && SoundPosition(p, cfg)
    ensures SoundPosition(Ratchet(p, to), cfg)
    ensures Gain(p.side, p.stop, Ratchet(p, to).stop) >= 0.0
  {
    hide Net, RoundTripCost, Exposure, LedgerNet, LedgerQty;
  }

  lemma TargetGainsNothingNegative(r: real, distance: real)
    requires r >= 0.0 && distance > 0.0
    ensures Multiple(r, distance) >= 0.0
  {
  }

  lemma FillQuantity(entryQty: real, left: real, qty: real)
    requires 0.0 <= qty <= entryQty && left > 0.0
    ensures 0.0 <= Min(entryQty * left, qty) <= qty
  {
    assert entryQty * left >= 0.0;
  }

  /** What a fill at target `j` needs: a quantity within the position at a price that gains. */
  lemma FillTerms(p: Position, j: nat, cfg: Config)
    requires Usable(cfg) && SoundPosition(p, cfg) && j < 3 && p.left[j] > 0.0
    ensures WellShaped(p) && 0.0 <= FillQty(p, j) <= p.qty
    ensures Gain(p.side, p.entry, p.targets[j]) >= -p.distance
  {
    hide Net, RoundTripCost, Exposure, LedgerNet, LedgerQty, Gain;
    FillQuantity(p.entryQty, p.left[j], p.qty);
    TargetGainsNothingNegative(cfg.targetR[j], p.distance);
  }

  /** Marking targets as hit does not touch what makes a position sound. */
  lemma MarkKeepsSound(p: Position, left: seq<real>, hits: nat, tp1: bool, cfg: Config)
    requires Usable(cfg) && SoundPosition(p, cfg) && |left| == 3
    requires forall j :: 0 <= j < 3 && left[j] > 0.0 ==> p.left[j] > 0.0
    ensures SoundPosition(p.(left := left, hits := hits, tp1Filled := tp1), cfg)
  {
    hide Net, RoundTripCost, Exposure, LedgerNet, LedgerQty, Gain;
  }

  lemma FillKeepsSound(p: Position, j: nat, cfg: Config)
    requires Usable(cfg) && SoundPosition(p, cfg) && j < 3 && p.left[j] > 0.0
    ensures SoundPosition(FillTarget(p, j, cfg), cfg)
  {
    FillTerms(p, j, cfg);
    hide SoundPosition, Close, Gain, FillQty, Usable;
    CloseKeepsSound(p, FillQty(p, j), p.targets[j], Target(j), cfg);
    MarkKeepsSound(Close(p, FillQty(p, j), p.targets[j], Target(j), cfg),
                   p.left[j := 0.0], p.hits + 1, p.tp1Filled || j == 0, cfg);
  }

  lemma MoveKeepsSound(p: Position, j: nat, bar: Bar, cfg: Config)
    requires Usable(cfg) && SoundPosition(p, cfg)
    ensures SoundPosition(MoveStop(p, j, bar, cfg), cfg)
    ensures Gain(p.side, p.stop, MoveStop(p, j, bar, cfg).stop) >= 0.0
  {
    RatchetKeepsSound(p, Offset(p.side, p.entry, RoundTripCost(p.entry, cfg)), cfg);
    RatchetKeepsSound(p, Offset(p.side, bar.close, -(TRAIL * bar.atr)), cfg);
    hide SoundPosition, Ratchet, Offset, RoundTripCost;
  }

  lemma TakeTargetKeepsSound(p: Position, j: nat, bar: Bar, cfg: Config)
    requires Usable(cfg) && SoundPosition(p, cfg) && j < 3
    ensures SoundPosition(TakeTarget(p, j, bar, cfg), cfg)
    ensures Gain(p.side, p.stop, TakeTarget(p, j, bar, cfg).stop) >= 0.0
  {
    if p.left[j] > 0.0 && TargetTouched(p, j, bar) {
      FillKeepsSound(p, j, cfg);
      assert FillTarget(p, j, cfg).stop == p.stop && FillTarget(p, j, cfg).side == p.side;
      hide SoundPosition, FillTarget, MoveStop;
      MoveKeepsSound(FillTarget(p, j, cfg), j, bar, cfg);
    }
  }

  /** The identity of a position, which managing it never changes. */
  predicate SameTrade(p: Position, q: Position) {
    q.side == p.side && q.entryQty == p.entryQty && q.entry == p.entry && q.risk == p.risk && q.distance == p.distance
    && q.entryTs == p.entryTs && q.entryIdx == p.entryIdx && q.targets == p.targets
  }

  lemma TakeTargetSameTrade(p: Position, j: nat, bar: Bar, cfg: Config)
    requires WellShaped(p) && j < 3
    ensures SameTrade(p, TakeTarget(p, j, bar, cfg))
  {
    hide Net, Gain, Min, Max;
  }

  lemma {:induction false} TakeTargetsKeepSound(p: Position, n: nat, bar: Bar, cfg: Config)
    requires Usable(cfg) && SoundPosition(p, cfg) && n <= 3
    ensures SoundPosition(TakeTargets(p, n, bar, cfg), cfg)
    ensures Gain(p.side, p.stop, TakeTargets(p, n, bar, cfg).stop) >= 0.0
    ensures SameTrade(p, TakeTargets(p, n, bar, cfg))
  {
    if n > 0 {
      hide SoundPosition, TakeTarget, Usable, WellShaped;
      TakeTargetsKeepSound(p, n - 1, bar, cfg);
      var q := TakeTargets(p, n - 1, bar, cfg);
      TakeTargetKeepsSound(q, n - 1, bar, cfg);
      TakeTargetSameTrade(q, n - 1, bar, cfg);
    }
  }

  // ---- targets in order, and no loss after the first ----

  /** The R multiples of the targets in use do not fall. */
  predicate OrderedTargets(cfg: Config)
    requires Usable(cfg)
  {
    forall a, b :: 0 <= a < b < 3 && InUse(cfg, a) && InUse(cfg, b) ==> cfg.targetR[a] <= cfg.targetR[b]
  }

  /** Some of the first `n` fills is the one at target `j`. */
  ghost predicate Filled(fills: seq<Fill>, n: nat, j: nat)
    requires n <= |fills|
  {
    exists k :: 0 <= k < n && fills[k].tag == Target(j)
  }

  /**
   The first `n` fills are at targets in use, with strictly increasing numbers,
   and no target in use is passed over on the way.
   */
  ghost predicate FilledInOrder(fills: seq<Fill>, n: nat, cfg: Config)
    requires Usable(cfg) && n <= |fills|
  {
    && (forall k :: 0 <= k < n ==> fills[k].tag.Target? && fills[k].tag.j < 3 && InUse(cfg, fills[k].tag.j))
    && (forall a, b :: 0 <= a < b < n ==> fills[a].tag.j < fills[b].tag.j)
    && (forall k, i :: 0 <= k < n && 0 <= i < fills[k].tag.j && InUse(cfg, i) ==> Filled(fills, k, i))
  }

  /** The fills are in order and are those of the targets in use that are no longer left. */
  ghost predicate InOrder(p: Position, cfg: Config)
    requires Usable(cfg)
  {
    && WellShaped(p) && |p.fills| == p.hits
    && FilledInOrder(p.fills, p.hits, cfg)
    && (forall j :: 0 <= j < 3 && InUse(cfg, j) ==> (Filled(p.fills, p.hits, j) <==> p.left[j] <= 0.0))
    && (p.tp1Filled <==> Filled(p.fills, p.hits, 0))
  }

  /** Every one of the first `n` targets is done on this bar: not left, or not touched. */
  predicate Considered(p: Position, n: nat, bar: Bar)
    requires WellShaped(p) && n <= 3
  {
    forall i :: 0 <= i < n ==> p.left[i] <= 0.0 || !TargetTouched(p, i, bar)
  }

  lemma ScaledOrder(a: real, b: real, d: real)
    requires a <= b && d >= 0.0
    ensures Multiple(a, d) <= Multiple(b, d)
  {
    assert (b - a) * d >= 0.0;
  }

  lemma TargetsNest(p: Position, a: nat, b: nat, bar: Bar, cfg: Config)
    requires Usable(cfg) && OrderedTargets(cfg) && SoundPosition(p, cfg) && a < b < 3 && InUse(cfg, a) && InUse(cfg, b)
    requires TargetTouched(p, b, bar)
    ensures TargetTouched(p, a, bar)
  {
    hide Net, RoundTripCost, Exposure, LedgerNet, LedgerQty, Multiple;
    ScaledOrder(cfg.targetR[a], cfg.targetR[b], p.distance);
    assert Gain(p.side, p.entry, p.targets[a]) <= Gain(p.side, p.entry, p.targets[b]);
  }

  lemma StaysFilled(fills: seq<Fill>, k: nat, j: nat)
    requires k < |fills|
    ensures Filled(fills, k, j) || fills[k].tag == Target(j) ==> Filled(fills, |fills|, j)
  {
    if Filled(fills, k, j) {
      var a :| 0 <= a < k && fills[a].tag == Target(j);
    }
  }

  /** One more fill, at a target in use beyond all filled ones and with none left before it. */
  lemma OneMoreFill(fills: seq<Fill>, f: Fill, cfg: Config)
    requires Usable(cfg) && FilledInOrder(fills, |fills|, cfg) && f.tag.Target? && f.tag.j < 3 && InUse(cfg, f.tag.j)
    requires !Filled(fills, |fills|, f.tag.j)
    requires forall i :: 0 <= i < f.tag.j && InUse(cfg, i) ==> Filled(fills, |fills|, i)
    ensures FilledInOrder(fills + [f], |fills| + 1, cfg)
    ensures forall j :: Filled(fills + [f], |fills| + 1, j) <==> j == f.tag.j || Filled(fills, |fills|, j)
  {
    var all, n := fills + [f], |fills|;
    assert forall k :: 0 <= k < n ==> all[k] == fills[k];
    assert all[n] == f;
    forall k | 0 <= k < n ensures fills[k].tag.j < f.tag.j {
      StaysFilled(fills, k, f.tag.j);
    }
    forall k: nat, i: nat | k <= n ensures Filled(all, k, i) <==> Filled(fills, k, i) {
      SameFills(fills, f, k, i);
    }
    forall j ensures Filled(all, n + 1, j) <==> j == f.tag.j || Filled(fills, n, j) {
      if Filled(all, n + 1, j) {
        var k :| 0 <= k < n + 1 && all[k].tag == Target(j);
        assert k < n ==> fills[k].tag == Target(j);
      }
      if Filled(fills, n, j) {
        var k :| 0 <= k < n && fills[k].tag == Target(j);
        assert all[k].tag == Target(j);
      }
    }
  }

  lemma SameFills(fills: seq<Fill>, f: Fill, k: nat, i: nat)
    requires k <= |fills|
    ensures Filled(fills + [f], k, i) <==> Filled(fills, k, i)
  {
    var all := fills + [f];
    if Filled(all, k, i) {
      var a :| 0 <= a < k && all[a].tag == Target(i);
      assert fills[a].tag == Target(i);
    }
    if Filled(fills, k, i) {
      var a :| 0 <= a < k && fills[a].tag == Target(i);
      assert all[a].tag == Target(i);
    }
  }

  /** Filling a target keeps the order when every target in use before it is filled. */
  lemma FillInOrder(p: Position, j: nat, cfg: Config)
    requires Usable(cfg) && InOrder(p, cfg) && j < 3 && p.left[j] > 0.0 && InUse(cfg, j)
    requires forall i :: 0 <= i < j && InUse(cfg, i) ==> p.left[i] <= 0.0
    ensures InOrder(FillTarget(p, j, cfg), cfg)
  {
    hide Net, Gain, Min, RoundTripCost, FilledInOrder, Filled;
    OneMoreFill(p.fills, Fill(Target(j), FillQty(p, j), p.targets[j]), cfg);
  }

  /**
   Considering the next target keeps the order of fills: what is touched beyond a
   target in use touches that one too.
   */
  lemma TakeTargetInOrder(p: Position, j: nat, bar: Bar, cfg: Config)
    requires Usable(cfg) && OrderedTargets(cfg) && SoundPosition(p, cfg) && InOrder(p, cfg) && j < 3
    requires Considered(p, j, bar)
    ensures var q := TakeTarget(p, j, bar, cfg);
      InOrder(q, cfg) && Considered(q, j + 1, bar)
  {
    if p.left[j] > 0.0 && TargetTouched(p, j, bar) {
      assert InUse(cfg, j);
      forall i | 0 <= i < j && InUse(cfg, i) ensures p.left[i] <= 0.0 {
        TargetsNest(p, i, j, bar, cfg);
      }
      FillInOrder(p, j, cfg);
      MoveInOrder(FillTarget(p, j, cfg), j, bar, cfg);
    }
    hide SoundPosition, Net, Gain, Max, Min, OrderedTargets, RoundTripCost, InOrder;
  }

  lemma MoveInOrder(p: Position, j: nat, bar: Bar, cfg: Config)
    requires Usable(cfg) && InOrder(p, cfg)
    ensures InOrder(MoveStop(p, j, bar, cfg), cfg)
  {
    hide FilledInOrder, Filled, Max, Min, RoundTripCost, Offset;
  }

  lemma SoundIsShaped(p: Position, cfg: Config)
    requires Usable(cfg) && SoundPosition(p, cfg)
    ensures WellShaped(p)
  {
  }

  lemma {:induction false} TakeTargetsInOrder(p: Position, n: nat, bar: Bar, cfg: Config)
    requires Usable(cfg) && OrderedTargets(cfg) && SoundPosition(p, cfg) && InOrder(p, cfg) && n <= 3
    ensures var q := TakeTargets(p, n, bar, cfg);
      InOrder(q, cfg) && Considered(q, n, bar)
  {
    hide SoundPosition, OrderedTargets, TakeTarget, TargetTouched, InOrder;
    SoundIsShaped(p, cfg);
    if n > 0 {
      TakeTargetsInOrder(p, n - 1, bar, cfg);
      TakeTargetsKeepSound(p, n - 1, bar, cfg);
      TakeTargetInOrder(TakeTargets(p, n - 1, bar, cfg), n - 1, bar, cfg);
    }
  }

  /** Every target in use pays for the round trip. */
  predicate CoversCosts(p: Position, cfg: Config)
    requires Usable(cfg)
  {
    forall j :: 0 <= j < 3 && InUse(cfg, j) ==> RoundTripCost(p.entry, cfg) <= Multiple(cfg.targetR[j], p.distance)
  }

  /** With R multiples that start at the least, it is enough that the first target pays for the round trip. */
  lemma FirstTargetCovers(p: Position, cfg: Config)
    requires Usable(cfg) && p.distance >= 0.0 && RoundTripCost(p.entry, cfg) <= Multiple(cfg.targetR[0], p.distance)
    requires cfg.targetR[0] <= cfg.targetR[1] && cfg.targetR[0] <= cfg.targetR[2]
    ensures CoversCosts(p, cfg)
  {
    hide RoundTripCost, Multiple;
    ScaledOrder(cfg.targetR[0], cfg.targetR[1], p.distance);
    ScaledOrder(cfg.targetR[0], cfg.targetR[2], p.distance);
  }

  /** With costs covered, an open position has banked no loss, and after TP1 its stop is beyond breakeven. */
  ghost predicate Safe(p: Position, cfg: Config) {
    && p.realized >= 0.0
    && (p.tp1Filled ==> Gain(p.side, p.entry, p.stop) >= RoundTripCost(p.entry, cfg))
  }

  lemma NetNonNegative(gain: real, cost: real, qty: real)
    requires gain >= cost && qty >= 0.0
    ensures Net(gain, cost, qty) >= 0.0
  {
    assert (gain - cost) * qty >= 0.0;
  }

  lemma FillBanksNoLoss(p: Position, j: nat, cfg: Config)
    requires Usable(cfg) && SoundPosition(p, cfg) && CoversCosts(p, cfg) && j < 3 && p.left[j] > 0.0
    ensures FillTarget(p, j, cfg).realized >= p.realized
  {
    FillTerms(p, j, cfg);
    assert Gain(p.side, p.entry, p.targets[j]) == Multiple(cfg.targetR[j], p.distance) && InUse(cfg, j);
    hide SoundPosition, Net, RoundTripCost, Gain, FillQty, Usable;
    NetNonNegative(Gain(p.side, p.entry, p.targets[j]), RoundTripCost(p.entry, cfg), FillQty(p, j));
  }

  lemma TakeTargetKeepsSafe(p: Position, j: nat, bar: Bar, cfg: Config)
    requires Usable(cfg) && SoundPosition(p, cfg) && CoversCosts(p, cfg) && Safe(p, cfg) && j < 3
    ensures Safe(TakeTarget(p, j, bar, cfg), cfg)
  {
    if p.left[j] > 0.0 && TargetTouched(p, j, bar) {
      FillBanksNoLoss(p, j, cfg);
      hide SoundPosition, CoversCosts, Net, RoundTripCost;
    }
  }

  lemma {:induction false} TakeTargetsKeepSafe(p: Position, n: nat, bar: Bar, cfg: Config)
    requires Usable(cfg) && SoundPosition(p, cfg) && CoversCosts(p, cfg) && Safe(p, cfg)
    requires n <= 3
    ensures Safe(TakeTargets(p, n, bar, cfg), cfg)
  {
    hide SoundPosition, TakeTarget, CoversCosts, Safe;
    SoundIsShaped(p, cfg);
    if n > 0 {
      TakeTargetsKeepSafe(p, n - 1, bar, cfg);
      TakeTargetsKeepSound(p, n - 1, bar, cfg);
      CoversSame(p, TakeTargets(p, n - 1, bar, cfg), cfg);
      TakeTargetKeepsSafe(TakeTargets(p, n - 1, bar, cfg), n - 1, bar, cfg);
    }
  }

  // ---- what a recorded trade guarantees ----

  /** The loss bound of a trade: its risk amount plus the round trip on the whole quantity. */
  function WorstCase(p: Position, cfg: Config): real {
    p.risk + RoundTripCost(p.entry, cfg) * p.entryQty
  }

  /** A closed position sold at the targets it hit, in order, and at most once more after them. */
  ghost predicate ClosedInOrder(p: Position, cfg: Config)
    requires Usable(cfg)
  {
    && p.hits <= |p.fills| <= p.hits + 1
    && FilledInOrder(p.fills, p.hits, cfg)
    && (|p.fills| == p.hits + 1 ==> p.fills[p.hits].tag == Exit)
  }

  ghost predicate SoundRecord(r: Record, cfg: Config)
    requires Usable(cfg)
  {
    && r.position.distance > 0.0
    && (OrderedTargets(cfg) ==> ClosedInOrder(r.position, cfg))
    && r.pnl == r.position.realized == LedgerNet(r.position.fills, r.side, r.entry, RoundTripCost(r.entry, cfg))
    && r.position.qty == r.qty - LedgerQty(r.position.fills) >= 0.0
    && (r.kind != HardStopExit ==> r.pnl >= -WorstCase(r.position, cfg))
    && (r.kind != HardStopExit && r.tp1Before && CoversCosts(r.position, cfg) ==> r.pnl >= 0.0)
  }

  lemma WorstCaseHolds(p: Position, cfg: Config)
    requires Usable(cfg) && SoundPosition(p, cfg)
    ensures p.realized >= -WorstCase(p, cfg)
  {
    var cost := RoundTripCost(p.entry, cfg);
    ExposureGrows(p.distance, cost, p.entryQty - p.qty, p.entryQty);
    assert Exposure(p.distance, cost, p.entryQty) == p.distance * p.entryQty + cost * p.entryQty;
    hide Net, LedgerNet, LedgerQty, Gain, RoundTripCost, Exposure;
  }

  /** What an open position guarantees between bars. */
  ghost predicate Guarded(p: Position, cfg: Config)
    requires Usable(cfg)
  {
    && SoundPosition(p, cfg)
    && (OrderedTargets(cfg) ==> InOrder(p, cfg))
    && (CoversCosts(p, cfg) ==> Safe(p, cfg))
  }

  /** The close of a bar that did not touch the stop is beyond the stop. */
  lemma CloseBeyondStop(p: Position, bar: Bar)
    requires 0.0 < bar.low <= bar.close <= bar.high && !StopTouched(p, bar)
    ensures Gain(p.side, p.entry, bar.close) > Gain(p.side, p.entry, p.stop)
  {
  }

  lemma LeaveKeepsSound(p: Position, bar: Bar, i: nat, signal: Option<Side>, cfg: Config)
    requires Usable(cfg) && SoundPosition(p, cfg) && Gain(p.side, p.entry, bar.close) >= -p.distance
    ensures SoundPosition(LeaveInFull(p, bar, i, signal, cfg), cfg)
  {
    assert p.qty >= 0.0;
    hide SoundPosition, Close, Gain;
    if p.qty > DUST {
      CloseKeepsSound(p, p.qty, bar.close, Exit, cfg);
    }
  }

  /** A sound position recorded as it stands meets the guarantees of a record. */
  lemma RecordIsSound(p: Position, bar: Bar, exit: real, kind: ExitKind, tp1Before: bool, cfg: Config)
    requires Usable(cfg) && SoundPosition(p, cfg)
    requires OrderedTargets(cfg) ==> ClosedInOrder(p, cfg)
    requires kind != HardStopExit && tp1Before && CoversCosts(p, cfg) ==> p.realized >= 0.0
    ensures SoundRecord(RecordOf(p, bar, exit, kind, tp1Before), cfg)
  {
    hide Net, LedgerNet, LedgerQty, Gain, RoundTripCost, Exposure, OrderedTargets, CoversCosts, Max, WorstCase,
         ClosedInOrder;
    WorstCaseHolds(p, cfg);
  }

  lemma StopWithinDistance(p: Position, cfg: Config)
    requires Usable(cfg) && Guarded(p, cfg)
    ensures Gain(p.side, p.entry, p.stop) >= -p.distance && SoundPosition(p, cfg)
    ensures CoversCosts(p, cfg) ==> Safe(p, cfg)
  {
    hide Net, LedgerNet, LedgerQty, RoundTripCost, Exposure, InOrder, OrderedTargets, CoversCosts, Gain, Safe;
  }

  lemma StillInOrder(fills: seq<Fill>, f: Fill, cfg: Config)
    requires Usable(cfg) && FilledInOrder(fills, |fills|, cfg)
    ensures FilledInOrder(fills + [f], |fills|, cfg)
  {
    forall k: nat, i: nat | k <= |fills| ensures Filled(fills + [f], k, i) <==> Filled(fills, k, i) {
      SameFills(fills, f, k, i);
    }
    hide Filled;
  }

  lemma LeavesInOrder(p: Position, bar: Bar, i: nat, signal: Option<Side>, cfg: Config)
    requires Usable(cfg) && InOrder(p, cfg)
    ensures ClosedInOrder(LeaveInFull(p, bar, i, signal, cfg), cfg)
    ensures forall price :: ClosedInOrder(Close(p, p.qty, price, Exit, cfg), cfg)
  {
    forall price ensures FilledInOrder(p.fills + [Fill(Exit, p.qty, price)], p.hits, cfg) {
      StillInOrder(p.fills, Fill(Exit, p.qty, price), cfg);
    }
    hide Net, Gain, RoundTripCost, FilledInOrder;
  }

  lemma FullExitSound(was: Position, p: Position, bar: Bar, i: nat, signal: Option<Side>, cfg: Config)
    requires Usable(cfg) && Guarded(was, cfg) && SoundPosition(p, cfg) && SameTrade(was, p)
    requires OrderedTargets(cfg) ==> InOrder(p, cfg)
    requires CoversCosts(was, cfg) ==> Safe(p, cfg)
    requires 0.0 < bar.low <= bar.close <= bar.high && !StopTouched(was, bar)
    ensures var q := LeaveInFull(p, bar, i, signal, cfg);
      SoundPosition(q, cfg) && SoundRecord(RecordOf(q, bar, bar.close, FullExit, was.tp1Filled), cfg)
  {
    assert p.qty >= 0.0;
    hide SoundPosition, Guarded, SoundRecord, OrderedTargets, CoversCosts, LeaveInFull, StopTouched, RecordOf, Safe,
         Gain, InOrder, ClosedInOrder;
    if OrderedTargets(cfg) {
      LeavesInOrder(p, bar, i, signal, cfg);
    }
    StopWithinDistance(was, cfg);
    CloseBeyondStop(was, bar);
    LeaveKeepsSound(p, bar, i, signal, cfg);
    LeaveSameTrade(p, bar, i, signal, cfg);
    CoversSame(was, LeaveInFull(p, bar, i, signal, cfg), cfg);
    if was.tp1Filled && CoversCosts(was, cfg) {
      FullExitBanksNoLoss(was, p, bar, i, signal, cfg);
    }
    RecordIsSound(LeaveInFull(p, bar, i, signal, cfg), bar, bar.close, FullExit, was.tp1Filled, cfg);
  }

  lemma CoversSame(p: Position, q: Position, cfg: Config)
    requires Usable(cfg) && SameTrade(p, q)
    ensures CoversCosts(p, cfg) == CoversCosts(q, cfg)
  {
    hide RoundTripCost;
  }

  lemma LeaveSameTrade(p: Position, bar: Bar, i: nat, signal: Option<Side>, cfg: Config)
    ensures SameTrade(p, LeaveInFull(p, bar, i, signal, cfg))
  {
  }

  lemma FullExitBanksNoLoss(was: Position, p: Position, bar: Bar, i: nat, signal: Option<Side>, cfg: Config)
    requires Usable(cfg) && SameTrade(was, p) && Safe(p, cfg) && p.qty >= 0.0
    requires Safe(was, cfg) && was.tp1Filled
    requires Gain(was.side, was.entry, bar.close) > Gain(was.side, was.entry, was.stop)
    ensures LeaveInFull(p, bar, i, signal, cfg).realized >= 0.0
  {
    NetNonNegative(Gain(p.side, p.entry, bar.close), RoundTripCost(p.entry, cfg), p.qty);
    hide Net, RoundTripCost, Gain;
  }

  /** A stop beyond breakeven plus costs banks no loss. */
  lemma StopBanksNoLoss(p: Position, cfg: Config)
    requires Safe(p, cfg) && p.tp1Filled && p.qty >= 0.0
    ensures Close(p, p.qty, p.stop, Exit, cfg).realized >= 0.0
  {
    NetNonNegative(Gain(p.side, p.entry, p.stop), RoundTripCost(p.entry, cfg), p.qty);
    hide Net, Gain, RoundTripCost;
  }

  lemma StopExitSound(p: Position, bar: Bar, cfg: Config)
    requires Usable(cfg) && Guarded(p, cfg)
    ensures SoundRecord(RecordOf(Close(p, p.qty, p.stop, Exit, cfg), bar, p.stop, StopExit, p.tp1Filled), cfg)
  {
    StopWithinDistance(p, cfg);
    assert p.qty >= 0.0;
    var q := Close(p, p.qty, p.stop, Exit, cfg);
    assert SameTrade(p, q);
    hide Guarded, SoundPosition, SoundRecord, RecordOf, Close, SameTrade, Gain, InOrder, ClosedInOrder, OrderedTargets,
         CoversCosts, Safe, LeaveInFull;
    if OrderedTargets(cfg) {
      GuardedInOrder(p, cfg);
      LeavesInOrder(p, bar, 0, None, cfg);
    }
    CoversSame(p, q, cfg);
    if p.tp1Filled && CoversCosts(p, cfg) {
      StopBanksNoLoss(p, cfg);
    }
    CloseKeepsSound(p, p.qty, p.stop, Exit, cfg);
    RecordIsSound(q, bar, p.stop, StopExit, p.tp1Filled, cfg);
  }

  lemma GuardedInOrder(p: Position, cfg: Config)
    requires Usable(cfg) && Guarded(p, cfg) && OrderedTargets(cfg)
    ensures InOrder(p, cfg)
  {
  }

  lemma HardExitSound(p: Position, bar: Bar, cfg: Config)
    requires Usable(cfg) && Guarded(p, cfg)
    ensures SoundRecord(RecordOf(Close(p, p.qty, bar.close, Exit, cfg), bar, bar.close, HardStopExit, p.tp1Filled), cfg)
  {
    var q := Close(p, p.qty, bar.close, Exit, cfg);
    assert q.fills[..|p.fills|] == p.fills;
    if OrderedTargets(cfg) {
      LeavesInOrder(p, bar, 0, None, cfg);
    }
    hide Net, Gain, RoundTripCost, Exposure, ClosedInOrder, InOrder, OrderedTargets, CoversCosts, Safe;
  }

  lemma OpenedGuarded(side: Side, bar: Bar, i: nat, distance: real, sizing: Sizing, cfg: Config)
    requires Usable(cfg) && Plausible(cfg) && bar.close > 0.0 && distance > 0.0 && sizing.qty > 0.0
    requires distance * sizing.qty == sizing.risk
    ensures Guarded(Opened(side, bar, i, distance, sizing, cfg), cfg)
  {
    var p := Opened(side, bar, i, distance, sizing, cfg);
    CostNonNegative(bar.close, cfg);
    assert Exposure(distance, RoundTripCost(bar.close, cfg), 0.0) == 0.0;
    hide Net, RoundTripCost, Exposure;
  }

  lemma CostNonNegative(price: real, cfg: Config)
    requires Plausible(cfg) && price >= 0.0
    ensures RoundTripCost(price, cfg) >= 0.0
  {
    assert price * 2.0 >= 0.0;
  }

  // ---- whole runs ----

  function SumPnl(trades: seq<Record>): real {
    if trades == [] then 0.0 else SumPnl(trades[..|trades| - 1]) + trades[|trades| - 1].pnl
  }

  function OpenPnl(b: Book): real {
    match b.pos case None => 0.0 case Some(p) => p.realized
  }

  /** Equity is the initial deposit, the recorded profits and what the open position has banked. */
  predicate Conserved(b: Book, cfg: Config) {
    b.equity == cfg.initialEquity + SumPnl(b.trades) + OpenPnl(b)
  }

  ghost predicate SoundBook(b: Book, cfg: Config)
    requires Usable(cfg)
  {
    && Conserved(b, cfg)
    && (b.pos.Some? ==> Guarded(b.pos.value, cfg))
    && (forall r :: r in b.trades ==> SoundRecord(r, cfg))
  }

  lemma FinishKeepsSound(b: Book, was: Position, p: Position, bar: Bar, exit: real, kind: ExitKind, cfg: Config)
    requires Usable(cfg) && SoundBook(b, cfg) && b.pos == Some(was)
    requires SoundRecord(RecordOf(p, bar, exit, kind, was.tp1Filled), cfg)
    ensures SoundBook(Finish(b, was, p, bar, exit, kind), cfg)
  {
    var next := Finish(b, was, p, bar, exit, kind);
    assert next.trades[..|b.trades|] == b.trades;
    hide Guarded, SoundRecord, Max;
  }

  lemma ManageKeepsSound(b: Book, bar: Bar, i: nat, signal: Option<Side>, cfg: Config)
    requires Usable(cfg) && SoundBook(b, cfg) && 0.0 < bar.low <= bar.close <= bar.high
    requires b.pos.Some? ==> WellShaped(b.pos.value)
    ensures SoundBook(Manage(b, bar, i, signal, cfg), cfg)
  {
    hide SoundBook, SoundRecord, Guarded, Finish, RecordOf, Close, TakeTargets, LeaveInFull, StopTouched;
    if b.pos.Some? {
      var p := b.pos.value;
      OpenIsGuarded(b, cfg);
      if StopTouched(p, bar) {
        StopExitSound(p, bar, cfg);
        FinishKeepsSound(b, p, Close(p, p.qty, p.stop, Exit, cfg), bar, p.stop, StopExit, cfg);
      } else {
        var t := TakeTargets(p, 3, bar, cfg);
        TargetsKeepGuarded(p, bar, cfg);
        TargetsKeepTerms(p, t, cfg);
        FullExitSound(p, t, bar, i, signal, cfg);
        var q := LeaveInFull(t, bar, i, signal, cfg);
        if q.qty <= DUST {
          FinishKeepsSound(b, p, q, bar, bar.close, FullExit, cfg);
        } else {
          FullyClosedIsDust(t, bar, i, signal, cfg);
          StayKeepsSound(b, t, cfg);
        }
      }
    }
  }

  lemma OpenIsGuarded(b: Book, cfg: Config)
    requires Usable(cfg) && SoundBook(b, cfg) && b.pos.Some?
    ensures Guarded(b.pos.value, cfg)
  {
    hide Guarded, SoundRecord;
  }

  /** What a full exit needs to know about the position after its targets. */
  lemma TargetsKeepTerms(was: Position, p: Position, cfg: Config)
    requires Usable(cfg) && Guarded(p, cfg) && SameTrade(was, p)
    ensures SoundPosition(p, cfg)
    ensures OrderedTargets(cfg) ==> InOrder(p, cfg)
    ensures CoversCosts(was, cfg) ==> Safe(p, cfg)
  {
    hide SoundPosition, InOrder, Safe, OrderedTargets, CoversCosts;
    CoversSame(was, p, cfg);
  }

  /** A position that stays open passes what it banked on to the equity. */
  lemma StayKeepsSound(b: Book, q: Position, cfg: Config)
    requires Usable(cfg) && SoundBook(b, cfg) && b.pos.Some? && Guarded(q, cfg)
    ensures SoundBook(b.(equity := b.equity + (q.realized - b.pos.value.realized), pos := Some(q)), cfg)
  {
    hide Guarded, SoundRecord, SumPnl;
  }

  lemma FullyClosedIsDust(p: Position, bar: Bar, i: nat, signal: Option<Side>, cfg: Config)
    ensures LeaveInFull(p, bar, i, signal, cfg).qty > DUST ==> LeaveInFull(p, bar, i, signal, cfg) == p
  {
  }

  lemma TargetsKeepGuarded(p: Position, bar: Bar, cfg: Config)
    requires Usable(cfg) && Guarded(p, cfg)
    ensures var t := TakeTargets(p, 3, bar, cfg);
      && Guarded(t, cfg) && SameTrade(p, t)
      && Gain(p.side, p.stop, t.stop) >= 0.0
  {
    hide SoundPosition, InOrder, Safe, TakeTargets, OrderedTargets, CoversCosts;
    SoundIsShaped(p, cfg);
    TakeTargetsKeepSound(p, 3, bar, cfg);
    if OrderedTargets(cfg) {
      TakeTargetsInOrder(p, 3, bar, cfg);
    }
    if CoversCosts(p, cfg) {
      TakeTargetsKeepSafe(p, 3, bar, cfg);
    }
    CoversSame(p, TakeTargets(p, 3, bar, cfg), cfg);
  }

  /** While a position is open its stop moves only in its favour. */
  lemma StopOnlyRatchets(b: Book, bar: Bar, i: nat, signal: Option<Side>, cfg: Config)
    requires Usable(cfg) && SoundBook(b, cfg) && b.pos.Some? && WellShaped(b.pos.value)
    ensures var after := Manage(b, bar, i, signal, cfg);
      after.pos.Some? ==>
        && SameTrade(b.pos.value, after.pos.value)
        && Gain(b.pos.value.side, b.pos.value.stop, after.pos.value.stop) >= 0.0
  {
    TargetsKeepGuarded(b.pos.value, bar, cfg);
    FullyClosedIsDust(TakeTargets(b.pos.value, 3, bar, cfg), bar, i, signal, cfg);
    hide TakeTargets, LeaveInFull, Guarded, SoundRecord, SumPnl;
  }

  lemma HardStopKeepsSound(b: Book, bar: Bar, cfg: Config)
    requires Usable(cfg) && SoundBook(b, cfg)
    ensures SoundBook(HardStop(b, bar, cfg), cfg)
  {
    if b.pos.Some? {
      var p := b.pos.value;
      HardExitSound(p, bar, cfg);
      var triggered := b.(stopTriggered := true);
      assert SoundBook(triggered, cfg);
      hide SoundBook, SoundRecord, Finish, RecordOf, Close;
      FinishKeepsSound(triggered, p, Close(p, p.qty, bar.close, Exit, cfg), bar, bar.close, HardStopExit, cfg);
    }
  }

  lemma EnterKeepsSound(b: Book, bars: seq<Bar>, i: nat, signal: Option<Side>, cfg: Config)
    requires Usable(cfg) && Plausible(cfg) && SoundBook(b, cfg) && i < |bars| && bars[i].close > 0.0
    ensures SoundBook(Enter(b, bars, i, signal, cfg), cfg)
  {
    var after := Enter(b, bars, i, signal, cfg);
    if b.pos == None && after.pos.Some? {
      var bar, from := bars[i], if i >= LOOKBACK then i - LOOKBACK else 0;
      var structureStop := if signal == Some(Long) then LowestLow(bars, from, i + 1)
                           else HighestHigh(bars, from, i + 1);
      SizingRisksTheAmount(b.equity, cfg.riskPerTrade, bar.close, structureStop, bar.atr, cfg.atrBufferMult,
                           cfg.stopCapPct);
      var distance := StopDistance(bar.close, structureStop, bar.atr, cfg.atrBufferMult, cfg.stopCapPct);
      OpenedGuarded(signal.value, bar, i, distance, SizePosition(b.equity, cfg.riskPerTrade, distance), cfg);
      hide Guarded, SoundRecord, StopDistance, SizePosition, LowestLow, HighestHigh;
    }
  }

  /** Conservation, the loss bound and the order of targets, after every bar of every run. */
  lemma {:induction false} RunIsSound(bars: seq<Bar>, signals: seq<Option<Side>>, cfg: Config, n: nat)
    requires Usable(cfg) && Plausible(cfg) && SoundBars(bars) && n <= |bars| == |signals|
    ensures SoundBook(After(bars, signals, cfg, n), cfg)
    ensures |After(bars, signals, cfg, n).curve| == n
  {
    hide SoundBook, SoundBars, After, Usable, NewDay, HardStop, Manage, Enter;
    if n == 0 {
      StartIsSound(bars, signals, cfg);
    } else {
      RunIsSound(bars, signals, cfg, n - 1);
      BarKeepsSound(After(bars, signals, cfg, n - 1), bars, n - 1, signals[n - 1], cfg);
      AfterUnfolds(bars, signals, cfg, n);
    }
  }

  /**
   No loss after the first target: when its R multiple is the least and pays for
   the round trip, a trade that filled it on an earlier bar ends without a loss,
   unless the daily hard stop closed it. The fractions do not matter.
   */
  lemma NoLossAfterFirstTarget(bars: seq<Bar>, signals: seq<Option<Side>>, cfg: Config, n: nat, r: Record)
    requires Usable(cfg) && Plausible(cfg) && SoundBars(bars) && n <= |bars| == |signals|
    requires r in After(bars, signals, cfg, n).trades && r.kind != HardStopExit && r.tp1Before
    requires cfg.targetR[0] <= cfg.targetR[1] && cfg.targetR[0] <= cfg.targetR[2]
    requires RoundTripCost(r.position.entry, cfg) <= Multiple(cfg.targetR[0], r.position.distance)
    ensures r.pnl >= 0.0
  {
    RunIsSound(bars, signals, cfg, n);
    hide After, Guarded, Conserved, RoundTripCost, Multiple, LedgerNet, LedgerQty, WorstCase, ClosedInOrder,
         CoversCosts;
    assert SoundRecord(r, cfg);
    FirstTargetCovers(r.position, cfg);
  }

  lemma StartIsSound(bars: seq<Bar>, signals: seq<Option<Side>>, cfg: Config)
    requires Usable(cfg) && |bars| == |signals|
    ensures SoundBook(After(bars, signals, cfg, 0), cfg) && After(bars, signals, cfg, 0).curve == []
  {
  }

  lemma NewDayKeepsSound(b: Book, bar: Bar, cfg: Config)
    requires Usable(cfg) && SoundBook(b, cfg)
    ensures SoundBook(NewDay(b, bar), cfg)
  {
    hide Guarded, SoundRecord;
  }

  lemma CurveKeepsSound(b: Book, cfg: Config, curve: seq<real>)
    requires Usable(cfg) && SoundBook(b, cfg)
    ensures SoundBook(b.(curve := curve), cfg)
  {
    hide Guarded, SoundRecord;
  }

  /** One bar: the daily stop, the open position and a new entry keep the book sound. */
  lemma BarKeepsSound(b: Book, bars: seq<Bar>, i: nat, signal: Option<Side>, cfg: Config)
    requires Usable(cfg) && Plausible(cfg) && SoundBook(b, cfg) && i < |bars| && SoundBars(bars)
    ensures var morning := HardStop(NewDay(b, bars[i]), bars[i], cfg);
      && (morning.pos.Some? ==> WellShaped(morning.pos.value))
      && var after := Enter(Manage(morning, bars[i], i, signal, cfg), bars, i, signal, cfg);
         && after.curve == b.curve
         && SoundBook(after.(curve := after.curve + [after.equity]), cfg)
  {
    var bar := bars[i];
    assert 0.0 < bar.low <= bar.close <= bar.high;
    hide SoundBook, SoundBars, Usable, NewDay, HardStop, Manage, Enter;
    NewDayKeepsSound(b, bar, cfg);
    HardStopKeepsSound(NewDay(b, bar), bar, cfg);
    var morning := HardStop(NewDay(b, bar), bar, cfg);
    MorningShaped(morning, cfg);
    ManageKeepsSound(morning, bar, i, signal, cfg);
    EnterKeepsSound(Manage(morning, bar, i, signal, cfg), bars, i, signal, cfg);
    StepsKeepCurve(b, bars, i, signal, cfg);
    var after := Enter(Manage(morning, bar, i, signal, cfg), bars, i, signal, cfg);
    CurveKeepsSound(after, cfg, after.curve + [after.equity]);
  }

  lemma MorningShaped(b: Book, cfg: Config)
    requires Usable(cfg) && SoundBook(b, cfg)
    ensures b.pos.Some? ==> WellShaped(b.pos.value)
  {
  }

  lemma StepsKeepCurve(b: Book, bars: seq<Bar>, i: nat, signal: Option<Side>, cfg: Config)
    requires Usable(cfg) && i < |bars|
    ensures var morning := HardStop(NewDay(b, bars[i]), bars[i], cfg);
      (morning.pos.Some? ==> WellShaped(morning.pos.value)) ==>
        Enter(Manage(morning, bars[i], i, signal, cfg), bars, i, signal, cfg).curve == b.curve
  {
    hide TakeTargets, LeaveInFull, StopDistance, SizePosition, RecordOf, Close;
  }

  // ---- the loop ----

  /** The partial take-profits of one bar, in their order. */
  method TargetLoop(start: Position, bar: Bar, cfg: Config) returns (p: Position)
    requires WellShaped(start)
    ensures p == TakeTargets(start, 3, bar, cfg)
  {
    p := start;
    for j := 0 to 3
      invariant WellShaped(p) && p == TakeTargets(start, j, bar, cfg)
    {
      if p.left[j] <= 0.0 {
        continue;
      }
      var touched := if p.side == Long then bar.high >= p.targets[j] else bar.low <= p.targets[j];
      if touched {
        ghost var before := p;
        p := Close(p, FillQty(p, j), p.targets[j], Target(j), cfg);
        p := p.(left := p.left[j := 0.0], hits := p.hits + 1, tp1Filled := p.tp1Filled || j == 0);
        assert p == FillTarget(before, j, cfg);
        if j == 0 {
          p := Ratchet(p, Offset(p.side, p.entry, RoundTripCost(p.entry, cfg)));
        } else if j == 1 {
          p := Ratchet(p, Offset(p.side, bar.close, -(TRAIL * bar.atr)));
        }
        assert p == TakeTarget(before, j, bar, cfg);
      }
    }
  }

  lemma AfterUnfolds(bars: seq<Bar>, signals: seq<Option<Side>>, cfg: Config, n: nat)
    requires 1 <= n <= |bars| == |signals| && Usable(cfg)
    ensures var morning := HardStop(NewDay(After(bars, signals, cfg, n - 1), bars[n - 1]), bars[n - 1], cfg);
      && (morning.pos.Some? ==> WellShaped(morning.pos.value))
      && var b := Enter(Manage(morning, bars[n - 1], n - 1, signals[n - 1], cfg), bars, n - 1, signals[n - 1], cfg);
         After(bars, signals, cfg, n) == b.(curve := b.curve + [b.equity])
  {
  }

  /** A new day resets the daily stop; a drawdown beyond the limit triggers it and closes the position. */
  method WatchTheDay(start: Book, bar: Bar, cfg: Config) returns (b: Book)
    ensures b == HardStop(NewDay(start, bar), bar, cfg)
  {
    b := start;
    if b.day != Some(DayOf(bar.ts)) {
      b := b.(day := Some(DayOf(bar.ts)), dayStartEquity := b.equity, stopTriggered := false);
    }
    if !b.stopTriggered && b.equity <= b.dayStartEquity * (1.0 - cfg.dailyHardStopDd) {
      b := b.(stopTriggered := true);
      if b.pos.Some? {
        var was := b.pos.value;
        var p := Close(was, was.qty, bar.close, Exit, cfg);
        b := b.(equity := b.equity + (p.realized - was.realized),
                trades := b.trades + [RecordOf(p, bar, bar.close, HardStopExit, was.tp1Filled)],
                pos := None);
      }
    }
  }

  /** The stop, the targets and the full exit of an open position on one bar. */
  method ManageOpen(start: Book, bar: Bar, i: nat, signal: Option<Side>, cfg: Config) returns (b: Book)
    requires start.pos.Some? ==> WellShaped(start.pos.value)
    ensures b == Manage(start, bar, i, signal, cfg)
  {
    b := start;
    if b.pos.Some? {
      var was := b.pos.value;
      var stopped := if was.side == Long then bar.low <= was.stop else bar.high >= was.stop;
      if stopped {
        var p := Close(was, was.qty, was.stop, Exit, cfg);
        b := b.(equity := b.equity + (p.realized - was.realized),
                trades := b.trades + [RecordOf(p, bar, was.stop, StopExit, was.tp1Filled)],
                pos := None);
      } else {
        var p := TargetLoop(was, bar, cfg);
        var reverse, timeout := signal == Some(Opposite(p.side)), i - p.entryIdx >= cfg.maxBars;
        if p.qty > DUST && (reverse || timeout) {
          p := Close(p, p.qty, bar.close, Exit, cfg);
        }
        b := b.(equity := b.equity + (p.realized - was.realized));
        if p.qty <= DUST {
          b := b.(trades := b.trades + [RecordOf(p, bar, bar.close, FullExit, was.tp1Filled)], pos := None);
        } else {
          b := b.(pos := Some(p));
        }
      }
    }
  }

  /** The backtest: per bar the daily hard stop, the open position, then a new entry. */
  method RunBacktest(bars: seq<Bar>, signals: seq<Option<Side>>, cfg: Config)
    returns (trades: seq<Record>, curve: seq<real>)
    requires Usable(cfg) && |bars| == |signals|
    ensures trades == After(bars, signals, cfg, |bars|).trades
    ensures curve == After(bars, signals, cfg, |bars|).curve && |curve| == |bars|
    ensures Plausible(cfg) && SoundBars(bars) ==> forall r :: r in trades ==> SoundRecord(r, cfg)
  {
    hide After, SoundRecord, SoundBars, Plausible, NewDay, HardStop, Manage, Enter;
    var b := Book(cfg.initialEquity, cfg.initialEquity, false, None, None, [], []);
    InitialBook(bars, signals, cfg);
    for i := 0 to |bars|
      invariant b == After(bars, signals, cfg, i)
    {
      AfterUnfolds(bars, signals, cfg, i + 1);
      var bar, signal := bars[i], signals[i];
      b := WatchTheDay(b, bar, cfg);
      b := ManageOpen(b, bar, i, signal, cfg);
      b := TryEnter(b, bars, i, signal, cfg);
      b := b.(curve := b.curve + [b.equity]);
    }
    trades, curve := b.trades, b.curve;
    ResultsAreSound(bars, signals, cfg);
  }

  lemma ResultsAreSound(bars: seq<Bar>, signals: seq<Option<Side>>, cfg: Config)
    requires Usable(cfg) && |bars| == |signals|
    ensures |After(bars, signals, cfg, |bars|).curve| == |bars|
    ensures Plausible(cfg) && SoundBars(bars) ==> forall r :: r in After(bars, signals, cfg, |bars|).trades ==>
      SoundRecord(r, cfg)
  {
    hide After, SoundBook, SoundRecord, SoundBars, Plausible;
    if |bars| > 0 {
      CurveHoldsEquity(bars, signals, cfg, |bars|, 0);
    } else {
      InitialBook(bars, signals, cfg);
    }
    if Plausible(cfg) && SoundBars(bars) {
      RunIsSound(bars, signals, cfg, |bars|);
      SoundTrades(After(bars, signals, cfg, |bars|), cfg);
    }
  }

  /** The lowest low or the highest high of the bars behind an entry. */
  method StructureStop(lookback: seq<Bar>, s: real) returns (stop: real)
    requires lookback != []
    ensures s == 1.0 ==> (forall x :: x in lookback ==> stop <= x.low) && (exists x :: x in lookback && x.low == stop)
    ensures s != 1.0 ==> (forall x :: x in lookback ==> x.high <= stop) && (exists x :: x in lookback && x.high == stop)
  {
    stop := if s == 1.0 then lookback[0].low else lookback[0].high;
    for k := 1 to |lookback|
      invariant s == 1.0 ==> forall x :: x in lookback[..k] ==> stop <= x.low
      invariant s == 1.0 ==> exists x :: x in lookback[..k] && x.low == stop
      invariant s != 1.0 ==> forall x :: x in lookback[..k] ==> x.high <= stop
      invariant s != 1.0 ==> exists x :: x in lookback[..k] && x.high == stop
    {
      assert lookback[..k + 1] == lookback[..k] + [lookback[k]];
      if s == 1.0 {
        stop := if lookback[k].low < stop then lookback[k].low else stop;
      } else {
        stop := if lookback[k].high > stop then lookback[k].high else stop;
      }
    }
    assert lookback[..|lookback|] == lookback;
  }

  /** The extreme of the lookback is the one with a bar that reaches it and none beyond. */
  lemma {:induction false} ExtremesAreExact(bars: seq<Bar>, lo: nat, hi: nat)
    requires lo < hi <= |bars|
    ensures forall x :: x in bars[lo..hi] ==> LowestLow(bars, lo, hi) <= x.low && x.high <= HighestHigh(bars, lo, hi)
    ensures exists x :: x in bars[lo..hi] && x.low == LowestLow(bars, lo, hi)
    ensures exists x :: x in bars[lo..hi] && x.high == HighestHigh(bars, lo, hi)
  {
    if hi == lo + 1 {
      assert bars[lo..hi] == [bars[lo]];
    } else {
      ExtremesAreExact(bars, lo, hi - 1);
      assert bars[lo..hi] == bars[lo..hi - 1] + [bars[hi - 1]];
    }
  }

  /** A signal on a free book opens a position when its size is positive. */
  method TryEnter(start: Book, bars: seq<Bar>, i: nat, signal: Option<Side>, cfg: Config) returns (b: Book)
    requires i < |bars| && Usable(cfg)
    ensures b == Enter(start, bars, i, signal, cfg)
  {
    hide StopDistance, SizePosition, SignedTarget, Opened;
    b := start;
    if b.pos.Some? || b.stopTriggered || signal == None {
      return;
    }
    var s := if signal == Some(Long) then 1.0 else -1.0;
    var row, from := bars[i], if i >= LOOKBACK then i - LOOKBACK else 0;
    var structureStop := StructureStop(bars[from..i + 1], s);
    assert structureStop == if s == 1.0 then LowestLow(bars, from, i + 1) else HighestHigh(bars, from, i + 1) by {
      ExtremesAreExact(bars, from, i + 1);
    }
    var stopDist := StopDistance(row.close, structureStop, row.atr, cfg.atrBufferMult, cfg.stopCapPct);
    var sizing := SizePosition(b.equity, cfg.riskPerTrade, stopDist);
    if sizing.qty > 0.0 {
      var stopPrice := if s == 1.0 then row.close - stopDist else row.close + stopDist;
      var tpPrices := [SignedTarget(row.close, s, cfg.targetR[0], stopDist),
                       SignedTarget(row.close, s, cfg.targetR[1], stopDist),
                       SignedTarget(row.close, s, cfg.targetR[2], stopDist)];
      var pos := Position(signal.value, sizing.qty, sizing.qty, i, row.ts, row.close, sizing.risk, stopDist, stopPrice,
                          tpPrices, cfg.targetFraction, 0, 0.0, [], false);
      OpenedIs(signal.value, s, row, i, stopDist, sizing, cfg);
      b := b.(pos := Some(pos));
    }
  }

  /** A target at a signed multiple of the stop distance. */
  function SignedTarget(entry: real, s: real, r: real, distance: real): real {
    entry + s * r * distance
  }

  lemma OpenedIs(side: Side, s: real, bar: Bar, i: nat, distance: real, sizing: Sizing, cfg: Config)
    requires Usable(cfg) && s == if side == Long then 1.0 else -1.0
    ensures Opened(side, bar, i, distance, sizing, cfg)
         == Position(side, sizing.qty, sizing.qty, i, bar.ts, bar.close, sizing.risk, distance,
                     if s == 1.0 then bar.close - distance else bar.close + distance,
                     [SignedTarget(bar.close, s, cfg.targetR[0], distance),
                      SignedTarget(bar.close, s, cfg.targetR[1], distance),
                      SignedTarget(bar.close, s, cfg.targetR[2], distance)],
                     cfg.targetFraction, 0, 0.0, [], false)
  {
    var p := Opened(side, bar, i, distance, sizing, cfg);
    assert p.targets[0] == SignedTarget(bar.close, s, cfg.targetR[0], distance);
    assert p.targets[1] == SignedTarget(bar.close, s, cfg.targetR[1], distance);
    assert p.targets[2] == SignedTarget(bar.close, s, cfg.targetR[2], distance);
  }

  /** The curve holds the equity after every bar. */
  lemma {:induction false} CurveHoldsEquity(bars: seq<Bar>, signals: seq<Option<Side>>, cfg: Config, n: nat, i: nat)
    requires Usable(cfg) && i < n <= |bars| == |signals|
    ensures |After(bars, signals, cfg, n).curve| == n
    ensures After(bars, signals, cfg, n).curve[i] == After(bars, signals, cfg, i + 1).equity
  {
    hide After, Usable, NewDay, HardStop, Manage, Enter;
    CurveGrows(bars, signals, cfg, n);
    if i < n - 1 {
      CurveHoldsEquity(bars, signals, cfg, n - 1, i);
    } else if n > 1 {
      CurveHoldsEquity(bars, signals, cfg, n - 1, 0);
    } else {
      InitialBook(bars, signals, cfg);
    }
  }

  lemma CurveGrows(bars: seq<Bar>, signals: seq<Option<Side>>, cfg: Config, n: nat)
    requires Usable(cfg) && 0 < n <= |bars| == |signals|
    ensures After(bars, signals, cfg, n).curve
         == After(bars, signals, cfg, n - 1).curve + [After(bars, signals, cfg, n).equity]
  {
    hide After, Usable, NewDay, HardStop, Manage, Enter, WellShaped;
    AfterUnfolds(bars, signals, cfg, n);
    StepsKeepCurve(After(bars, signals, cfg, n - 1), bars, n - 1, signals[n - 1], cfg);
  }

  lemma SumPnlAppend(trades: seq<Record>, r: Record)
    ensures SumPnl(trades + [r]) == SumPnl(trades) + r.pnl
  {
    assert (trades + [r])[..|trades|] == trades;
  }

  lemma FinishConserves(b: Book, was: Position, p: Position, bar: Bar, exit: real, kind: ExitKind, cfg: Config)
    requires Conserved(b, cfg) && b.pos == Some(was)
    ensures Conserved(Finish(b, was, p, bar, exit, kind), cfg)
  {
    hide SumPnl, Max;
    SumPnlAppend(b.trades, RecordOf(p, bar, exit, kind, was.tp1Filled));
  }

  /**
   The day change, the hard stop, the management and the entry of one bar move money only between
   equity, records and the open position.
   */
  lemma BarConserves(b: Book, bars: seq<Bar>, i: nat, signal: Option<Side>, cfg: Config)
    requires Usable(cfg) && i < |bars| && Conserved(b, cfg)
    ensures var morning := HardStop(NewDay(b, bars[i]), bars[i], cfg);
      && Conserved(morning, cfg)
      && ((morning.pos.Some? ==> WellShaped(morning.pos.value)) ==>
            Conserved(Enter(Manage(morning, bars[i], i, signal, cfg), bars, i, signal, cfg), cfg))
  {
    hide SumPnl, Finish, Close, TakeTargets, LeaveInFull, StopTouched, StopDistance, SizePosition, LowestLow,
         HighestHigh;
    var bar := bars[i];
    var dawn := NewDay(b, bar).(stopTriggered := true);
    if dawn.pos.Some? {
      var p := dawn.pos.value;
      FinishConserves(dawn, p, Close(p, p.qty, bar.close, Exit, cfg), bar, bar.close, HardStopExit, cfg);
    }
    var morning := HardStop(NewDay(b, bar), bar, cfg);
    if morning.pos.Some? && WellShaped(morning.pos.value) {
      var p := morning.pos.value;
      FinishConserves(morning, p, Close(p, p.qty, p.stop, Exit, cfg), bar, p.stop, StopExit, cfg);
      FinishConserves(morning, p, LeaveInFull(TakeTargets(p, 3, bar, cfg), bar, i, signal, cfg), bar, bar.close,
                      FullExit, cfg);
    }
  }

  /** Conservation holds after every bar, whatever the bars and the configuration are. */
  lemma {:induction false} RunConserves(bars: seq<Bar>, signals: seq<Option<Side>>, cfg: Config, n: nat)
    requires Usable(cfg) && n <= |bars| == |signals|
    ensures Conserved(After(bars, signals, cfg, n), cfg)
  {
    hide After, NewDay, HardStop, Manage, Enter, Conserved, WellShaped, Usable;
    if n == 0 {
      StartConserves(bars, signals, cfg);
    } else {
      RunConserves(bars, signals, cfg, n - 1);
      AfterUnfolds(bars, signals, cfg, n);
      BarConserves(After(bars, signals, cfg, n - 1), bars, n - 1, signals[n - 1], cfg);
      var morning := HardStop(NewDay(After(bars, signals, cfg, n - 1), bars[n - 1]), bars[n - 1], cfg);
      var b := Enter(Manage(morning, bars[n - 1], n - 1, signals[n - 1], cfg), bars, n - 1, signals[n - 1], cfg);
      CurveConserves(b, b.curve + [b.equity], cfg);
    }
  }

  lemma StartConserves(bars: seq<Bar>, signals: seq<Option<Side>>, cfg: Config)
    requires Usable(cfg) && |bars| == |signals|
    ensures Conserved(After(bars, signals, cfg, 0), cfg)
  {
  }

  lemma CurveConserves(b: Book, curve: seq<real>, cfg: Config)
    requires Conserved(b, cfg)
    ensures Conserved(b.(curve := curve), cfg)
  {
    hide SumPnl;
  }

  /** After every bar the equity on the curve is accounted for to the last coin. */
  lemma CurveIsConserved(bars: seq<Bar>, signals: seq<Option<Side>>, cfg: Config, i: nat)
    requires Usable(cfg) && i < |bars| == |signals|
    ensures |After(bars, signals, cfg, |bars|).curve| == |bars|
    ensures var b := After(bars, signals, cfg, i + 1);
      After(bars, signals, cfg, |bars|).curve[i] == cfg.initialEquity + SumPnl(b.trades) + OpenPnl(b)
  {
    hide After, Usable, SumPnl, OpenPnl;
    CurveHoldsEquity(bars, signals, cfg, |bars|, i);
    RunConserves(bars, signals, cfg, i + 1);
  }

  lemma InitialBook(bars: seq<Bar>, signals: seq<Option<Side>>, cfg: Config)
    requires |bars| == |signals| && Usable(cfg)
    ensures After(bars, signals, cfg, 0) == Book(cfg.initialEquity, cfg.initialEquity, false, None, None, [], [])
  {
  }

  lemma SoundTrades(b: Book, cfg: Config)
    requires Usable(cfg) && SoundBook(b, cfg)
    ensures forall r :: r in b.trades ==> SoundRecord(r, cfg)
  {
  }
}
