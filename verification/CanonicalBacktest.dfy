/** The canonical backtest: one simulated position at a time, driven by the candle-close timeline. */
module CanonicalBacktest {
  import opened Prelude
  import opened Candles
  import opened Timeline

  // ---- rounding ----

  const CENTS := 100.0
  const LOTS := 1_000_000.0
  const TICKS := 100_000_000.0

  /** Rounds half up to a multiple of `1 / scale`. */
  function RoundTo(v: real, scale: real): real
    requires scale > 0.0
  {
    (v * scale + 0.5).Floor as real / scale
  }

  function RoundPnl(v: real): real { RoundTo(v, CENTS) }

  function RoundLots(v: real): real { RoundTo(v, LOTS) }

  lemma RoundPnlIsClose(v: real)
    ensures -0.005 <= RoundPnl(v) - v <= 0.005
  {
    var n := (v * CENTS + 0.5).Floor as real;
    assert n <= v * CENTS + 0.5 < n + 1.0;
  }

  lemma RoundLotsNonNegative(v: real)
    requires v >= 0.0
    ensures RoundLots(v) >= 0.0
  {
    assert (v * LOTS + 0.5).Floor >= 0;
  }

  // ---- rules and evaluators ----

  datatype Coin = Coin(enabled: bool, pct: real)

  datatype Rules = Rules(
    slPct: real,
    tpLevels: seq<real>,
    tpPct: real,
    maxLeverage: real,
    riskPerTradePct: real,
    portfolioGrossCap: real,
    coin: Option<Coin>,
    exitClosePct: real,
    timeStopBars: nat,
    entryFrames: seq<Frame>,
    exitFrames: seq<Frame>,
    regimeFrame: Frame,
    bias: Option<Side>,
    gated: bool)

  datatype FvgSignal = FvgSignal(side: Side, completion: Option<int>)

  datatype QualityQuery = QualityQuery(
    side: Side,
    regime: seq<Candle>,
    entryCandles: seq<Candle>,
    triple: Option<Triple>,
    entry: real,
    stop: real,
    targets: seq<real>)

  /** The signal evaluators: pure functions of the candles that they are shown. */
  datatype Evaluators = Evaluators(
    engulfing: (seq<Candle>, Frame) -> Option<Side>,
    fvg: (Frame, real, int, Known) -> Option<FvgSignal>,
    quality: QualityQuery -> bool)

  // ---- sizing and levels ----

  function Leverage(rules: Rules): real {
    if rules.maxLeverage == 0.0 then 1.0 else rules.maxLeverage
  }

  function Allocation(rules: Rules): real {
    match rules.coin case None => 100.0 case Some(c) => c.pct
  }

  predicate RiskCapped(rules: Rules) {
    rules.riskPerTradePct > 0.0 && rules.slPct > 0.0
  }

  function Share(pct: real): real { pct / 100.0 }

  function PercentOf(amount: real, pct: real): real { amount * Share(pct) }

  /** The notional that the coin's allocation buys with leverage. */
  function PlannedNotional(deposit: real, rules: Rules): real {
    PercentOf(deposit, Allocation(rules)) * Leverage(rules)
  }

  /** The notional whose stop-out costs the risk share of the deposit. */
  function RiskNotional(deposit: real, rules: Rules): real
    requires RiskCapped(rules)
  {
    PercentOf(deposit, rules.riskPerTradePct) / Share(rules.slPct)
  }

  function Notional(deposit: real, rules: Rules): real {
    if RiskCapped(rules) then Min(PlannedNotional(deposit, rules), RiskNotional(deposit, rules))
    else PlannedNotional(deposit, rules)
  }

  function FloorLots(v: real): real {
    (v * LOTS).Floor as real / LOTS
  }

  function ComputeSize(price: real, deposit: real, rules: Rules): real {
    if price <= 0.0 || deposit <= 0.0 then 0.0
    else if rules.coin.Some? && !rules.coin.value.enabled then 0.0
    else if Allocation(rules) <= 0.0 || Leverage(rules) <= 0.0 then 0.0
    else
      var notional := Notional(deposit, rules);
      if notional <= 0.0 || notional / Leverage(rules) > deposit then 0.0
      else if rules.portfolioGrossCap > 0.0 && notional > PercentOf(deposit, rules.portfolioGrossCap) then 0.0
      else FloorLots(notional / price)
  }

  lemma FloorLotsBelow(v: real)
    requires v >= 0.0
    ensures 0.0 <= FloorLots(v) <= v
  {
    assert (v * LOTS).Floor as real <= v * LOTS;
    assert (v * LOTS).Floor >= 0;
  }

  lemma QuotientTimes(n: real, d: real, q: real)
    requires d > 0.0 && q <= n / d
    ensures q * d <= n
  {
    var x := n / d;
    assert x * d == n;
    assert (x - q) * d >= 0.0;
    assert (x - q) * d == x * d - q * d;
  }

  lemma TimesQuotient(n: real, d: real, m: real)
    requires d > 0.0 && n / d <= m
    ensures n <= m * d
  {
    var x := n / d;
    assert x * d == n;
    assert (m - x) * d >= 0.0;
    assert (m - x) * d == m * d - x * d;
  }

  /** What a size is worth at a price. */
  function Value(size: real, price: real): real { size * price }

  lemma SizeValue(price: real, notional: real)
    requires price > 0.0 && notional > 0.0
    ensures 0.0 <= FloorLots(notional / price) && Value(FloorLots(notional / price), price) <= notional
  {
    assert notional / price >= 0.0;
    FloorLotsBelow(notional / price);
    QuotientTimes(notional, price, FloorLots(notional / price));
  }

  /**
   A size is never negative, its value stays within the leveraged deposit, the
   allocated notional and the gross cap, and a stop-out at the configured
   distance costs at most the configured share of the deposit.
   */
  lemma SizeRespectsCaps(price: real, deposit: real, rules: Rules)
    ensures var size := ComputeSize(price, deposit, rules);
      && size >= 0.0
      && (size > 0.0 ==>
            && Value(size, price) <= deposit * Leverage(rules)
            && Value(size, price) <= PlannedNotional(deposit, rules)
            && (rules.portfolioGrossCap > 0.0 ==> Value(size, price) <= PercentOf(deposit, rules.portfolioGrossCap))
            && (RiskCapped(rules) ==>
                  PercentOf(Value(size, price), rules.slPct) <= PercentOf(deposit, rules.riskPerTradePct)))
  {
    hide FloorLots, PlannedNotional, RiskNotional, PercentOf, Value, Leverage, Allocation;
    var size, notional := ComputeSize(price, deposit, rules), Notional(deposit, rules);
    if size != 0.0 {
      SizeValue(price, notional);
      TimesQuotient(notional, Leverage(rules), deposit);
      if RiskCapped(rules) {
        StopOutCost(Value(size, price), deposit, rules);
      }
    }
  }

  lemma StopOutCost(value: real, deposit: real, rules: Rules)
    requires RiskCapped(rules) && value <= RiskNotional(deposit, rules)
    ensures PercentOf(value, rules.slPct) <= PercentOf(deposit, rules.riskPerTradePct)
  {
    QuotientTimes(PercentOf(deposit, rules.riskPerTradePct), Share(rules.slPct), value);
  }

  function SlShare(rules: Rules): real {
    (if rules.slPct == 0.0 then 2.0 else rules.slPct) / 100.0
  }

  function Levels(rules: Rules): seq<real> {
    if rules.tpLevels != [] then rules.tpLevels else if rules.tpPct != 0.0 then [rules.tpPct] else [6.0]
  }

  function StopFor(entry: real, side: Side, rules: Rules): real {
    RoundTo(entry * (if side == Long then 1.0 - SlShare(rules) else 1.0 + SlShare(rules)), TICKS)
  }

  function TargetFor(entry: real, side: Side, pct: real): real {
    RoundTo(entry * (if side == Long then 1.0 + pct / 100.0 else 1.0 - pct / 100.0), TICKS)
  }

  function TargetsFor(entry: real, side: Side, rules: Rules): seq<real> {
    seq(|Levels(rules)|, i requires 0 <= i < |Levels(rules)| => TargetFor(entry, side, Levels(rules)[i]))
  }

  // ---- the state of a run ----

  datatype Action = Opening | Partial | Closing

  datatype Reason =
    | EngulfingEntry(tf: Frame) | FvgEntry(tf: Frame)
    | SlHit | Tp1Partial | Tp2Partial | Tp3Full | TpAllDone | TimeStop | EmergencyExit(tf: Frame) | BacktestEnd

  datatype Position = Position(
    side: Side,
    entry: real,
    size: real,
    remaining: real,
    stop: real,
    targets: seq<real>,
    tp1Done: bool,
    tp2Done: bool,
    tp3Done: bool,
    openedAt: int,
    frame: Frame,
    isOpen: bool,
    closedAt: Option<int>,
    closeReason: Option<Reason>,
    realized: real)

  /** A trade record; a position is named by its place in the list of positions. */
  datatype Record = Record(position: nat, side: Side, action: Action, price: real, size: real, pnl: real,
                           reason: Reason, ts: int)

  datatype Counts = Counts(sl: nat, tp1: nat, tp2: nat, tp3: nat, emergency: nat)

  datatype EntryKey = EngulfingKey(tf: Frame, side: Side) | FvgKey(tf: Frame, side: Side)

  datatype ExitKey = ExitKey(tf: Frame, side: Side)

  datatype Sim = Sim(
    positions: seq<Position>,
    trades: seq<Record>,
    curve: seq<real>,
    equity: real,
    entryFired: map<EntryKey, int>,
    exitFired: map<ExitKey, int>,
    counts: Counts,
    rejected: nat)

  function Start(deposit: real): Sim {
    Sim([], [], [], deposit, map[], map[], Counts(0, 0, 0, 0, 0), 0)
  }

  function FindOpen(positions: seq<Position>, i: nat): (r: Option<nat>)
    requires i <= |positions|
    ensures r.Some? ==> r.value < |positions| && positions[r.value].isOpen
    decreases |positions| - i
  {
    if i == |positions| then None else if positions[i].isOpen then Some(i) else FindOpen(positions, i + 1)
  }

  function Profit(side: Side, entry: real, price: real, qty: real): real {
    (if side == Long then price - entry else entry - price) * qty
  }

  function Bump(c: Counts, reason: Reason): Counts {
    match reason
    case SlHit => c.(sl := c.sl + 1)
    case Tp1Partial => c.(tp1 := c.tp1 + 1)
    case Tp2Partial => c.(tp2 := c.tp2 + 1)
    case Tp3Full => c.(tp3 := c.tp3 + 1)
    case EmergencyExit(_) => c.(emergency := c.emergency + 1)
    case _ => c
  }

  function Update(s: Sim, k: nat, p: Position): Sim
    requires k < |s.positions|
  {
    s.(positions := s.positions[k := p])
  }

  function Deduct(p: Position, price: real, qty: real): Position {
    p.(realized := p.realized + Profit(p.side, p.entry, price, qty), remaining := Max(0.0, p.remaining - qty))
  }

  /** Closes a quantity: the exact profit goes to the position, the rounded one to the record and the equity. */
  function Sell(s: Sim, k: nat, price: real, qty: real, size: real, action: Action, reason: Reason, ts: int): (r: Sim)
    requires k < |s.positions|
    ensures |r.positions| == |s.positions|
  {
    var p := s.positions[k];
    var pnl := RoundPnl(Profit(p.side, p.entry, price, qty));
    Update(s, k, Deduct(p, price, qty)).(
      trades := s.trades + [Record(k, p.side, action, price, size, pnl, reason, ts)],
      equity := s.equity + pnl,
      counts := Bump(s.counts, reason))
  }

  function Shut(s: Sim, k: nat, ts: int, reason: Option<Reason>): (r: Sim)
    requires k < |s.positions|
    ensures |r.positions| == |s.positions|
  {
    Update(s, k, s.positions[k].(isOpen := false, closedAt := Some(ts),
                                 closeReason := if reason.Some? then reason else s.positions[k].closeReason))
  }

  function Push(s: Sim): Sim {
    s.(curve := s.curve + [s.equity])
  }

  /** Sells all that remains and closes the position. */
  function SellAll(s: Sim, k: nat, price: real, size: real, reason: Reason, ts: int): (r: Sim)
    requires k < |s.positions|
    ensures |r.positions| == |s.positions|
  {
    Shut(Sell(s, k, price, s.positions[k].remaining, size, Closing, reason, ts), k, ts, Some(reason))
  }

  // ---- one event with an open position ----

  predicate StopReached(p: Position, price: real) {
    if p.side == Long then price <= p.stop else price >= p.stop
  }

  predicate TargetReached(p: Position, j: nat, price: real) {
    j < |p.targets| && if p.side == Long then price >= p.targets[j] else price <= p.targets[j]
  }

  /** The share of the size for the first and the second target. */
  function Split(count: nat, j: nat): (share: real)
    ensures share >= 0.0
  {
    if count >= 3 then (if j == 0 then 0.34 else 0.33) else if count == 2 then 0.5 else if j == 0 then 1.0 else 0.0
  }

  /** The rounded share of target `j`. */
  function TargetQty(p: Position, j: nat): real {
    RoundLots(p.size * Split(|p.targets|, j))
  }

  function TakeFirst(s: Sim, k: nat, price: real, ts: int): (r: Sim)
    requires k < |s.positions|
    ensures |r.positions| == |s.positions|
  {
    var p := s.positions[k];
    if p.tp1Done || !TargetReached(p, 0, price) then s
    else
      var qty := TargetQty(p, 0);
      var sold := Sell(s, k, price, qty, qty, Partial, Tp1Partial, ts);
      Update(sold, k, sold.positions[k].(tp1Done := true, stop := RoundTo(p.entry, TICKS)))
  }

  function TakeSecond(s: Sim, k: nat, price: real, ts: int): (r: Sim)
    requires k < |s.positions|
    ensures |r.positions| == |s.positions|
  {
    var p := s.positions[k];
    if p.tp2Done || !TargetReached(p, 1, price) then s
    else
      var qty := Min(TargetQty(p, 1), p.remaining);
      var sold := Sell(s, k, price, qty, qty, Partial, Tp2Partial, ts);
      Update(sold, k, sold.positions[k].(tp2Done := true))
  }

  predicate AllDone(p: Position) {
    p.remaining <= 0.0 || (|p.targets| <= 2 && p.tp2Done) || (|p.targets| <= 1 && p.tp1Done)
  }

  predicate TimedOut(p: Position, ts: int, rules: Rules) {
    rules.timeStopBars > 0 && !p.tp1Done && (ts - p.openedAt) / FrameMs(p.frame) >= rules.timeStopBars
       && p.remaining > 0.0
  }

  function LastOf<K>(fired: map<K, int>, key: K, default: int): int {
    if key in fired then fired[key] else default
  }

  predicate Empties(p: Position, qty: real) { Max(0.0, p.remaining - qty) <= 0.0 }

  /** An emergency exit, after which the stop is at the entry or the position is closed. */
  function SellEmergency(s: Sim, k: nat, price: real, qty: real, ts: int, tf: Frame, rules: Rules): (r: Sim)
    requires k < |s.positions|
    ensures |r.positions| == |s.positions|
  {
    var p := s.positions[k];
    if Empties(p, qty) then
      Shut(Sell(s, k, price, qty, qty, Closing, EmergencyExit(tf), ts), k, ts, Some(EmergencyExit(tf)))
    else
      var sold := Sell(s, k, price, qty, qty, Partial, EmergencyExit(tf), ts);
      if rules.exitClosePct < 100.0 then Update(sold, k, sold.positions[k].(stop := RoundTo(p.entry, TICKS))) else sold
  }

  function EmergencyQty(p: Position, rules: Rules): real {
    RoundLots(p.remaining * (rules.exitClosePct / 100.0))
  }

  function Emergency(s: Sim, k: nat, ts: int, tf: Frame, w: Sight, rules: Rules, evals: Evaluators): (r: Sim)
    requires k < |s.positions| && w.own != []
    ensures |r.positions| == |s.positions|
  {
    var bar := w.own[|w.own| - 1];
    if rules.exitClosePct <= 0.0 || tf !in (if rules.exitFrames == [] then [Hour1] else rules.exitFrames) then s
    else
      var signal := evals.engulfing(w.own, tf);
      if signal != Some(Opposite(s.positions[k].side)) then s
      else
        var key := ExitKey(tf, signal.value);
        if bar.ts <= LastOf(s.exitFired, key, -1) then s
        else
          var fired, qty := s.(exitFired := s.exitFired[key := bar.ts]), EmergencyQty(s.positions[k], rules);
          if qty <= 0.0 then fired else SellEmergency(fired, k, bar.close, qty, ts, tf, rules)
  }

  function TakeThird(s: Sim, k: nat, price: real, ts: int): (r: Sim)
    requires k < |s.positions|
    ensures |r.positions| == |s.positions|
  {
    var closed := SellAll(s, k, price, s.positions[k].remaining, Tp3Full, ts);
    Update(closed, k, closed.positions[k].(tp3Done := true))
  }

  function CloseDone(s: Sim, k: nat, price: real, ts: int): (r: Sim)
    requires k < |s.positions|
    ensures |r.positions| == |s.positions|
  {
    if s.positions[k].remaining > 0.0 then SellAll(s, k, price, 0.0, TpAllDone, ts) else Shut(s, k, ts, Some(TpAllDone))
  }

  /** What follows the first two targets: the third target, the end of the targets, the time stop, an emergency exit. */
  function Settle(t: Sim, k: nat, ts: int, tf: Frame, w: Sight, rules: Rules, evals: Evaluators): (r: Sim)
    requires k < |t.positions| && w.own != []
    ensures |r.positions| == |t.positions|
  {
    var q, price := t.positions[k], w.own[|w.own| - 1].close;
    if !q.tp3Done && TargetReached(q, 2, price) then TakeThird(t, k, price, ts)
    else if AllDone(q) then CloseDone(t, k, price, ts)
    else if TimedOut(q, ts, rules) then SellAll(t, k, price, q.remaining, TimeStop, ts)
    else Emergency(t, k, ts, tf, w, rules, evals)
  }

  function Tick(s: Sim, k: nat, ts: int, tf: Frame, w: Sight, rules: Rules, evals: Evaluators): (r: Sim)
    requires k < |s.positions| && w.own != []
    ensures |r.positions| == |s.positions|
  {
    var p, price := s.positions[k], w.own[|w.own| - 1].close;
    if p.remaining <= 0.0 then Shut(s, k, ts, None)
    else if StopReached(p, price) then Push(SellAll(s, k, price, p.remaining, SlHit, ts))
    else Push(Settle(TakeSecond(TakeFirst(s, k, price, ts), k, price, ts), k, ts, tf, w, rules, evals))
  }

  // ---- one event without an open position ----

  function Reject(s: Sim): Sim {
    s.(rejected := s.rejected + 1)
  }

  predicate SideAllowed(side: Side, rules: Rules) {
    rules.bias == None || rules.bias == Some(side)
  }

  /** Opens a position when the equity, the size and the quality gate allow it. */
  function Enter(s: Sim, side: Side, tf: Frame, reason: Reason, price: real, ts: int,
                 entryCandles: seq<Candle>, triple: Option<Triple>, w: Sight, rules: Rules, evals: Evaluators): Sim
  {
    var size := ComputeSize(price, s.equity, rules);
    var stop, targets := StopFor(price, side, rules), TargetsFor(price, side, rules);
    if s.equity <= 0.0 || size <= 0.0
       || (rules.gated
           && !evals.quality(QualityQuery(side, Of(w.known, rules.regimeFrame), entryCandles, triple, price, stop,
                                          targets)))
    then Reject(s)
    else
      s.(positions := s.positions + [Position(side, price, size, size, stop, targets, false, false, false, ts, tf, true,
                                              None, None, 0.0)],
         trades := s.trades + [Record(|s.positions|, side, Opening, price, size, 0.0, reason, ts)])
  }

  datatype Looked = Looked(s: Sim, settled: bool)

  function LookForEngulfing(s: Sim, ts: int, tf: Frame, w: Sight, rules: Rules, evals: Evaluators): Looked
    requires w.own != []
  {
    var signal := evals.engulfing(w.own, tf);
    if tf !in (if rules.entryFrames == [] then [Min15] else rules.entryFrames) || signal == None then Looked(s, false)
    else if !SideAllowed(signal.value, rules) then Looked(Reject(s), true)
    else
      var key := EngulfingKey(tf, signal.value);
      if ts - LastOf(s.entryFired, key, 0) < FrameMs(tf) then Looked(s, false)
      else
        Looked(Enter(s.(entryFired := s.entryFired[key := ts]), signal.value, tf, EngulfingEntry(tf),
                     w.own[|w.own| - 1].close, ts, w.own, None, w, rules, evals), true)
  }

  function TripleOf(candles: seq<Candle>, completion: Option<int>): Option<Triple> {
    if completion.Some? && 2 <= completion.value < |candles|
    then Some(Triple(candles[completion.value - 2], candles[completion.value - 1], candles[completion.value]))
    else None
  }

  /** One timeframe of the gap search; settled when it opened a position. */
  function LookForFvg(s: Sim, fvgTf: Frame, ts: int, w: Sight, rules: Rules, evals: Evaluators): Looked
    requires w.own != []
  {
    var candles, price := Of(w.known, fvgTf), w.own[|w.own| - 1].close;
    var signal := evals.fvg(fvgTf, price, ts, w.known);
    if |candles| < 3 || signal == None then Looked(s, false)
    else
      var side, key := signal.value.side, FvgKey(fvgTf, signal.value.side);
      if !SideAllowed(side, rules) then Looked(Reject(s), false)
      else if ts - LastOf(s.entryFired, key, 0) < FrameMs(fvgTf) then Looked(s, false)
      else
        var after := Enter(s.(entryFired := s.entryFired[key := ts]), side, fvgTf, FvgEntry(fvgTf), price, ts,
                           candles, TripleOf(candles, signal.value.completion), w, rules, evals);
        Looked(after, |after.positions| > |s.positions|)
  }

  function LookForFvgs(s: Sim, frames: seq<Frame>, ts: int, w: Sight, rules: Rules, evals: Evaluators): Sim
    requires w.own != []
    decreases |frames|
  {
    if frames == [] then s
    else
      var looked := LookForFvg(s, frames[0], ts, w, rules, evals);
      if looked.settled then looked.s else LookForFvgs(looked.s, frames[1..], ts, w, rules, evals)
  }

  const FVG_FRAMES := [Hour1, Hour4]

  function Look(s: Sim, ts: int, tf: Frame, w: Sight, rules: Rules, evals: Evaluators): Sim
    requires w.own != []
  {
    var engulfing := LookForEngulfing(s, ts, tf, w, rules, evals);
    Push(if engulfing.settled then engulfing.s else LookForFvgs(engulfing.s, FVG_FRAMES, ts, w, rules, evals))
  }

  // ---- the run ----

  function Step(s: Sim, ts: int, tf: Frame, w: Sight, rules: Rules, evals: Evaluators): Sim {
    if |w.own| < 3 then s
    else
      match FindOpen(s.positions, 0)
      case Some(k) => Tick(s, k, ts, tf, w, rules, evals)
      case None => Look(s, ts, tf, w, rules, evals)
  }

  ghost predicate AllEventsOf(sets: seq<CandleSet>, events: seq<Event>) {
    forall i :: 0 <= i < |events| ==> events[i].index < |CandlesOf(sets, events[i].tf)|
  }

  /** The state after the first `n` events. */
  ghost function After(sets: seq<CandleSet>, events: seq<Event>, deposit: real, rules: Rules, evals: Evaluators,
                       n: nat): Sim
    requires n <= |events| && AllEventsOf(sets, events)
  {
    if n == 0 then Start(deposit)
    else
      var e := events[n - 1];
      Step(After(sets, events, deposit, rules, evals, n - 1), e.ts, e.tf, SightAt(sets, e), rules, evals)
  }

  /** Force-closes a position that is still open, at the last close of the timeline. */
  function Finish(s: Sim, events: seq<Event>, end: int): Sim {
    match FindOpen(s.positions, 0)
    case None => s
    case Some(k) =>
      var p := s.positions[k];
      if p.remaining <= 0.0 then s
      else Push(SellAll(s, k, if events != [] then events[|events| - 1].price else p.entry, 0.0, BacktestEnd, end))
  }

  // ---- the ledger ----

  function SumPnl(trades: seq<Record>): real {
    if trades == [] then 0.0 else SumPnl(trades[..|trades| - 1]) + trades[|trades| - 1].pnl
  }

  function SumRealized(positions: seq<Position>): real {
    if positions == [] then 0.0 else SumRealized(positions[..|positions| - 1]) + positions[|positions| - 1].realized
  }

  /** The number of records with which quantity was closed. */
  function Closings(trades: seq<Record>): nat {
    if trades == [] then 0
    else Closings(trades[..|trades| - 1]) + if trades[|trades| - 1].action == Opening then 0 else 1
  }

  /** How often each kind of exit occurs in the records. */
  function TallyOf(trades: seq<Record>): Counts {
    if trades == [] then Counts(0, 0, 0, 0, 0) else Bump(TallyOf(trades[..|trades| - 1]), trades[|trades| - 1].reason)
  }

  function HalfCents(n: nat): real { 0.005 * n as real }

  /**
   Equity is the deposit plus the recorded profits, it strays from the exact
   profits by at most half a cent per closing record, the exit counters agree
   with the records, and each position has one opening record.
   */
  ghost predicate Ledger(s: Sim, deposit: real) {
    && s.equity == deposit + SumPnl(s.trades)
    && -HalfCents(Closings(s.trades))
       <= s.equity - (deposit + SumRealized(s.positions))
       <= HalfCents(Closings(s.trades))
    && s.counts == TallyOf(s.trades)
    && |s.trades| == |s.positions| + Closings(s.trades)
  }

  lemma SumsAppend(trades: seq<Record>, r: Record)
    ensures SumPnl(trades + [r]) == SumPnl(trades) + r.pnl
    ensures Closings(trades + [r]) == Closings(trades) + if r.action == Opening then 0 else 1
    ensures TallyOf(trades + [r]) == Bump(TallyOf(trades), r.reason)
  {
    assert (trades + [r])[..|trades|] == trades;
  }

  lemma {:induction false} SumRealizedUpdate(positions: seq<Position>, k: nat, p: Position)
    requires k < |positions|
    ensures SumRealized(positions[k := p]) == SumRealized(positions) - positions[k].realized + p.realized
  {
    var n := |positions| - 1;
    if k == n {
      assert positions[k := p][..n] == positions[..n];
    } else {
      SumRealizedUpdate(positions[..n], k, p);
      assert positions[k := p][..n] == positions[..n][k := p];
    }
  }

  lemma SellKeepsLedger(s: Sim, k: nat, price: real, qty: real, size: real, action: Action, reason: Reason, ts: int,
                        deposit: real)
    requires k < |s.positions| && Ledger(s, deposit) && action != Opening
    ensures Ledger(Sell(s, k, price, qty, size, action, reason, ts), deposit)
  {
    hide SumPnl, SumRealized, Closings, TallyOf, Bump, Profit, RoundPnl;
    var p := s.positions[k];
    RoundPnlIsClose(Profit(p.side, p.entry, price, qty));
    SumRealizedUpdate(s.positions, k, Deduct(p, price, qty));
    SumsAppend(s.trades,
               Record(k, p.side, action, price, size, RoundPnl(Profit(p.side, p.entry, price, qty)), reason, ts));
  }

  lemma MarkKeepsLedger(s: Sim, k: nat, p: Position, deposit: real)
    requires k < |s.positions| && Ledger(s, deposit) && p.realized == s.positions[k].realized
    ensures Ledger(Update(s, k, p), deposit)
  {
    hide SumPnl, SumRealized, Closings, TallyOf, HalfCents;
    SumRealizedUpdate(s.positions, k, p);
  }

  /** Whatever is not money does not touch the ledger. */
  lemma RestKeepsLedger(s: Sim, t: Sim, deposit: real)
    requires Ledger(s, deposit) && t.positions == s.positions && t.trades == s.trades && t.equity == s.equity
    requires t.counts == s.counts
    ensures Ledger(t, deposit)
  {
    hide SumPnl, SumRealized, Closings, TallyOf, HalfCents;
  }

  // ---- positions ----

  predicate Sized(p: Position) { 0.0 <= p.remaining <= p.size }

  /** Only the newest position may be open, and every position holds part of what it opened with. */
  ghost predicate Shaped(s: Sim) {
    && (forall i :: 0 <= i < |s.positions| - 1 ==> !s.positions[i].isOpen)
    && (forall i :: 0 <= i < |s.positions| ==> Sized(s.positions[i]))
  }

  /** An open position has something left to close. */
  ghost predicate Live(s: Sim) {
    forall i :: 0 <= i < |s.positions| && s.positions[i].isOpen ==> s.positions[i].remaining > 0.0
  }

  /** `t` continues `s`: records and curve only grow, and a closed position is never touched again. */
  ghost predicate Extends(s: Sim, t: Sim) {
    && s.trades <= t.trades && s.curve <= t.curve && |s.positions| <= |t.positions|
    && forall i :: 0 <= i < |s.positions| && !s.positions[i].isOpen ==> t.positions[i] == s.positions[i]
  }

  ghost predicate Sound(s: Sim, deposit: real) {
    Ledger(s, deposit) && Shaped(s) && Live(s)
  }

  lemma {:induction false} FindOpenExact(positions: seq<Position>, i: nat)
    requires i <= |positions|
    requires forall j :: 0 <= j < |positions| - 1 ==> !positions[j].isOpen
    ensures match FindOpen(positions, i)
      case Some(k) => k + 1 == |positions|
      case None => forall j :: i <= j < |positions| ==> !positions[j].isOpen
    decreases |positions| - i
  {
    if i < |positions| && !positions[i].isOpen {
      FindOpenExact(positions, i + 1);
    }
  }

  /** In the middle of an event that began in `s` with the open position `k`. */
  ghost predicate Busy(s: Sim, t: Sim, k: nat, deposit: real) {
    && Ledger(t, deposit) && Shaped(t) && Extends(s, t)
    && k + 1 == |t.positions| == |s.positions| && s.positions[k].isOpen && t.curve == s.curve
  }

  lemma SellKeepsBusy(s: Sim, t: Sim, k: nat, price: real, qty: real, size: real, action: Action, reason: Reason,
                      ts: int, deposit: real)
    requires Busy(s, t, k, deposit) && action != Opening && qty >= 0.0
    ensures Busy(s, Sell(t, k, price, qty, size, action, reason, ts), k, deposit)
  {
    hide Ledger, Bump, Profit, RoundPnl;
    assert Sized(t.positions[k]);
    SellKeepsLedger(t, k, price, qty, size, action, reason, ts, deposit);
  }

  lemma MarkKeepsBusy(s: Sim, t: Sim, k: nat, p: Position, deposit: real)
    requires Busy(s, t, k, deposit) && p.realized == t.positions[k].realized && p.remaining == t.positions[k].remaining
    requires p.size == t.positions[k].size
    ensures Busy(s, Update(t, k, p), k, deposit)
  {
    hide Ledger;
    assert Sized(t.positions[k]);
    MarkKeepsLedger(t, k, p, deposit);
  }

  lemma ShutKeepsBusy(s: Sim, t: Sim, k: nat, ts: int, reason: Option<Reason>, deposit: real)
    requires Busy(s, t, k, deposit)
    ensures Busy(s, Shut(t, k, ts, reason), k, deposit)
  {
    assert k < |t.positions|;
    hide Busy;
    MarkKeepsBusy(s, t, k, Shut(t, k, ts, reason).positions[k], deposit);
  }

  lemma BusyFacts(s: Sim, t: Sim, k: nat, deposit: real)
    requires Busy(s, t, k, deposit)
    ensures k + 1 == |t.positions| == |s.positions| && Sized(t.positions[k])
  {
  }

  lemma SellAllKeepsBusy(s: Sim, t: Sim, k: nat, price: real, size: real, reason: Reason, ts: int, deposit: real)
    requires Busy(s, t, k, deposit)
    ensures Busy(s, SellAll(t, k, price, size, reason, ts), k, deposit)
    ensures !SellAll(t, k, price, size, reason, ts).positions[k].isOpen
  {
    BusyFacts(s, t, k, deposit);
    hide Busy, Sell;
    var qty := t.positions[k].remaining;
    SellKeepsBusy(s, t, k, price, qty, size, Closing, reason, ts, deposit);
    ShutKeepsBusy(s, Sell(t, k, price, qty, size, Closing, reason, ts), k, ts, Some(reason), deposit);
  }

  lemma TargetQtyNonNegative(p: Position, j: nat)
    requires p.size >= 0.0
    ensures TargetQty(p, j) >= 0.0
  {
    assert p.size * Split(|p.targets|, j) >= 0.0;
    RoundLotsNonNegative(p.size * Split(|p.targets|, j));
  }

  lemma TakeFirstKeepsBusy(s: Sim, t: Sim, k: nat, price: real, ts: int, deposit: real)
    requires Busy(s, t, k, deposit)
    ensures Busy(s, TakeFirst(t, k, price, ts), k, deposit)
  {
    BusyFacts(s, t, k, deposit);
    hide Busy, Sell, TargetQty, RoundTo, TargetReached;
    var p := t.positions[k];
    var qty := TargetQty(p, 0);
    TargetQtyNonNegative(p, 0);
    SellKeepsBusy(s, t, k, price, qty, qty, Partial, Tp1Partial, ts, deposit);
    var sold := Sell(t, k, price, qty, qty, Partial, Tp1Partial, ts);
    MarkKeepsBusy(s, sold, k, sold.positions[k].(tp1Done := true, stop := RoundTo(p.entry, TICKS)), deposit);
  }

  lemma TakeSecondKeepsBusy(s: Sim, t: Sim, k: nat, price: real, ts: int, deposit: real)
    requires Busy(s, t, k, deposit)
    ensures Busy(s, TakeSecond(t, k, price, ts), k, deposit)
  {
    BusyFacts(s, t, k, deposit);
    hide Busy, Sell, TargetQty, TargetReached;
    var p := t.positions[k];
    TargetQtyNonNegative(p, 1);
    var qty := Min(TargetQty(p, 1), p.remaining);
    SellKeepsBusy(s, t, k, price, qty, qty, Partial, Tp2Partial, ts, deposit);
    var sold := Sell(t, k, price, qty, qty, Partial, Tp2Partial, ts);
    MarkKeepsBusy(s, sold, k, sold.positions[k].(tp2Done := true), deposit);
  }

  /** The last position is closed, or has something left. */
  ghost predicate Settled(t: Sim, k: nat) {
    k < |t.positions| && (t.positions[k].isOpen ==> t.positions[k].remaining > 0.0)
  }

  lemma SellEmergencyKeepsBusy(s: Sim, t: Sim, k: nat, price: real, qty: real, ts: int, tf: Frame, rules: Rules,
                               deposit: real)
    requires Busy(s, t, k, deposit) && qty >= 0.0
    ensures Busy(s, SellEmergency(t, k, price, qty, ts, tf, rules), k, deposit)
    ensures Settled(SellEmergency(t, k, price, qty, ts, tf, rules), k)
  {
    BusyFacts(s, t, k, deposit);
    hide Busy, RoundTo, Profit, RoundPnl, Bump;
    var p := t.positions[k];
    if Empties(p, qty) {
      SellKeepsBusy(s, t, k, price, qty, qty, Closing, EmergencyExit(tf), ts, deposit);
      ShutKeepsBusy(s, Sell(t, k, price, qty, qty, Closing, EmergencyExit(tf), ts), k, ts, Some(EmergencyExit(tf)),
                    deposit);
    } else {
      SellKeepsBusy(s, t, k, price, qty, qty, Partial, EmergencyExit(tf), ts, deposit);
      var sold := Sell(t, k, price, qty, qty, Partial, EmergencyExit(tf), ts);
      MarkKeepsBusy(s, sold, k, sold.positions[k].(stop := RoundTo(p.entry, TICKS)), deposit);
    }
  }

  lemma RestKeepsBusy(s: Sim, t: Sim, u: Sim, k: nat, deposit: real)
    requires Busy(s, t, k, deposit) && u.positions == t.positions && u.trades == t.trades && u.equity == t.equity
    requires u.counts == t.counts && u.curve == t.curve
    ensures Busy(s, u, k, deposit)
  {
    hide Ledger;
    RestKeepsLedger(t, u, deposit);
  }

  lemma EmergencyKeepsBusy(s: Sim, t: Sim, k: nat, ts: int, tf: Frame, w: Sight, rules: Rules, evals: Evaluators,
                           deposit: real)
    requires w.own != [] && Busy(s, t, k, deposit) && Settled(t, k)
    ensures Busy(s, Emergency(t, k, ts, tf, w, rules, evals), k, deposit)
    ensures Settled(Emergency(t, k, ts, tf, w, rules, evals), k)
  {
    hide Busy, SellEmergency, EmergencyQty;
    var bar := w.own[|w.own| - 1];
    var signal := evals.engulfing(w.own, tf);
    if signal.Some? {
      var fired := t.(exitFired := t.exitFired[ExitKey(tf, signal.value) := bar.ts]);
      RestKeepsBusy(s, t, fired, k, deposit);
      if EmergencyQty(t.positions[k], rules) > 0.0 {
        SellEmergencyKeepsBusy(s, fired, k, bar.close, EmergencyQty(t.positions[k], rules), ts, tf, rules, deposit);
      }
    }
  }

  lemma TakeThirdKeepsBusy(s: Sim, t: Sim, k: nat, price: real, ts: int, deposit: real)
    requires Busy(s, t, k, deposit)
    ensures Busy(s, TakeThird(t, k, price, ts), k, deposit) && !TakeThird(t, k, price, ts).positions[k].isOpen
  {
    hide Busy, SellAll;
    BusyFacts(s, t, k, deposit);
    SellAllKeepsBusy(s, t, k, price, t.positions[k].remaining, Tp3Full, ts, deposit);
    var closed := SellAll(t, k, price, t.positions[k].remaining, Tp3Full, ts);
    MarkKeepsBusy(s, closed, k, closed.positions[k].(tp3Done := true), deposit);
  }

  lemma CloseDoneKeepsBusy(s: Sim, t: Sim, k: nat, price: real, ts: int, deposit: real)
    requires Busy(s, t, k, deposit)
    ensures Busy(s, CloseDone(t, k, price, ts), k, deposit) && !CloseDone(t, k, price, ts).positions[k].isOpen
  {
    hide Busy, SellAll;
    BusyFacts(s, t, k, deposit);
    ShutKeepsBusy(s, t, k, ts, Some(TpAllDone), deposit);
    SellAllKeepsBusy(s, t, k, price, 0.0, TpAllDone, ts, deposit);
  }

  lemma SettleKeepsBusy(s: Sim, t: Sim, k: nat, ts: int, tf: Frame, w: Sight, rules: Rules, evals: Evaluators,
                        deposit: real)
    requires w.own != [] && Busy(s, t, k, deposit)
    ensures Busy(s, Settle(t, k, ts, tf, w, rules, evals), k, deposit)
    ensures Settled(Settle(t, k, ts, tf, w, rules, evals), k)
  {
    hide Busy, TakeThird, CloseDone, SellAll, Emergency, TargetReached, TimedOut, Sized;
    BusyFacts(s, t, k, deposit);
    var q, price := t.positions[k], w.own[|w.own| - 1].close;
    if !q.tp3Done && TargetReached(q, 2, price) {
      TakeThirdKeepsBusy(s, t, k, price, ts, deposit);
    } else if AllDone(q) {
      CloseDoneKeepsBusy(s, t, k, price, ts, deposit);
    } else if TimedOut(q, ts, rules) {
      SellAllKeepsBusy(s, t, k, price, q.remaining, TimeStop, ts, deposit);
    } else {
      EmergencyKeepsBusy(s, t, k, ts, tf, w, rules, evals, deposit);
    }
  }

  lemma BusyEnds(s: Sim, t: Sim, k: nat, deposit: real)
    requires Busy(s, t, k, deposit) && Settled(t, k)
    ensures Sound(Push(t), deposit) && Extends(s, Push(t)) && Push(t).curve == s.curve + [Push(t).equity]
  {
    hide Ledger;
    RestKeepsLedger(t, Push(t), deposit);
  }

  lemma TickKeepsSound(s: Sim, k: nat, ts: int, tf: Frame, w: Sight, rules: Rules, evals: Evaluators, deposit: real)
    requires k + 1 == |s.positions| && s.positions[k].isOpen && w.own != [] && Sound(s, deposit)
    ensures var t := Tick(s, k, ts, tf, w, rules, evals);
      Sound(t, deposit) && Extends(s, t) && t.curve == s.curve + [t.equity]
  {
    hide Ledger, Busy, Sound, Extends, TakeFirst, TakeSecond, SellAll, Settle, StopReached;
    var p, price := s.positions[k], w.own[|w.own| - 1].close;
    BusyStarts(s, k, deposit);
    if StopReached(p, price) {
      SellAllKeepsBusy(s, s, k, price, p.remaining, SlHit, ts, deposit);
      BusyEnds(s, SellAll(s, k, price, p.remaining, SlHit, ts), k, deposit);
    } else {
      var t := TakeSecond(TakeFirst(s, k, price, ts), k, price, ts);
      TakeFirstKeepsBusy(s, s, k, price, ts, deposit);
      TakeSecondKeepsBusy(s, TakeFirst(s, k, price, ts), k, price, ts, deposit);
      SettleKeepsBusy(s, t, k, ts, tf, w, rules, evals, deposit);
      BusyEnds(s, Settle(t, k, ts, tf, w, rules, evals), k, deposit);
    }
  }

  lemma BusyStarts(s: Sim, k: nat, deposit: real)
    requires Sound(s, deposit) && k + 1 == |s.positions| && s.positions[k].isOpen
    ensures Busy(s, s, k, deposit) && s.positions[k].remaining > 0.0
  {
    hide Ledger;
  }

  // ---- entries ----

  /** In the middle of an event that began in `s` without an open position. */
  ghost predicate Idle(s: Sim, t: Sim, deposit: real) {
    Sound(t, deposit) && Extends(s, t) && t.curve == s.curve
  }

  ghost predicate NoneOpen(s: Sim) {
    forall i :: 0 <= i < |s.positions| ==> !s.positions[i].isOpen
  }

  lemma RestKeepsIdle(s: Sim, t: Sim, u: Sim, deposit: real)
    requires Idle(s, t, deposit) && u.positions == t.positions && u.trades == t.trades && u.equity == t.equity
    requires u.counts == t.counts && u.curve == t.curve
    ensures Idle(s, u, deposit)
  {
    hide Ledger;
    RestKeepsLedger(t, u, deposit);
  }

  lemma EnterKeepsLedger(s: Sim, side: Side, tf: Frame, reason: Reason, price: real, ts: int,
                         entryCandles: seq<Candle>, triple: Option<Triple>, w: Sight, rules: Rules, evals: Evaluators,
                             deposit: real)
    requires Ledger(s, deposit) && (reason.EngulfingEntry? || reason.FvgEntry?)
    ensures Ledger(Enter(s, side, tf, reason, price, ts, entryCandles, triple, w, rules, evals), deposit)
  {
    hide ComputeSize, StopFor, TargetsFor, SumPnl, SumRealized, Closings, TallyOf, HalfCents;
    var after := Enter(s, side, tf, reason, price, ts, entryCandles, triple, w, rules, evals);
    if |after.positions| > |s.positions| {
      assert after.positions[..|s.positions|] == s.positions;
      SumsAppend(s.trades, after.trades[|s.trades|]);
      SumRealizedAppend(s.positions, after.positions[|s.positions|]);
    }
  }

  lemma SumRealizedAppend(positions: seq<Position>, p: Position)
    ensures SumRealized(positions + [p]) == SumRealized(positions) + p.realized
  {
    assert (positions + [p])[..|positions|] == positions;
  }

  lemma EnterKeepsIdle(s: Sim, t: Sim, side: Side, tf: Frame, reason: Reason, price: real, ts: int,
                       entryCandles: seq<Candle>, triple: Option<Triple>, w: Sight, rules: Rules, evals: Evaluators,
                           deposit: real)
    requires Idle(s, t, deposit) && NoneOpen(t) && (reason.EngulfingEntry? || reason.FvgEntry?)
    ensures var u := Enter(t, side, tf, reason, price, ts, entryCandles, triple, w, rules, evals);
      Idle(s, u, deposit) && (|u.positions| <= |t.positions| ==> NoneOpen(u))
  {
    hide Ledger, ComputeSize, StopFor, TargetsFor;
    EnterKeepsLedger(t, side, tf, reason, price, ts, entryCandles, triple, w, rules, evals, deposit);
  }

  lemma LookForEngulfingKeepsIdle(s: Sim, ts: int, tf: Frame, w: Sight, rules: Rules, evals: Evaluators, deposit: real)
    requires w.own != [] && Idle(s, s, deposit) && NoneOpen(s)
    ensures var looked := LookForEngulfing(s, ts, tf, w, rules, evals);
      Idle(s, looked.s, deposit) && (!looked.settled ==> NoneOpen(looked.s))
  {
    hide Idle, Enter;
    RestKeepsIdle(s, s, Reject(s), deposit);
    var signal := evals.engulfing(w.own, tf);
    if signal.Some? {
      var fired := s.(entryFired := s.entryFired[EngulfingKey(tf, signal.value) := ts]);
      RestKeepsIdle(s, s, fired, deposit);
      EnterKeepsIdle(s, fired, signal.value, tf, EngulfingEntry(tf), w.own[|w.own| - 1].close, ts, w.own, None, w,
                     rules, evals, deposit);
    }
  }

  lemma LookForFvgKeepsIdle(s: Sim, t: Sim, fvgTf: Frame, ts: int, w: Sight, rules: Rules, evals: Evaluators,
                            deposit: real)
    requires w.own != [] && Idle(s, t, deposit) && NoneOpen(t)
    ensures var looked := LookForFvg(t, fvgTf, ts, w, rules, evals);
      Idle(s, looked.s, deposit) && (!looked.settled ==> NoneOpen(looked.s))
  {
    hide Idle, Enter;
    RestKeepsIdle(s, t, Reject(t), deposit);
    var candles, price := Of(w.known, fvgTf), w.own[|w.own| - 1].close;
    var signal := evals.fvg(fvgTf, price, ts, w.known);
    if signal.Some? {
      var side := signal.value.side;
      var fired := t.(entryFired := t.entryFired[FvgKey(fvgTf, side) := ts]);
      RestKeepsIdle(s, t, fired, deposit);
      EnterKeepsIdle(s, fired, side, fvgTf, FvgEntry(fvgTf), price, ts, candles,
                     TripleOf(candles, signal.value.completion), w, rules, evals, deposit);
    }
  }

  lemma {:induction false} LookForFvgsKeepsIdle(s: Sim, t: Sim, frames: seq<Frame>, ts: int, w: Sight, rules: Rules,
                                                evals: Evaluators, deposit: real)
    requires w.own != [] && Idle(s, t, deposit) && NoneOpen(t)
    ensures Idle(s, LookForFvgs(t, frames, ts, w, rules, evals), deposit)
    decreases |frames|
  {
    if frames != [] {
      hide Idle, LookForFvg, NoneOpen;
      LookForFvgKeepsIdle(s, t, frames[0], ts, w, rules, evals, deposit);
      var looked := LookForFvg(t, frames[0], ts, w, rules, evals);
      if !looked.settled {
        LookForFvgsKeepsIdle(s, looked.s, frames[1..], ts, w, rules, evals, deposit);
      }
    }
  }

  lemma IdleEnds(s: Sim, t: Sim, deposit: real)
    requires Idle(s, t, deposit)
    ensures Sound(Push(t), deposit) && Extends(s, Push(t)) && Push(t).curve == s.curve + [Push(t).equity]
  {
    hide Ledger;
    RestKeepsLedger(t, Push(t), deposit);
  }

  lemma LookKeepsSound(s: Sim, ts: int, tf: Frame, w: Sight, rules: Rules, evals: Evaluators, deposit: real)
    requires w.own != [] && Sound(s, deposit) && NoneOpen(s)
    ensures var t := Look(s, ts, tf, w, rules, evals);
      Sound(t, deposit) && Extends(s, t) && t.curve == s.curve + [t.equity]
  {
    assert Extends(s, s);
    hide Sound, Extends, LookForEngulfing, LookForFvgs, NoneOpen;
    var engulfing := LookForEngulfing(s, ts, tf, w, rules, evals);
    LookForEngulfingKeepsIdle(s, ts, tf, w, rules, evals, deposit);
    IdleEnds(s, engulfing.s, deposit);
    if !engulfing.settled {
      LookForFvgsKeepsIdle(s, engulfing.s, FVG_FRAMES, ts, w, rules, evals, deposit);
      IdleEnds(s, LookForFvgs(engulfing.s, FVG_FRAMES, ts, w, rules, evals), deposit);
    }
  }

  /**
   Every event keeps the ledger and the positions sound, adds to the history
   without rewriting it, and marks the equity once when it has three candles.
   */
  lemma StepKeepsSound(s: Sim, ts: int, tf: Frame, w: Sight, rules: Rules, evals: Evaluators, deposit: real)
    requires Sound(s, deposit)
    ensures var t := Step(s, ts, tf, w, rules, evals);
      && Sound(t, deposit) && Extends(s, t)
      && (if |w.own| >= 3 then t.curve == s.curve + [t.equity] else t == s)
  {
    FindOpenExact(s.positions, 0);
    assert Extends(s, s);
    hide Sound, Extends, Tick, Look;
    if |w.own| >= 3 {
      match FindOpen(s.positions, 0)
      case Some(k) => TickKeepsSound(s, k, ts, tf, w, rules, evals, deposit);
      case None => LookKeepsSound(s, ts, tf, w, rules, evals, deposit);
    }
  }

  // ---- whole runs ----

  lemma AfterStarts(sets: seq<CandleSet>, events: seq<Event>, deposit: real, rules: Rules, evals: Evaluators)
    requires AllEventsOf(sets, events)
    ensures After(sets, events, deposit, rules, evals, 0) == Start(deposit)
  {
  }

  lemma AfterUnfolds(sets: seq<CandleSet>, events: seq<Event>, deposit: real, rules: Rules, evals: Evaluators, n: nat)
    requires 0 < n <= |events| && AllEventsOf(sets, events)
    ensures events[n - 1].index < |CandlesOf(sets, events[n - 1].tf)|
    ensures After(sets, events, deposit, rules, evals, n)
         == Step(After(sets, events, deposit, rules, evals, n - 1), events[n - 1].ts, events[n - 1].tf,
                 SightAt(sets, events[n - 1]), rules, evals)
  {
    hide Step, SightAt, CandlesOf;
  }

  lemma StartIsSound(deposit: real)
    ensures Sound(Start(deposit), deposit)
  {
  }

  lemma {:induction false} RunIsSound(sets: seq<CandleSet>, events: seq<Event>, deposit: real, rules: Rules,
                                      evals: Evaluators, n: nat)
    requires n <= |events| && AllEventsOf(sets, events)
    ensures Sound(After(sets, events, deposit, rules, evals, n), deposit)
  {
    if n == 0 {
      StartIsSound(deposit);
    } else {
      hide Sound, Step, Extends, AllEventsOf, After, SightAt, CandlesOf;
      RunIsSound(sets, events, deposit, rules, evals, n - 1);
      AfterUnfolds(sets, events, deposit, rules, evals, n);
      var e := events[n - 1];
      StepKeepsSound(After(sets, events, deposit, rules, evals, n - 1), e.ts, e.tf, SightAt(sets, e), rules, evals,
                     deposit);
    }
  }

  /** `t` has the records and the curve of `s` at its front. */
  ghost predicate Continues(s: Sim, t: Sim) {
    s.trades <= t.trades && s.curve <= t.curve
  }

  lemma ContinuesItself(s: Sim)
    ensures Continues(s, s)
  {
  }

  lemma ContinuesIsTransitive(s: Sim, t: Sim, u: Sim)
    requires Continues(s, t) && Continues(t, u)
    ensures Continues(s, u)
  {
  }

  lemma StepContinues(s: Sim, ts: int, tf: Frame, w: Sight, rules: Rules, evals: Evaluators, deposit: real)
    requires Sound(s, deposit)
    ensures Continues(s, Step(s, ts, tf, w, rules, evals))
  {
    hide Sound, Step;
    StepKeepsSound(s, ts, tf, w, rules, evals, deposit);
  }

  /** What a run has recorded after `n` events stays at the front of what it records later. */
  lemma {:induction false} HistoryIsKept(sets: seq<CandleSet>, events: seq<Event>, deposit: real, rules: Rules,
                                         evals: Evaluators, n: nat, m: nat)
    requires n <= m <= |events| && AllEventsOf(sets, events)
    ensures Continues(After(sets, events, deposit, rules, evals, n), After(sets, events, deposit, rules, evals, m))
  {
    hide Sound, Step, AllEventsOf, After, SightAt, CandlesOf, Continues;
    if n == m {
      ContinuesItself(After(sets, events, deposit, rules, evals, n));
    } else {
      var s, t := After(sets, events, deposit, rules, evals, n), After(sets, events, deposit, rules, evals, m - 1);
      HistoryIsKept(sets, events, deposit, rules, evals, n, m - 1);
      RunIsSound(sets, events, deposit, rules, evals, m - 1);
      AfterUnfolds(sets, events, deposit, rules, evals, m);
      var e := events[m - 1];
      var w := SightAt(sets, e);
      StepContinues(t, e.ts, e.tf, w, rules, evals, deposit);
      ContinuesIsTransitive(s, t, Step(t, e.ts, e.tf, w, rules, evals));
    }
  }

  lemma TimelineInRange(sets: seq<CandleSet>, from: int, to: int)
    ensures AllEventsOf(sets, TimelineOf(sets, from, to))
  {
    var events := TimelineOf(sets, from, to);
    forall i | 0 <= i < |events| ensures events[i].index < |CandlesOf(sets, events[i].tf)| {
      TimelineIsExact(sets, from, to, events[i]);
    }
  }

  // ---- how a position is managed ----

  /** What the targets reached so far are meant to have sold. */
  function TargetsSold(p: Position): real {
    (if p.tp1Done then TargetQty(p, 0) else 0.0) + (if p.tp2Done then TargetQty(p, 1) else 0.0)
  }

  /**
   A position keeps its targets; its stop is the initial one or at the entry, and
   at the entry once the first target was reached. Without emergency exits an
   open position holds its size less the shares of the targets reached. A closed
   position holds nothing and says when and why it was closed.
   */
  ghost predicate Managed(p: Position, rules: Rules) {
    && p.size > 0.0 && p.targets == TargetsFor(p.entry, p.side, rules)
    && (p.stop == StopFor(p.entry, p.side, rules) || p.stop == RoundTo(p.entry, TICKS))
    && (p.tp1Done ==> p.stop == RoundTo(p.entry, TICKS))
    && (if p.isOpen
        then rules.exitClosePct <= 0.0 ==> p.remaining == Max(0.0, p.size - TargetsSold(p))
        else p.remaining == 0.0 && p.closedAt.Some? && p.closeReason.Some?)
  }

  lemma SameShare(p: Position, q: Position, j: nat)
    requires q.size == p.size && q.targets == p.targets
    ensures TargetQty(q, j) == TargetQty(p, j)
  {
  }

  function FirstTaken(p: Position, price: real): Position {
    Deduct(p, price, TargetQty(p, 0)).(tp1Done := true, stop := RoundTo(p.entry, TICKS))
  }

  function SecondTaken(p: Position, price: real): Position {
    Deduct(p, price, Min(TargetQty(p, 1), p.remaining)).(tp2Done := true)
  }

  lemma FirstIsManaged(p: Position, price: real, rules: Rules)
    requires Managed(p, rules) && p.isOpen && !p.tp1Done
    ensures Managed(FirstTaken(p, price), rules)
  {
    hide TargetsFor, StopFor, RoundTo, TargetQty, Profit;
    SameShare(p, FirstTaken(p, price), 0);
    SameShare(p, FirstTaken(p, price), 1);
    TargetQtyNonNegative(p, 0);
    TargetQtyNonNegative(p, 1);
  }

  lemma SecondIsManaged(p: Position, price: real, rules: Rules)
    requires Managed(p, rules) && p.isOpen && !p.tp2Done
    ensures Managed(SecondTaken(p, price), rules)
  {
    hide TargetsFor, StopFor, RoundTo, TargetQty, Profit;
    SameShare(p, SecondTaken(p, price), 0);
    SameShare(p, SecondTaken(p, price), 1);
    TargetQtyNonNegative(p, 0);
    TargetQtyNonNegative(p, 1);
  }

  lemma TakeFirstManages(s: Sim, k: nat, price: real, ts: int, rules: Rules)
    requires k < |s.positions| && Managed(s.positions[k], rules) && s.positions[k].isOpen
    ensures var p := TakeFirst(s, k, price, ts).positions[k];
      Managed(p, rules) && p.isOpen
  {
    hide Managed, TargetQty, RoundTo, RoundPnl, Profit, Bump, TargetReached;
    var p := s.positions[k];
    if !p.tp1Done && TargetReached(p, 0, price) {
      FirstIsManaged(p, price, rules);
      assert TakeFirst(s, k, price, ts).positions[k] == FirstTaken(p, price);
    }
  }

  lemma TakeSecondManages(s: Sim, k: nat, price: real, ts: int, rules: Rules)
    requires k < |s.positions| && Managed(s.positions[k], rules) && s.positions[k].isOpen
    ensures var p := TakeSecond(s, k, price, ts).positions[k];
      Managed(p, rules) && p.isOpen
  {
    hide Managed, TargetQty, RoundPnl, Profit, Bump, TargetReached;
    var p := s.positions[k];
    if !p.tp2Done && TargetReached(p, 1, price) {
      SecondIsManaged(p, price, rules);
      assert TakeSecond(s, k, price, ts).positions[k] == SecondTaken(p, price);
    }
  }

  lemma SellAllManages(s: Sim, k: nat, price: real, size: real, reason: Reason, ts: int, rules: Rules)
    requires k < |s.positions| && Managed(s.positions[k], rules)
    ensures var p := SellAll(s, k, price, size, reason, ts).positions[k];
      Managed(p, rules) && !p.isOpen && p.closeReason == Some(reason) && p.closedAt == Some(ts)
  {
    hide TargetsFor, StopFor, RoundTo, RoundPnl, Profit, Bump, TargetsSold;
  }

  lemma ReducedIsManaged(p: Position, price: real, qty: real, ts: int, reason: Reason, rules: Rules)
    requires Managed(p, rules) && p.isOpen && rules.exitClosePct > 0.0
    ensures Managed(Deduct(p, price, qty), rules)
    ensures Managed(Deduct(p, price, qty).(stop := RoundTo(p.entry, TICKS)), rules)
    ensures Empties(p, qty) ==>
      Managed(Deduct(p, price, qty).(isOpen := false, closedAt := Some(ts), closeReason := Some(reason)), rules)
  {
    hide TargetsFor, StopFor, RoundTo, Profit, TargetsSold;
  }

  lemma SellEmergencyManages(s: Sim, k: nat, price: real, qty: real, ts: int, tf: Frame, rules: Rules)
    requires k < |s.positions| && Managed(s.positions[k], rules) && s.positions[k].isOpen && rules.exitClosePct > 0.0
    ensures Managed(SellEmergency(s, k, price, qty, ts, tf, rules).positions[k], rules)
  {
    hide Managed, RoundTo, RoundPnl, Profit, Bump, Empties, Deduct;
    ReducedIsManaged(s.positions[k], price, qty, ts, EmergencyExit(tf), rules);
  }

  lemma EmergencyManages(s: Sim, k: nat, ts: int, tf: Frame, w: Sight, rules: Rules, evals: Evaluators)
    requires k < |s.positions| && w.own != [] && Managed(s.positions[k], rules) && s.positions[k].isOpen
    ensures Managed(Emergency(s, k, ts, tf, w, rules, evals).positions[k], rules)
  {
    hide Managed, SellEmergency, EmergencyQty;
    var bar := w.own[|w.own| - 1];
    var signal := evals.engulfing(w.own, tf);
    if signal.Some? && rules.exitClosePct > 0.0 {
      var fired := s.(exitFired := s.exitFired[ExitKey(tf, signal.value) := bar.ts]);
      SellEmergencyManages(fired, k, bar.close, EmergencyQty(s.positions[k], rules), ts, tf, rules);
    }
  }

  lemma SettleManages(t: Sim, k: nat, ts: int, tf: Frame, w: Sight, rules: Rules, evals: Evaluators)
    requires k < |t.positions| && w.own != [] && Managed(t.positions[k], rules) && t.positions[k].isOpen
    requires Sized(t.positions[k])
    ensures Managed(Settle(t, k, ts, tf, w, rules, evals).positions[k], rules)
  {
    hide Managed, Sized, TakeThird, CloseDone, SellAll, Emergency, AllDone, TargetReached, TimedOut;
    var q, price := t.positions[k], w.own[|w.own| - 1].close;
    TakeThirdManages(t, k, price, ts, rules);
    CloseDoneManages(t, k, price, ts, rules);
    SellAllManages(t, k, price, q.remaining, TimeStop, ts, rules);
    EmergencyManages(t, k, ts, tf, w, rules, evals);
  }

  lemma TakeThirdManages(s: Sim, k: nat, price: real, ts: int, rules: Rules)
    requires k < |s.positions| && Managed(s.positions[k], rules)
    ensures Managed(TakeThird(s, k, price, ts).positions[k], rules)
  {
    hide TargetsFor, StopFor, RoundTo, SellAll, TargetsSold;
    SellAllManages(s, k, price, s.positions[k].remaining, Tp3Full, ts, rules);
  }

  lemma CloseDoneManages(s: Sim, k: nat, price: real, ts: int, rules: Rules)
    requires k < |s.positions| && Managed(s.positions[k], rules) && Sized(s.positions[k])
    ensures Managed(CloseDone(s, k, price, ts).positions[k], rules)
  {
    hide TargetsFor, StopFor, RoundTo, SellAll, TargetsSold;
    SellAllManages(s, k, price, 0.0, TpAllDone, ts, rules);
  }

  ghost predicate AllManaged(s: Sim, rules: Rules) {
    forall i :: 0 <= i < |s.positions| ==> Managed(s.positions[i], rules)
  }

  /** An event with an open position leaves that position well managed. */
  lemma TickManages(s: Sim, k: nat, ts: int, tf: Frame, w: Sight, rules: Rules, evals: Evaluators)
    requires k < |s.positions| && s.positions[k].isOpen && s.positions[k].remaining > 0.0 && w.own != []
    requires Managed(s.positions[k], rules)
    requires var price := w.own[|w.own| - 1].close;
      Sized(TakeSecond(TakeFirst(s, k, price, ts), k, price, ts).positions[k])
    ensures Managed(Tick(s, k, ts, tf, w, rules, evals).positions[k], rules)
  {
    hide Managed, TakeFirst, TakeSecond, SellAll, Settle, StopReached, Sized;
    var p, price := s.positions[k], w.own[|w.own| - 1].close;
    if StopReached(p, price) {
      SellAllManages(s, k, price, p.remaining, SlHit, ts, rules);
    } else {
      var one := TakeFirst(s, k, price, ts);
      TakeFirstManages(s, k, price, ts, rules);
      TakeSecondManages(one, k, price, ts, rules);
      SettleManages(TakeSecond(one, k, price, ts), k, ts, tf, w, rules, evals);
    }
  }

  lemma TargetsKeepSized(s: Sim, k: nat, price: real, ts: int, deposit: real)
    requires Sound(s, deposit) && k + 1 == |s.positions| && s.positions[k].isOpen
    ensures Sized(TakeSecond(TakeFirst(s, k, price, ts), k, price, ts).positions[k]) && s.positions[k].remaining > 0.0
  {
    hide Busy, Sound, TakeFirst, TakeSecond, Sized;
    BusyStarts(s, k, deposit);
    TakeFirstKeepsBusy(s, s, k, price, ts, deposit);
    TakeSecondKeepsBusy(s, TakeFirst(s, k, price, ts), k, price, ts, deposit);
    BusyFacts(s, TakeSecond(TakeFirst(s, k, price, ts), k, price, ts), k, deposit);
  }

  /** Opening adds one well-managed position and touches no other. */
  ghost predicate Opens(s: Sim, t: Sim, rules: Rules) {
    || t.positions == s.positions
    || (|t.positions| == |s.positions| + 1 && t.positions[..|s.positions|] == s.positions
        && Managed(t.positions[|s.positions|], rules))
  }

  lemma EnterOpens(s: Sim, side: Side, tf: Frame, reason: Reason, price: real, ts: int,
                   entryCandles: seq<Candle>, triple: Option<Triple>, w: Sight, rules: Rules, evals: Evaluators)
    ensures var t := Enter(s, side, tf, reason, price, ts, entryCandles, triple, w, rules, evals);
      Opens(s, t, rules) && (|t.positions| == |s.positions| ==> t.positions == s.positions)
  {
    hide TargetsFor, StopFor, RoundTo, ComputeSize, RoundLots;
  }

  lemma LookForFvgOpens(s: Sim, fvgTf: Frame, ts: int, w: Sight, rules: Rules, evals: Evaluators)
    requires w.own != []
    ensures var looked := LookForFvg(s, fvgTf, ts, w, rules, evals);
      Opens(s, looked.s, rules) && (!looked.settled ==> looked.s.positions == s.positions)
  {
    var candles, price := Of(w.known, fvgTf), w.own[|w.own| - 1].close;
    var signal := evals.fvg(fvgTf, price, ts, w.known);
    if signal.Some? {
      var side := signal.value.side;
      var fired := s.(entryFired := s.entryFired[FvgKey(fvgTf, side) := ts]);
      EnterOpens(fired, side, fvgTf, FvgEntry(fvgTf), price, ts, candles, TripleOf(candles, signal.value.completion),
                 w, rules, evals);
    }
    hide Enter, Managed;
  }

  lemma {:induction false} LookForFvgsOpens(s: Sim, frames: seq<Frame>, ts: int, w: Sight, rules: Rules,
                                            evals: Evaluators)
    requires w.own != []
    ensures Opens(s, LookForFvgs(s, frames, ts, w, rules, evals), rules)
    decreases |frames|
  {
    if frames != [] {
      LookForFvgOpens(s, frames[0], ts, w, rules, evals);
      LookForFvgsOpens(LookForFvg(s, frames[0], ts, w, rules, evals).s, frames[1..], ts, w, rules, evals);
      hide LookForFvg, Managed;
    }
  }

  lemma LookOpens(s: Sim, ts: int, tf: Frame, w: Sight, rules: Rules, evals: Evaluators)
    requires w.own != []
    ensures Opens(s, Look(s, ts, tf, w, rules, evals), rules)
  {
    var signal := evals.engulfing(w.own, tf);
    if signal.Some? {
      var fired := s.(entryFired := s.entryFired[EngulfingKey(tf, signal.value) := ts]);
      EnterOpens(fired, signal.value, tf, EngulfingEntry(tf), w.own[|w.own| - 1].close, ts, w.own, None, w, rules,
                 evals);
    }
    LookForFvgsOpens(LookForEngulfing(s, ts, tf, w, rules, evals).s, FVG_FRAMES, ts, w, rules, evals);
    hide Enter, Managed, LookForFvgs;
  }

  lemma OthersStayManaged(s: Sim, t: Sim, k: nat, rules: Rules)
    requires AllManaged(s, rules) && Shaped(s) && Extends(s, t) && k + 1 == |s.positions| == |t.positions|
    requires Managed(t.positions[k], rules)
    ensures AllManaged(t, rules)
  {
    hide Managed;
  }

  lemma OpeningStaysManaged(s: Sim, t: Sim, rules: Rules)
    requires AllManaged(s, rules) && Opens(s, t, rules)
    ensures AllManaged(t, rules)
  {
    hide Managed;
    forall i | 0 <= i < |t.positions| ensures Managed(t.positions[i], rules) {
      if i < |s.positions| {
        assert t.positions[i] == t.positions[..|s.positions|][i] || t.positions == s.positions;
      }
    }
  }

  lemma ManagedAt(s: Sim, k: nat, rules: Rules)
    requires AllManaged(s, rules) && k < |s.positions|
    ensures Managed(s.positions[k], rules)
  {
  }

  lemma OpenIsLast(s: Sim, deposit: real)
    requires Sound(s, deposit)
    ensures Shaped(s)
    ensures FindOpen(s.positions, 0).Some? ==>
      var k := FindOpen(s.positions, 0).value; k + 1 == |s.positions| && s.positions[k].isOpen
  {
    FindOpenExact(s.positions, 0);
  }

  lemma StepManages(s: Sim, ts: int, tf: Frame, w: Sight, rules: Rules, evals: Evaluators, deposit: real)
    requires Sound(s, deposit) && AllManaged(s, rules)
    ensures AllManaged(Step(s, ts, tf, w, rules, evals), rules)
  {
    hide Sound, AllManaged, Managed, Tick, Look, Extends, Shaped, TakeFirst, TakeSecond, Sized, FindOpen;
    OpenIsLast(s, deposit);
    if |w.own| >= 3 {
      match FindOpen(s.positions, 0)
      case Some(k) =>
        ManagedAt(s, k, rules);
        TargetsKeepSized(s, k, w.own[|w.own| - 1].close, ts, deposit);
        TickManages(s, k, ts, tf, w, rules, evals);
        TickKeepsSound(s, k, ts, tf, w, rules, evals, deposit);
        OthersStayManaged(s, Tick(s, k, ts, tf, w, rules, evals), k, rules);
      case None =>
        LookOpens(s, ts, tf, w, rules, evals);
        OpeningStaysManaged(s, Look(s, ts, tf, w, rules, evals), rules);
    }
  }

  /** Every position of every run is managed as its rules say, after every event. */
  lemma {:induction false} RunIsManaged(sets: seq<CandleSet>, events: seq<Event>, deposit: real, rules: Rules,
                                        evals: Evaluators, n: nat)
    requires n <= |events| && AllEventsOf(sets, events)
    ensures AllManaged(After(sets, events, deposit, rules, evals, n), rules)
  {
    hide Sound, Step, AllManaged, AllEventsOf, After, SightAt, CandlesOf;
    if n == 0 {
      AfterStarts(sets, events, deposit, rules, evals);
      StartIsManaged(deposit, rules);
    } else {
      RunIsManaged(sets, events, deposit, rules, evals, n - 1);
      RunIsSound(sets, events, deposit, rules, evals, n - 1);
      AfterUnfolds(sets, events, deposit, rules, evals, n);
      var e := events[n - 1];
      StepManages(After(sets, events, deposit, rules, evals, n - 1), e.ts, e.tf, SightAt(sets, e), rules, evals,
                  deposit);
    }
  }

  // ---- the first target after an emergency exit ----

  /**
   The first target always books the profit of its whole share; what leaves the
   position is that share only if it is still held, so it sells more than is held
   exactly when the share exceeds what remains.
   */
  lemma FirstTargetOversells(s: Sim, k: nat, price: real, ts: int)
    requires k < |s.positions| && Sized(s.positions[k])
    requires !s.positions[k].tp1Done && TargetReached(s.positions[k], 0, price)
    ensures var p, q := s.positions[k], TakeFirst(s, k, price, ts).positions[k];
      && q.realized == p.realized + Profit(p.side, p.entry, price, TargetQty(p, 0))
      && TargetQty(p, 0) - (p.remaining - q.remaining) == Max(0.0, TargetQty(p, 0) - p.remaining)
      && (p.remaining - q.remaining < TargetQty(p, 0) <==> TargetQty(p, 0) > p.remaining)
  {
    hide RoundTo, RoundPnl, Profit, TargetQty, Bump;
  }

  /** A long of 100 units at 100 with three targets. */
  const HELD := Position(Long, 100.0, 100.0, 100.0, 98.0, [110.0, 120.0, 130.0], false, false, false, 0, Min15, true,
                         None, None, 0.0)

  lemma EmergencyLeavesTwenty(s: Sim, w: Sight, rules: Rules, evals: Evaluators)
    requires s.positions == [HELD] && s.exitFired == map[] && w.own != [] && w.own[|w.own| - 1].close == 105.0
    requires rules.exitClosePct == 80.0 && rules.exitFrames == [Min15] && rules.timeStopBars == 0
    requires w.own[|w.own| - 1].ts >= 0 && evals.engulfing(w.own, Min15) == Some(Short)
    ensures var t := Tick(s, 0, 1, Min15, w, rules, evals);
      && t.positions == [HELD.(remaining := 20.0, realized := 400.0, stop := 100.0)]
      && t.trades == s.trades + [Record(0, Long, Partial, 105.0, 80.0, 400.0, EmergencyExit(Min15), 1)]
  {
    assert RoundLots(80.0) == 80.0 && RoundPnl(400.0) == 400.0 && RoundTo(100.0, TICKS) == 100.0;
    assert EmergencyQty(HELD, rules) == 80.0;
    assert TakeFirst(s, 0, 105.0, 1) == s && TakeSecond(s, 0, 105.0, 1) == s;
    hide RoundTo, RoundLots, EmergencyQty, TakeFirst, TakeSecond;
    var t := Settle(s, 0, 1, Min15, w, rules, evals);
    assert t == Emergency(s, 0, 1, Min15, w, rules, evals);
  }

  lemma TargetSellsThirtyFour(s: Sim, w: Sight, rules: Rules, evals: Evaluators)
    requires s.positions == [HELD.(remaining := 20.0, realized := 400.0, stop := 100.0)]
    requires w.own != [] && w.own[|w.own| - 1].close == 111.0
    ensures var t := Tick(s, 0, 2, Min15, w, rules, evals);
      && |t.positions| == 1 && !t.positions[0].isOpen && t.positions[0].realized == 774.0
      && t.trades == s.trades + [Record(0, Long, Partial, 111.0, 34.0, 374.0, Tp1Partial, 2)]
  {
    var p := s.positions[0];
    assert RoundLots(34.0) == 34.0 && RoundPnl(374.0) == 374.0;
    assert TargetQty(p, 0) == 34.0;
    hide RoundTo, RoundLots, TargetQty, Emergency;
    var one := TakeFirst(s, 0, 111.0, 2);
    assert one.positions[0].remaining == 0.0;
    assert TakeSecond(one, 0, 111.0, 2) == one;
  }

  /** The input: after an emergency exit of 80 units the first target sells 34, so that 114 of 100 are sold. */
  lemma SellsMoreThanHeld(deposit: real, w: Sight, later: Sight, rules: Rules, evals: Evaluators)
    requires w.own != [] && w.own[|w.own| - 1].close == 105.0 && w.own[|w.own| - 1].ts >= 0
    requires later.own != [] && later.own[|later.own| - 1].close == 111.0
    requires rules.exitClosePct == 80.0 && rules.exitFrames == [Min15] && rules.timeStopBars == 0
    requires evals.engulfing(w.own, Min15) == Some(Short)
    ensures var s := Start(deposit).(positions := [HELD]);
      var t := Tick(Tick(s, 0, 1, Min15, w, rules, evals), 0, 2, Min15, later, rules, evals);
      && |t.trades| == 2 && t.trades[0].size + t.trades[1].size == 114.0 > HELD.size
      && !t.positions[0].isOpen && t.positions[0].realized == 774.0
  {
    hide Tick;
    var s := Start(deposit).(positions := [HELD]);
    EmergencyLeavesTwenty(s, w, rules, evals);
    TargetSellsThirtyFour(Tick(s, 0, 1, Min15, w, rules, evals), later, rules, evals);
  }

  lemma StartIsManaged(deposit: real, rules: Rules)
    ensures AllManaged(Start(deposit), rules)
  {
  }

  lemma SoldInFull(s: Sim, k: nat, price: real, ts: int, reason: Reason)
    requires k < |s.positions|
    ensures var p, q := s.positions[k], SellAll(s, k, price, s.positions[k].remaining, reason, ts).positions[k];
      !q.isOpen && q.closeReason == Some(reason) && q.remaining == 0.0
         && q.realized == p.realized + Profit(p.side, p.entry, price, p.remaining)
  {
    hide RoundPnl, Profit, Bump;
  }

  lemma TakesKeepOpen(s: Sim, k: nat, price: real, ts: int)
    requires k < |s.positions|
    ensures TakeFirst(s, k, price, ts).positions[k].isOpen == TakeSecond(s, k, price, ts).positions[k].isOpen
         == s.positions[k].isOpen
  {
    hide RoundTo, RoundPnl, Profit, Bump, TargetQty, TargetReached;
  }

  lemma SoldFor(s: Sim, k: nat, price: real, size: real, reason: Reason, ts: int)
    requires k < |s.positions|
    ensures SellAll(s, k, price, size, reason, ts).positions[k].closeReason == Some(reason)
  {
    hide RoundPnl, Profit, Bump, Deduct;
  }

  lemma EmergencyIsNoStop(t: Sim, k: nat, ts: int, tf: Frame, w: Sight, rules: Rules, evals: Evaluators)
    requires k < |t.positions| && w.own != [] && t.positions[k].isOpen
    ensures var q := Emergency(t, k, ts, tf, w, rules, evals).positions[k];
      q.isOpen || q.closeReason == Some(EmergencyExit(tf))
  {
    hide RoundTo, RoundPnl, Profit, Bump, EmergencyQty, Empties;
  }

  lemma SettleIsNoStop(t: Sim, k: nat, ts: int, tf: Frame, w: Sight, rules: Rules, evals: Evaluators)
    requires k < |t.positions| && w.own != [] && t.positions[k].isOpen
    ensures var q := Settle(t, k, ts, tf, w, rules, evals).positions[k];
      q.isOpen || q.closeReason != Some(SlHit)
  {
    hide SellAll, Emergency, TargetReached, TimedOut, AllDone;
    var q, price := t.positions[k], w.own[|w.own| - 1].close;
    SoldFor(t, k, price, q.remaining, Tp3Full, ts);
    SoldFor(t, k, price, 0.0, TpAllDone, ts);
    SoldFor(t, k, price, q.remaining, TimeStop, ts);
    EmergencyIsNoStop(t, k, ts, tf, w, rules, evals);
  }

  /**
   The stop is checked first: a position is stopped out exactly when the price has reached its stop,
   and then in full.
   */
  lemma StopComesFirst(s: Sim, k: nat, ts: int, tf: Frame, w: Sight, rules: Rules, evals: Evaluators)
    requires k < |s.positions| && s.positions[k].isOpen && s.positions[k].remaining > 0.0 && w.own != []
    ensures var p, q, price := s.positions[k], Tick(s, k, ts, tf, w, rules, evals).positions[k],
        w.own[|w.own| - 1].close;
      && (!q.isOpen && q.closeReason == Some(SlHit) <==> StopReached(p, price))
      && (StopReached(p, price) ==>
            q.remaining == 0.0 && q.realized == p.realized + Profit(p.side, p.entry, price, p.remaining))
  {
    hide SellAll, TakeFirst, TakeSecond, Settle, StopReached, Profit;
    var price := w.own[|w.own| - 1].close;
    SoldInFull(s, k, price, ts, SlHit);
    TakesKeepOpen(s, k, price, ts);
    TakesKeepOpen(TakeFirst(s, k, price, ts), k, price, ts);
    if !StopReached(s.positions[k], price) {
      SettleIsNoStop(TakeSecond(TakeFirst(s, k, price, ts), k, price, ts), k, ts, tf, w, rules, evals);
    }
  }

  // ---- entries keep their distance ----

  /** The debounce key under which a record opened a position. */
  function KeyOf(r: Record): Option<EntryKey> {
    match r.reason
    case EngulfingEntry(tf) => Some(EngulfingKey(tf, r.side))
    case FvgEntry(tf) => Some(FvgKey(tf, r.side))
    case _ => None
  }

  /** Two entries of one kind, timeframe and side are at least one candle length apart. */
  ghost predicate Debounced(s: Sim) {
    && (forall i :: 0 <= i < |s.trades| && KeyOf(s.trades[i]).Some? ==>
          KeyOf(s.trades[i]).value in s.entryFired && s.entryFired[KeyOf(s.trades[i]).value] >= s.trades[i].ts)
    && (forall i, j ::
          0 <= i < j < |s.trades| && KeyOf(s.trades[i]).Some? && KeyOf(s.trades[j]) == KeyOf(s.trades[i]) ==>
          s.trades[j].ts - s.trades[i].ts >= FrameMs(KeyOf(s.trades[i]).value.tf))
  }

  /** `t` has only exits on top of the records of `s`. */
  ghost predicate OnlyExits(s: Sim, t: Sim) {
    && t.entryFired == s.entryFired && s.trades <= t.trades
    && forall i :: |s.trades| <= i < |t.trades| ==> KeyOf(t.trades[i]) == None
  }

  lemma ExitsKeepDebounced(s: Sim, t: Sim)
    requires Debounced(s) && OnlyExits(s, t)
    ensures Debounced(t)
  {
    hide KeyOf, FrameMs;
  }

  lemma ExitsChain(s: Sim, t: Sim, u: Sim)
    requires OnlyExits(s, t) && OnlyExits(t, u)
    ensures OnlyExits(s, u)
  {
    hide KeyOf;
    forall i | |s.trades| <= i < |u.trades| ensures KeyOf(u.trades[i]) == None {
      if i < |t.trades| {
        assert u.trades[i] == t.trades[i];
      }
    }
  }

  lemma SellIsExit(s: Sim, k: nat, price: real, qty: real, size: real, action: Action, reason: Reason, ts: int)
    requires k < |s.positions| && !reason.EngulfingEntry? && !reason.FvgEntry?
    ensures OnlyExits(s, Sell(s, k, price, qty, size, action, reason, ts))
    ensures OnlyExits(s, Shut(Sell(s, k, price, qty, size, action, reason, ts), k, ts, Some(reason)))
  {
    hide RoundPnl, Profit, Bump, Deduct;
  }

  lemma TakesAreExits(s: Sim, k: nat, price: real, ts: int)
    requires k < |s.positions|
    ensures OnlyExits(s, TakeFirst(s, k, price, ts)) && OnlyExits(s, TakeSecond(s, k, price, ts))
  {
    hide RoundPnl, Profit, Bump, Deduct, TargetQty, RoundTo, TargetReached;
  }

  lemma EmergencyIsExit(s: Sim, k: nat, ts: int, tf: Frame, w: Sight, rules: Rules, evals: Evaluators)
    requires k < |s.positions| && w.own != []
    ensures OnlyExits(s, Emergency(s, k, ts, tf, w, rules, evals))
  {
    hide SellEmergency, EmergencyQty;
    var bar := w.own[|w.own| - 1];
    var signal := evals.engulfing(w.own, tf);
    if signal.Some? {
      var fired := s.(exitFired := s.exitFired[ExitKey(tf, signal.value) := bar.ts]);
      SellEmergencyIsExit(fired, k, bar.close, EmergencyQty(s.positions[k], rules), ts, tf, rules);
    }
  }

  lemma SellEmergencyIsExit(s: Sim, k: nat, price: real, qty: real, ts: int, tf: Frame, rules: Rules)
    requires k < |s.positions|
    ensures OnlyExits(s, SellEmergency(s, k, price, qty, ts, tf, rules))
  {
    hide RoundPnl, Profit, Bump, Deduct, RoundTo, Empties;
  }

  lemma SettleIsExit(s: Sim, k: nat, ts: int, tf: Frame, w: Sight, rules: Rules, evals: Evaluators)
    requires k < |s.positions| && w.own != []
    ensures OnlyExits(s, Settle(s, k, ts, tf, w, rules, evals))
  {
    EmergencyIsExit(s, k, ts, tf, w, rules, evals);
    hide Emergency, RoundPnl, Profit, Bump, Deduct, AllDone, TimedOut, TargetReached;
  }

  lemma TickIsExit(s: Sim, k: nat, ts: int, tf: Frame, w: Sight, rules: Rules, evals: Evaluators)
    requires k < |s.positions| && w.own != []
    ensures OnlyExits(s, Tick(s, k, ts, tf, w, rules, evals))
  {
    hide TakeFirst, TakeSecond, Settle, Sell, StopReached, OnlyExits;
    var p, price := s.positions[k], w.own[|w.own| - 1].close;
    var one := TakeFirst(s, k, price, ts);
    var two := TakeSecond(one, k, price, ts);
    TakesAreExits(s, k, price, ts);
    TakesAreExits(one, k, price, ts);
    SettleIsExit(two, k, ts, tf, w, rules, evals);
    ExitsChain(s, one, two);
    ExitsChain(s, two, Settle(two, k, ts, tf, w, rules, evals));
    PushIsExit(s, Settle(two, k, ts, tf, w, rules, evals));
    SellIsExit(s, k, price, p.remaining, p.remaining, Closing, SlHit, ts);
    PushIsExit(s, SellAll(s, k, price, p.remaining, SlHit, ts));
    ShutIsExit(s, k, ts);
  }

  lemma PushIsExit(s: Sim, t: Sim)
    requires OnlyExits(s, t)
    ensures OnlyExits(s, Push(t))
  {
  }

  lemma ShutIsExit(s: Sim, k: nat, ts: int)
    requires k < |s.positions|
    ensures OnlyExits(s, Shut(s, k, ts, None))
  {
  }

  lemma EnterKeepsDebounced(s: Sim, key: EntryKey, side: Side, tf: Frame, reason: Reason, price: real, ts: int,
                            entryCandles: seq<Candle>, triple: Option<Triple>, w: Sight, rules: Rules,
                                evals: Evaluators)
    requires Debounced(s) && ts - LastOf(s.entryFired, key, 0) >= FrameMs(tf)
    requires
      || (reason == EngulfingEntry(tf) && key == EngulfingKey(tf, side))
      || (reason == FvgEntry(tf) && key == FvgKey(tf, side))
    ensures Debounced(Enter(s.(entryFired := s.entryFired[key := ts]), side, tf, reason, price, ts, entryCandles,
                            triple, w, rules, evals))
  {
    hide ComputeSize, StopFor, TargetsFor;
  }

  lemma LookForEngulfingKeepsDebounced(s: Sim, ts: int, tf: Frame, w: Sight, rules: Rules, evals: Evaluators)
    requires w.own != [] && Debounced(s)
    ensures Debounced(LookForEngulfing(s, ts, tf, w, rules, evals).s)
  {
    var signal := evals.engulfing(w.own, tf);
    if signal.Some? && ts - LastOf(s.entryFired, EngulfingKey(tf, signal.value), 0) >= FrameMs(tf) {
      EnterKeepsDebounced(s, EngulfingKey(tf, signal.value), signal.value, tf, EngulfingEntry(tf),
                          w.own[|w.own| - 1].close, ts, w.own, None, w, rules, evals);
    }
    hide Enter, KeyOf, FrameMs;
  }

  lemma LookForFvgKeepsDebounced(s: Sim, fvgTf: Frame, ts: int, w: Sight, rules: Rules, evals: Evaluators)
    requires w.own != [] && Debounced(s)
    ensures Debounced(LookForFvg(s, fvgTf, ts, w, rules, evals).s)
  {
    var candles, price := Of(w.known, fvgTf), w.own[|w.own| - 1].close;
    var signal := evals.fvg(fvgTf, price, ts, w.known);
    if signal.Some? && ts - LastOf(s.entryFired, FvgKey(fvgTf, signal.value.side), 0) >= FrameMs(fvgTf) {
      EnterKeepsDebounced(s, FvgKey(fvgTf, signal.value.side), signal.value.side, fvgTf, FvgEntry(fvgTf), price, ts,
                          candles,
                          TripleOf(candles, signal.value.completion), w, rules, evals);
    }
    hide Enter, KeyOf, FrameMs;
  }

  lemma {:induction false} LookForFvgsKeepsDebounced(s: Sim, frames: seq<Frame>, ts: int, w: Sight, rules: Rules,
                                                     evals: Evaluators)
    requires w.own != [] && Debounced(s)
    ensures Debounced(LookForFvgs(s, frames, ts, w, rules, evals))
    decreases |frames|
  {
    if frames != [] {
      hide LookForFvg, Debounced;
      LookForFvgKeepsDebounced(s, frames[0], ts, w, rules, evals);
      LookForFvgsKeepsDebounced(LookForFvg(s, frames[0], ts, w, rules, evals).s, frames[1..], ts, w, rules, evals);
    }
  }

  lemma PushKeepsDebounced(s: Sim)
    requires Debounced(s)
    ensures Debounced(Push(s))
  {
  }

  lemma StepKeepsDebounced(s: Sim, ts: int, tf: Frame, w: Sight, rules: Rules, evals: Evaluators)
    requires Debounced(s)
    ensures Debounced(Step(s, ts, tf, w, rules, evals))
  {
    hide Debounced, OnlyExits, Tick, LookForEngulfing, LookForFvgs, FindOpen;
    if |w.own| >= 3 {
      match FindOpen(s.positions, 0)
      case Some(k) =>
        TickIsExit(s, k, ts, tf, w, rules, evals);
        ExitsKeepDebounced(s, Tick(s, k, ts, tf, w, rules, evals));
      case None =>
        var looked := LookForEngulfing(s, ts, tf, w, rules, evals);
        LookForEngulfingKeepsDebounced(s, ts, tf, w, rules, evals);
        LookForFvgsKeepsDebounced(looked.s, FVG_FRAMES, ts, w, rules, evals);
        PushKeepsDebounced(looked.s);
        PushKeepsDebounced(LookForFvgs(looked.s, FVG_FRAMES, ts, w, rules, evals));
    }
  }

  /** Over every run, entries of one kind, timeframe and side are at least one candle length apart. */
  lemma {:induction false} EntriesAreSpaced(sets: seq<CandleSet>, events: seq<Event>, deposit: real, rules: Rules,
                                            evals: Evaluators, n: nat)
    requires n <= |events| && AllEventsOf(sets, events)
    ensures Debounced(After(sets, events, deposit, rules, evals, n))
  {
    hide Debounced, Step, AllEventsOf, After, SightAt, CandlesOf;
    if n == 0 {
      AfterStarts(sets, events, deposit, rules, evals);
      assert Debounced(Start(deposit)) by { StartIsDebounced(deposit); }
    } else {
      EntriesAreSpaced(sets, events, deposit, rules, evals, n - 1);
      AfterUnfolds(sets, events, deposit, rules, evals, n);
      var e := events[n - 1];
      StepKeepsDebounced(After(sets, events, deposit, rules, evals, n - 1), e.ts, e.tf, SightAt(sets, e), rules, evals);
    }
  }

  lemma StartIsDebounced(deposit: real)
    ensures Debounced(Start(deposit))
  {
  }

  // ---- no look-ahead ----

  lemma SameSightAt(a: seq<CandleSet>, b: seq<CandleSet>, from: int, toA: int, toB: int, t: int, i: nat)
    requires AgreeUpTo(a, b, t) && t <= toA && t <= toB && i < EventCount(TimelineOf(a, from, toA), t)
    ensures i < EventCount(TimelineOf(b, from, toB), t)
    ensures var ea, eb := TimelineOf(a, from, toA)[i], TimelineOf(b, from, toB)[i];
      ea == eb && ea.index < |CandlesOf(a, ea.tf)| && ea.index < |CandlesOf(b, ea.tf)|
         && SightAt(a, ea) == SightAt(b, ea)
  {
    hide TimelineOf, EventCount, AgreeUpTo, SightAt;
    SameTimeline(a, b, from, toA, toB, t);
    var n := EventCount(TimelineOf(a, from, toA), t);
    var e := TimelineOf(a, from, toA)[i];
    assert e == TimelineOf(a, from, toA)[..n][i] == TimelineOf(b, from, toB)[..n][i];
    TimelineIsExact(a, from, toA, e);
    TimelineIsExact(b, from, toB, e);
    SameSight(a, b, from, toA, toB, t, e);
  }

  lemma {:induction false} SameStates(a: seq<CandleSet>, b: seq<CandleSet>, from: int, toA: int, toB: int, t: int,
                                      deposit: real, rules: Rules, evals: Evaluators, n: nat)
    requires AgreeUpTo(a, b, t) && t <= toA && t <= toB && n <= EventCount(TimelineOf(a, from, toA), t)
    requires AllEventsOf(a, TimelineOf(a, from, toA)) && AllEventsOf(b, TimelineOf(b, from, toB))
    ensures n <= |TimelineOf(b, from, toB)|
    ensures After(a, TimelineOf(a, from, toA), deposit, rules, evals, n)
         == After(b, TimelineOf(b, from, toB), deposit, rules, evals, n)
  {
    hide TimelineOf, EventCount, AgreeUpTo, SightAt, AllEventsOf, Step, After, CandlesOf;
    var ea, eb := TimelineOf(a, from, toA), TimelineOf(b, from, toB);
    if n == 0 {
      AfterStarts(a, ea, deposit, rules, evals);
      AfterStarts(b, eb, deposit, rules, evals);
    } else {
      SameStates(a, b, from, toA, toB, t, deposit, rules, evals, n - 1);
      SameSightAt(a, b, from, toA, toB, t, n - 1);
      AfterUnfolds(a, ea, deposit, rules, evals, n);
      AfterUnfolds(b, eb, deposit, rules, evals, n);
    }
  }

  /**
   No look-ahead. Two inputs that agree on every candle closing at or before
   `t`, with runs that end no earlier than `t`, go through the same events up to
   `t` and are in the same state after them: the same positions, trades, curve,
   equity, debounce times and counters. Both complete runs only add to these records.
   */
  lemma NoLookAhead(a: seq<CandleSet>, b: seq<CandleSet>, from: int, toA: int, toB: int, t: int,
                    deposit: real, rules: Rules, evals: Evaluators)
    requires AgreeUpTo(a, b, t) && t <= toA && t <= toB
    ensures var ea, eb, n := TimelineOf(a, from, toA), TimelineOf(b, from, toB),
        EventCount(TimelineOf(a, from, toA), t);
      && AllEventsOf(a, ea) && AllEventsOf(b, eb)
      && n == EventCount(eb, t) && ea[..n] == eb[..n]
      && (forall i :: n <= i < |ea| ==> ea[i].ts > t) && (forall i :: n <= i < |eb| ==> eb[i].ts > t)
      && var s := After(a, ea, deposit, rules, evals, n);
         && s == After(b, eb, deposit, rules, evals, n)
         && Continues(s, After(a, ea, deposit, rules, evals, |ea|))
         && Continues(s, After(b, eb, deposit, rules, evals, |eb|))
  {
    hide TimelineOf, EventCount, AgreeUpTo, SightAt, Step, After, Continues;
    var ea, eb, n := TimelineOf(a, from, toA), TimelineOf(b, from, toB), EventCount(TimelineOf(a, from, toA), t);
    TimelineInRange(a, from, toA);
    TimelineInRange(b, from, toB);
    SameTimeline(a, b, from, toA, toB, t);
    SameStates(a, b, from, toA, toB, t, deposit, rules, evals, n);
    HistoryIsKept(a, ea, deposit, rules, evals, n, |ea|);
    HistoryIsKept(b, eb, deposit, rules, evals, n, |eb|);
    LaterEvents(a, from, toA, t);
    LaterEvents(b, from, toB, t);
  }

  lemma LaterEvents(sets: seq<CandleSet>, from: int, to: int, t: int)
    ensures var events := TimelineOf(sets, from, to);
      forall i :: EventCount(events, t) <= i < |events| ==> events[i].ts > t
  {
    BeforeIsPreorder();
    Sorting.SortSorts(AllEvents(sets, FrameOrder(sets), from, to), Before);
    UntilIsPrefix(TimelineOf(sets, from, to), t);
  }

  // ---- the end of a run ----

  /** What the run reports: closed positions, how many of them won, and the rounded profit. */
  datatype Summary = Summary(total: nat, wins: nat, losses: nat, realized: real)

  function CountClosed(positions: seq<Position>, won: Option<bool>): nat {
    if positions == [] then 0
    else
      var p := positions[|positions| - 1];
      CountClosed(positions[..|positions| - 1], won)
      + if !p.isOpen && (won == None || won == Some(p.realized > 0.0)) then 1 else 0
  }

  function ClosedRealized(positions: seq<Position>): real {
    if positions == [] then 0.0
    else
      var p := positions[|positions| - 1];
      ClosedRealized(positions[..|positions| - 1]) + if p.isOpen then 0.0 else p.realized
  }

  function Summarize(s: Sim): Summary {
    Summary(CountClosed(s.positions, None), CountClosed(s.positions, Some(true)), CountClosed(s.positions, Some(false)),
            RoundPnl(ClosedRealized(s.positions)))
  }

  lemma {:induction false} AllClosed(positions: seq<Position>)
    requires forall i :: 0 <= i < |positions| ==> !positions[i].isOpen
    ensures CountClosed(positions, None) == |positions|
    ensures CountClosed(positions, Some(true)) + CountClosed(positions, Some(false)) == |positions|
    ensures ClosedRealized(positions) == SumRealized(positions)
  {
    if positions != [] {
      AllClosed(positions[..|positions| - 1]);
    }
  }

  /** After the force-close every position that was ever opened is closed. */
  lemma FinishKeepsSound(s: Sim, events: seq<Event>, end: int, deposit: real)
    requires Sound(s, deposit)
    ensures var t := Finish(s, events, end);
      Sound(t, deposit) && Extends(s, t) && NoneOpen(t) && |t.positions| == |s.positions|
  {
    FindOpenExact(s.positions, 0);
    if FindOpen(s.positions, 0).Some? {
      var k := FindOpen(s.positions, 0).value;
      var price := if events != [] then events[|events| - 1].price else s.positions[k].entry;
      BusyStarts(s, k, deposit);
      SellAllKeepsBusy(s, s, k, price, 0.0, BacktestEnd, end, deposit);
      hide Ledger, SellAll;
      BusyEnds(s, SellAll(s, k, price, 0.0, BacktestEnd, end), k, deposit);
    } else {
      assert Extends(s, s);
    }
  }

  /** The state that a complete run reports on. */
  ghost function Result(sets: seq<CandleSet>, from: int, to: int, deposit: real, rules: Rules, evals: Evaluators): Sim {
    var events := TimelineOf(sets, from, to);
    TimelineInRange(sets, from, to);
    Finish(After(sets, events, deposit, rules, evals, |events|), events, to)
  }

  lemma ReportOf(s: Sim, deposit: real)
    requires Ledger(s, deposit) && NoneOpen(s)
    ensures var report := Summarize(s);
      && report.total == |s.positions| == report.wins + report.losses
      && -HalfCents(Closings(s.trades) + 1) <= s.equity - deposit - report.realized <= HalfCents(Closings(s.trades) + 1)
  {
    AllClosed(s.positions);
    RoundPnlIsClose(ClosedRealized(s.positions));
    hide SumPnl, TallyOf, Closings, RoundPnl, CountClosed, SumRealized, ClosedRealized;
  }

  /**
   The report of a complete run agrees with its equity: every position is
   closed and counted as a win or a loss, and the reported profit differs from
   the change in equity by at most half a cent per closing record and half a
   cent for its own rounding.
   */
  lemma ReportMatchesEquity(sets: seq<CandleSet>, from: int, to: int, deposit: real, rules: Rules, evals: Evaluators)
    ensures var s := Result(sets, from, to, deposit, rules, evals);
      var report := Summarize(s);
      && NoneOpen(s)
      && report.total == |s.positions| == report.wins + report.losses
      && -HalfCents(Closings(s.trades) + 1) <= s.equity - deposit - report.realized <= HalfCents(Closings(s.trades) + 1)
  {
    hide After, TimelineOf, Finish, AllEventsOf, Shaped, Live, Ledger, Summarize, NoneOpen, HalfCents, Closings;
    var events := TimelineOf(sets, from, to);
    TimelineInRange(sets, from, to);
    RunIsSound(sets, events, deposit, rules, evals, |events|);
    FinishKeepsSound(After(sets, events, deposit, rules, evals, |events|), events, to, deposit);
    ReportOf(Result(sets, from, to, deposit, rules, evals), deposit);
  }
}
