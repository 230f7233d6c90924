/**
 What every event of the canonical backtest does, told from the position, the price
 and the rules: which records it appends, with which quantities, and what becomes of
 the position; and which signals open a position, with which size and levels.
 */
module EventAudit {
  import opened Prelude
  import opened Candles
  import opened Timeline
  import opened CanonicalBacktest
  import opened BacktestEngine

  /** `x` is `v` rounded to a multiple of `1 / scale`, ties upwards. */
  predicate IsRounded(x: real, v: real, scale: real) {
    (x * scale).Floor as real == x * scale && v * scale - 0.5 < x * scale <= v * scale + 0.5
  }

  lemma RoundingRounds(v: real, scale: real)
    requires scale > 0.0
    ensures IsRounded(RoundTo(v, scale), v, scale)
  {
    var n := (v * scale + 0.5).Floor;
    assert n as real <= v * scale + 0.5 < n as real + 1.0;
    assert RoundTo(v, scale) * scale == n as real;
  }

  /** A price at or beyond a level on the winning side. */
  predicate Reaches(side: Side, price: real, level: real) {
    match side case Long => level <= price case Short => price <= level
  }

  /** A price at or beyond a level on the losing side. */
  predicate FallsTo(side: Side, price: real, level: real) {
    match side case Long => price <= level case Short => level <= price
  }

  /** The state after an event has these records on top, whose profits are told elsewhere. */
  ghost predicate Appends(s: Sim, t: Sim, records: seq<Record>) {
    && |t.trades| == |s.trades| + |records| && t.trades[..|s.trades|] == s.trades
    && forall i :: 0 <= i < |records| ==> t.trades[|s.trades| + i].(pnl := 0.0) == records[i]
  }

  // ---- an event with an open position ----

  /** The first target is 34 parts of a hundred of the size with three targets, half of it with two, all with one. */
  predicate FirstShare(qty: real, p: Position) {
    IsRounded(qty, p.size * (if |p.targets| >= 3 then 0.34 else if |p.targets| == 2 then 0.5 else 1.0), 1_000_000.0)
  }

  predicate SecondShare(qty: real, p: Position) {
    IsRounded(qty, p.size * (if |p.targets| >= 3 then 0.33 else 0.5), 1_000_000.0)
  }

  /** Target `j` is still to be taken and is reached. */
  predicate Hits(p: Position, j: nat, done: bool, price: real) {
    !done && j < |p.targets| && Reaches(p.side, price, p.targets[j])
  }

  function Percent(amount: real, pct: real): real { amount * (pct / 100.0) }

  function Left(held: real, qty: real): real { if held > qty then held - qty else 0.0 }

  /** A reverse signal on an exit timeframe, on a bar later than the last one acted on. */
  predicate Reverses(s: Sim, p: Position, tf: Frame, w: Sight, rules: Rules, evals: Evaluators)
    requires w.own != []
  {
    var against := match p.side case Long => Short case Short => Long;
    && rules.exitClosePct > 0.0
    && (if rules.exitFrames == [] then tf == Hour1 else tf in rules.exitFrames)
    && evals.engulfing(w.own, tf) == Some(against)
    && (ExitKey(tf, against) in s.exitFired ==> s.exitFired[ExitKey(tf, against)] < w.own[|w.own| - 1].ts)
    && (ExitKey(tf, against) !in s.exitFired ==> w.own[|w.own| - 1].ts > -1)
  }

  /** The bars of the position's own timeframe that have passed without the first target. */
  predicate Overdue(p: Position, done1: bool, ts: int, rules: Rules) {
    rules.timeStopBars > 0 && !done1 && (ts - p.openedAt) / FrameMs(p.frame) >= rules.timeStopBars
  }

  /** How an event ends for a position that its stop spared: sold in full, found empty, cut back, or left alone. */
  datatype Ending = Goes(reason: Reason, shown: real) | Empty | Cuts(qty: real) | Stays

  /** The shares of the first two targets, and how much of the second one is left to sell. */
  datatype Sales = Sales(first: real, share: real, second: real)

  function HeldBetween(p: Position, x: Sales, price: real): real {
    if Hits(p, 0, p.tp1Done, price) then Left(p.remaining, x.first) else p.remaining
  }

  function HeldAfter(p: Position, x: Sales, price: real): real {
    var held := HeldBetween(p, x, price);
    if Hits(p, 1, p.tp2Done, price) then Left(held, x.second) else held
  }

  /** The second target never sells more than the first has left. */
  predicate SalesTold(p: Position, x: Sales, price: real) {
    && (Hits(p, 0, p.tp1Done, price) ==> FirstShare(x.first, p))
    && (Hits(p, 1, p.tp2Done, price) ==>
          && SecondShare(x.share, p)
          && x.second == if x.share <= HeldBetween(p, x, price) then x.share else HeldBetween(p, x, price))
  }

  predicate EndingTold(e: Ending, s: Sim, p: Position, x: Sales, price: real, ts: int, tf: Frame, w: Sight,
                       rules: Rules, evals: Evaluators)
    requires w.own != []
  {
    var done1, done2 := p.tp1Done || Hits(p, 0, p.tp1Done, price), p.tp2Done || Hits(p, 1, p.tp2Done, price);
    var held := HeldAfter(p, x, price);
    if Hits(p, 2, p.tp3Done, price) then e == Goes(Tp3Full, held)
    else if held <= 0.0 then e == Empty
    else if (|p.targets| <= 2 && done2) || (|p.targets| <= 1 && done1) then e == Goes(TpAllDone, 0.0)
    else if Overdue(p, done1, ts, rules) then e == Goes(TimeStop, held)
    else if Reverses(s, p, tf, w, rules, evals) then
      e.Cuts? && IsRounded(e.qty, Percent(held, rules.exitClosePct), 1_000_000.0)
    else e == Stays
  }

  /** The records of the targets that an event reaches, in order. */
  function TargetRecords(k: nat, p: Position, x: Sales, price: real, ts: int): seq<Record> {
    (if Hits(p, 0, p.tp1Done, price) then [Record(k, p.side, Partial, price, x.first, 0.0, Tp1Partial, ts)] else [])
    + (if Hits(p, 1, p.tp2Done, price) then [Record(k, p.side, Partial, price, x.second, 0.0, Tp2Partial, ts)] else [])
  }

  /** The record of its ending, if it sells anything. */
  function EndingRecords(k: nat, p: Position, x: Sales, e: Ending, price: real, ts: int, tf: Frame): seq<Record> {
    match e
    case Goes(reason, shown) => [Record(k, p.side, Closing, price, shown, 0.0, reason, ts)]
    case Cuts(qty) =>
      if qty <= 0.0 then []
      else [Record(k, p.side, if Left(HeldAfter(p, x, price), qty) <= 0.0 then Closing else Partial, price, qty, 0.0,
                   EmergencyExit(tf), ts)]
    case _ => []
  }

  /** What the ending leaves of the position. */
  function HeldFinally(p: Position, x: Sales, e: Ending, price: real): real {
    match e
    case Goes(_, _) => 0.0
    case Cuts(qty) => if qty <= 0.0 then HeldAfter(p, x, price) else Left(HeldAfter(p, x, price), qty)
    case _ => HeldAfter(p, x, price)
  }

  /** A cut that leaves something of the position, by less than all of it. */
  predicate CutsBack(p: Position, x: Sales, e: Ending, price: real, rules: Rules) {
    e.Cuts? && e.qty > 0.0 && Left(HeldAfter(p, x, price), e.qty) > 0.0 && rules.exitClosePct < 100.0
  }

  /** The reason for which the event closes the position. */
  function Closes(p: Position, x: Sales, e: Ending, price: real, tf: Frame): Option<Reason> {
    match e
    case Goes(reason, _) => Some(reason)
    case Empty => Some(TpAllDone)
    case Cuts(qty) => if qty > 0.0 && Left(HeldAfter(p, x, price), qty) <= 0.0 then Some(EmergencyExit(tf)) else None
    case Stays => None
  }

  /**
   The position after the event: its marks, what it holds, its stop at the entry once
   the first target or a cut moved it there, and when and why it was closed.
   */
  predicate PositionTold(q: Position, p: Position, x: Sales, e: Ending, price: real, ts: int, tf: Frame, rules: Rules) {
    && q.side == p.side && q.entry == p.entry && q.size == p.size && q.targets == p.targets
    && q.openedAt == p.openedAt && q.frame == p.frame
    && (q.tp1Done <==> p.tp1Done || Hits(p, 0, p.tp1Done, price))
    && (q.tp2Done <==> p.tp2Done || Hits(p, 1, p.tp2Done, price))
    && (q.tp3Done <==> p.tp3Done || Hits(p, 2, p.tp3Done, price))
    && q.remaining == HeldFinally(p, x, e, price)
    && (if Hits(p, 0, p.tp1Done, price) || CutsBack(p, x, e, price, rules)
        then IsRounded(q.stop, p.entry, 100_000_000.0) else q.stop == p.stop)
    && (match Closes(p, x, e, price, tf)
        case None => q.isOpen
        case Some(reason) => !q.isOpen && q.closedAt == Some(ts) && q.closeReason == Some(reason))
  }

  /** The counters move with what the event sells. */
  predicate CountsTold(before: Counts, after: Counts, p: Position, e: Ending, price: real) {
    && after.sl == before.sl
    && after.tp1 == before.tp1 + (if Hits(p, 0, p.tp1Done, price) then 1 else 0)
    && after.tp2 == before.tp2 + (if Hits(p, 1, p.tp2Done, price) then 1 else 0)
    && after.tp3 == before.tp3 + (if Hits(p, 2, p.tp3Done, price) then 1 else 0)
    && after.emergency == before.emergency + (if e.Cuts? && e.qty > 0.0 then 1 else 0)
  }

  /** An event that the position survives its stop on. */
  ghost predicate SparedTold(s: Sim, t: Sim, k: nat, x: Sales, e: Ending, ts: int, tf: Frame, w: Sight, rules: Rules,
                             evals: Evaluators)
    requires k < |s.positions| && k < |t.positions| && w.own != []
  {
    var p, price := s.positions[k], w.own[|w.own| - 1].close;
    && SalesTold(p, x, price) && EndingTold(e, s, p, x, price, ts, tf, w, rules, evals)
    && Appends(s, t, TargetRecords(k, p, x, price, ts) + EndingRecords(k, p, x, e, price, ts, tf))
    && CountsTold(s.counts, t.counts, p, e, price)
    && PositionTold(t.positions[k], p, x, e, price, ts, tf, rules)
    && t.exitFired == if e.Cuts? then s.exitFired[ExitKey(tf, Opposite(p.side)) := w.own[|w.own| - 1].ts]
                      else s.exitFired
  }

  /** An event that stops the position out: everything is sold at the price. */
  ghost predicate StoppedTold(s: Sim, t: Sim, k: nat, price: real, ts: int)
    requires k < |s.positions| && k < |t.positions|
  {
    var p, q := s.positions[k], t.positions[k];
    var records := [Record(k, p.side, Closing, price, p.remaining, 0.0, SlHit, ts)];
    && Appends(s, t, records) && t.counts == s.counts.(sl := s.counts.sl + 1)
    && q == p.(remaining := 0.0, realized := q.realized, isOpen := false, closedAt := Some(ts),
               closeReason := Some(SlHit))
    && t.exitFired == s.exitFired
  }

  /**
   What an event does to an open position: its stop comes first; a spared position
   sells its targets, and then goes, is cut back or stays as the rules say.
   */
  ghost predicate TickTold(s: Sim, t: Sim, k: nat, ts: int, tf: Frame, w: Sight, rules: Rules, evals: Evaluators)
    requires k < |s.positions| == |t.positions| && w.own != []
  {
    var p, price := s.positions[k], w.own[|w.own| - 1].close;
    if FallsTo(p.side, price, p.stop) then StoppedTold(s, t, k, price, ts)
    else exists x: Sales, e: Ending :: SparedTold(s, t, k, x, e, ts, tf, w, rules, evals)
  }

  // ---- the proof, sale by sale ----

  lemma AppendsChain(s: Sim, t: Sim, u: Sim, a: seq<Record>, b: seq<Record>)
    requires Appends(s, t, a) && Appends(t, u, b)
    ensures Appends(s, u, a + b)
  {
    assert u.trades[..|s.trades|] == u.trades[..|t.trades|][..|s.trades|];
    forall i | 0 <= i < |a + b| ensures u.trades[|s.trades| + i].(pnl := 0.0) == (a + b)[i] {
      if i < |a| {
        assert u.trades[|s.trades| + i] == u.trades[..|t.trades|][|s.trades| + i];
      } else {
        assert u.trades[|s.trades| + i] == u.trades[|t.trades| + (i - |a|)];
      }
    }
  }

  lemma AppendsNone(s: Sim, t: Sim)
    requires t.trades == s.trades
    ensures Appends(s, t, [])
  {
  }

  lemma TradedAppends(s: Sim, k: nat, after: Position, record: Record)
    requires k < |s.positions|
    ensures Appends(s, Traded(s, k, after, record), [record.(pnl := 0.0)])
  {
    hide Bump;
  }

  /** A position marked, and what it holds, after some sales; the money is told elsewhere. */
  predicate Became(q: Position, p: Position, tp1: bool, tp2: bool, held: real, moved: bool) {
    && q == p.(tp1Done := tp1, tp2Done := tp2, remaining := held, realized := q.realized, stop := q.stop)
    && (if moved then IsRounded(q.stop, p.entry, 100_000_000.0) else q.stop == p.stop)
  }

  /** The state between the targets of an event and its ending. */
  ghost predicate TargetsTold(s: Sim, m: Sim, k: nat, x: Sales, price: real, ts: int)
    requires k < |s.positions| == |m.positions|
  {
    var p := s.positions[k];
    && SalesTold(p, x, price)
    && Appends(s, m, TargetRecords(k, p, x, price, ts))
    && m.counts == s.counts.(tp1 := s.counts.tp1 + (if Hits(p, 0, p.tp1Done, price) then 1 else 0),
                             tp2 := s.counts.tp2 + (if Hits(p, 1, p.tp2Done, price) then 1 else 0))
    && Became(m.positions[k], p, p.tp1Done || Hits(p, 0, p.tp1Done, price), p.tp2Done || Hits(p, 1, p.tp2Done, price),
              HeldAfter(p, x, price), Hits(p, 0, p.tp1Done, price))
    && m.exitFired == s.exitFired
  }

  lemma FirstTold(s: Sim, k: nat, price: real, ts: int)
    requires k < |s.positions|
    ensures var p, m, qty := s.positions[k], TakeFirst(s, k, price, ts), TargetQty(s.positions[k], 0);
      && (Hits(p, 0, p.tp1Done, price) ==> FirstShare(qty, p))
      && (if Hits(p, 0, p.tp1Done, price) then
            && Appends(s, m, [Record(k, p.side, Partial, price, qty, 0.0, Tp1Partial, ts)])
            && m.counts == s.counts.(tp1 := s.counts.tp1 + 1)
            && Became(m.positions[k], p, true, p.tp2Done, Left(p.remaining, qty), true)
          else m == s)
      && m.exitFired == s.exitFired
  {
    var p, qty := s.positions[k], TargetQty(s.positions[k], 0);
    TakeFirstIs(s, k, price, ts);
    RoundingRounds(p.size * Split(|p.targets|, 0), LOTS);
    RoundingRounds(p.entry, TICKS);
    hide RoundTo, IsRounded, Profit, RoundPnl, TakeFirst;
    if !p.tp1Done && TargetReached(p, 0, price) {
      TradedAppends(s, k, Deduct(p, price, qty).(tp1Done := true, stop := RoundTo(p.entry, TICKS)),
                    Record(k, p.side, Partial, price, qty, Pnl(p, price, qty), Tp1Partial, ts));
    }
    hide Appends;
  }

  lemma SecondTold(s: Sim, k: nat, price: real, ts: int)
    requires k < |s.positions|
    ensures var p, m, share := s.positions[k], TakeSecond(s, k, price, ts), TargetQty(s.positions[k], 1);
      var qty := Min(share, p.remaining);
      && (Hits(p, 1, p.tp2Done, price) ==> SecondShare(share, p))
      && (if Hits(p, 1, p.tp2Done, price) then
            && Appends(s, m, [Record(k, p.side, Partial, price, qty, 0.0, Tp2Partial, ts)])
            && m.counts == s.counts.(tp2 := s.counts.tp2 + 1)
            && Became(m.positions[k], p, p.tp1Done, true, Left(p.remaining, qty), false)
          else m == s)
      && m.exitFired == s.exitFired
  {
    var p, share := s.positions[k], TargetQty(s.positions[k], 1);
    var qty := Min(share, p.remaining);
    TakeSecondIs(s, k, price, ts);
    RoundingRounds(p.size * Split(|p.targets|, 1), LOTS);
    hide RoundTo, IsRounded, Profit, RoundPnl, TakeSecond;
    if !p.tp2Done && TargetReached(p, 1, price) {
      TradedAppends(s, k, Deduct(p, price, qty).(tp2Done := true),
                    Record(k, p.side, Partial, price, qty, Pnl(p, price, qty), Tp2Partial, ts));
    }
    hide Appends;
  }

  /** The first two targets of an event. */
  lemma TargetsAreTold(s: Sim, k: nat, price: real, ts: int) returns (x: Sales)
    requires k < |s.positions|
    ensures TargetsTold(s, TakeSecond(TakeFirst(s, k, price, ts), k, price, ts), k, x, price, ts)
  {
    var p, one := s.positions[k], TakeFirst(s, k, price, ts);
    var m, q := TakeSecond(one, k, price, ts), one.positions[k];
    FirstTold(s, k, price, ts);
    SecondTold(one, k, price, ts);
    SameShare(p, q, 1);
    x := Sales(TargetQty(p, 0), TargetQty(p, 1), Min(TargetQty(p, 1), q.remaining));
    AppendsNone(s, s);
    AppendsNone(one, one);
    AppendsChain(s, one, m,
                 if Hits(p, 0, p.tp1Done, price) then [Record(k, p.side, Partial, price, x.first, 0.0, Tp1Partial, ts)]
                 else [],
                 if Hits(p, 1, p.tp2Done, price) then [Record(k, p.side, Partial, price, x.second, 0.0, Tp2Partial, ts)]
                 else []);
    hide TakeFirst, TakeSecond, TargetQty, Appends, IsRounded;
  }

  /** The targets and the ending of an event put together. */
  lemma EndingCompletes(s: Sim, m: Sim, t: Sim, k: nat, x: Sales, e: Ending, ts: int, tf: Frame, w: Sight,
                        rules: Rules, evals: Evaluators)
    requires k < |s.positions| == |m.positions| == |t.positions| && w.own != []
    requires var p, price := s.positions[k], w.own[|w.own| - 1].close;
      && TargetsTold(s, m, k, x, price, ts)
      && EndingTold(e, s, p, x, price, ts, tf, w, rules, evals)
      && Appends(m, t, EndingRecords(k, p, x, e, price, ts, tf))
      && t.counts == m.counts.(tp3 := m.counts.tp3 + (if Hits(p, 2, p.tp3Done, price) then 1 else 0),
                               emergency := m.counts.emergency + (if e.Cuts? && e.qty > 0.0 then 1 else 0))
      && PositionTold(t.positions[k], p, x, e, price, ts, tf, rules)
      && t.exitFired == if e.Cuts? then m.exitFired[ExitKey(tf, Opposite(p.side)) := w.own[|w.own| - 1].ts]
                        else m.exitFired
    ensures SparedTold(s, t, k, x, e, ts, tf, w, rules, evals)
  {
    var p, price := s.positions[k], w.own[|w.own| - 1].close;
    AppendsChain(s, m, t, TargetRecords(k, p, x, price, ts), EndingRecords(k, p, x, e, price, ts, tf));
    hide Appends, EndingTold, PositionTold, TargetRecords, EndingRecords, SalesTold, Became;
  }

  /** A sale of all that is held ends the event. */
  lemma GoneIsTold(s: Sim, m: Sim, k: nat, x: Sales, reason: Reason, shown: real, third: bool, ts: int, tf: Frame,
                   w: Sight, rules: Rules, evals: Evaluators)
    requires k < |s.positions| == |m.positions| && w.own != [] && s.positions[k].isOpen
    requires var p, price := s.positions[k], w.own[|w.own| - 1].close;
      && TargetsTold(s, m, k, x, price, ts)
      && EndingTold(Goes(reason, shown), s, p, x, price, ts, tf, w, rules, evals)
      && (third <==> Hits(p, 2, p.tp3Done, price)) && (third <==> reason == Tp3Full)
      && (reason == Tp3Full || reason == TpAllDone || reason == TimeStop)
    ensures var price, q := w.own[|w.own| - 1].close, m.positions[k];
      SparedTold(s, Traded(m, k, Closed(Deduct(q, price, q.remaining).(tp3Done := q.tp3Done || third), ts, reason),
                           Record(k, q.side, Closing, price, shown, Pnl(q, price, q.remaining), reason, ts)),
                 k, x, Goes(reason, shown), ts, tf, w, rules, evals)
  {
    var p, price, q := s.positions[k], w.own[|w.own| - 1].close, m.positions[k];
    var after := Closed(Deduct(q, price, q.remaining).(tp3Done := q.tp3Done || third), ts, reason);
    var record := Record(k, q.side, Closing, price, shown, Pnl(q, price, q.remaining), reason, ts);
    TradedAppends(m, k, after, record);
    var t := Traded(m, k, after, record);
    hide Appends, EndingTold, TargetRecords, SalesTold, Pnl, Profit, IsRounded;
    EndingCompletes(s, m, t, k, x, Goes(reason, shown), ts, tf, w, rules, evals);
  }

  /** A position found empty is closed without a sale. */
  lemma EmptyIsTold(s: Sim, m: Sim, k: nat, x: Sales, ts: int, tf: Frame, w: Sight, rules: Rules, evals: Evaluators)
    requires k < |s.positions| == |m.positions| && w.own != []
    requires var p, price := s.positions[k], w.own[|w.own| - 1].close;
      && TargetsTold(s, m, k, x, price, ts)
      && EndingTold(Empty, s, p, x, price, ts, tf, w, rules, evals)
    ensures SparedTold(s, m.(positions := m.positions[k := Closed(m.positions[k], ts, TpAllDone)]), k, x, Empty, ts, tf,
                       w, rules, evals)
  {
    var t := m.(positions := m.positions[k := Closed(m.positions[k], ts, TpAllDone)]);
    AppendsNone(m, t);
    hide Appends, TargetRecords, SalesTold, IsRounded;
    EndingCompletes(s, m, t, k, x, Empty, ts, tf, w, rules, evals);
  }

  lemma StaysIsTold(s: Sim, m: Sim, k: nat, x: Sales, ts: int, tf: Frame, w: Sight, rules: Rules, evals: Evaluators)
    requires k < |s.positions| == |m.positions| && w.own != [] && s.positions[k].isOpen
    requires var p, price := s.positions[k], w.own[|w.own| - 1].close;
      && TargetsTold(s, m, k, x, price, ts)
      && EndingTold(Stays, s, p, x, price, ts, tf, w, rules, evals)
    ensures SparedTold(s, m, k, x, Stays, ts, tf, w, rules, evals)
  {
    AppendsNone(m, m);
    hide Appends, TargetRecords, SalesTold, IsRounded;
    EndingCompletes(s, m, m, k, x, Stays, ts, tf, w, rules, evals);
  }

  lemma SameTrades(m: Sim, n: Sim, t: Sim, records: seq<Record>)
    requires m.trades == n.trades && Appends(n, t, records)
    ensures Appends(m, t, records)
  {
  }

  lemma NoThird(qty: real, s: Sim, p: Position, x: Sales, price: real, ts: int, tf: Frame, w: Sight, rules: Rules,
                evals: Evaluators)
    requires w.own != [] && EndingTold(Cuts(qty), s, p, x, price, ts, tf, w, rules, evals)
    ensures !Hits(p, 2, p.tp3Done, price)
  {
    hide Hits, HeldAfter, Reverses, Overdue, IsRounded;
  }

  /** An emergency exit ends the event, whether or not its quantity rounds to something. */
  lemma CutIsTold(s: Sim, m: Sim, k: nat, x: Sales, ts: int, tf: Frame, w: Sight, rules: Rules, evals: Evaluators)
    requires k < |s.positions| == |m.positions| && w.own != [] && s.positions[k].isOpen
    requires var p, price := s.positions[k], w.own[|w.own| - 1].close;
      && TargetsTold(s, m, k, x, price, ts)
      && EndingTold(Cuts(EmergencyQty(m.positions[k], rules)), s, p, x, price, ts, tf, w, rules, evals)
    ensures var bar := w.own[|w.own| - 1];
      var qty := EmergencyQty(m.positions[k], rules);
      var fired := m.(exitFired := m.exitFired[ExitKey(tf, Opposite(s.positions[k].side)) := bar.ts]);
      SparedTold(s, if qty <= 0.0 then fired else SellEmergency(fired, k, bar.close, qty, ts, tf, rules), k, x,
                 Cuts(qty), ts, tf, w, rules, evals)
  {
    hide Appends, EndingTold, TargetRecords, SalesTold, Pnl, Profit, IsRounded, SellEmergency, EmergencyQty, RoundTo;
    var bar, q, qty := w.own[|w.own| - 1], m.positions[k], EmergencyQty(m.positions[k], rules);
    var fired := m.(exitFired := m.exitFired[ExitKey(tf, Opposite(s.positions[k].side)) := bar.ts]);
    SellEmergencyIs(fired, k, bar.close, qty, ts, tf, rules);
    RoundingRounds(q.entry, TICKS);
    var t := if qty <= 0.0 then fired else SellEmergency(fired, k, bar.close, qty, ts, tf, rules);
    if qty > 0.0 {
      var left := Deduct(q, bar.close, qty);
      var after := if left.remaining <= 0.0 then Closed(left, ts, EmergencyExit(tf))
                   else if rules.exitClosePct < 100.0 then left.(stop := RoundTo(q.entry, TICKS)) else left;
      TradedAppends(fired, k, after, Record(k, q.side, if left.remaining <= 0.0 then Closing else Partial, bar.close,
                                            qty, Pnl(q, bar.close, qty), EmergencyExit(tf), ts));
    } else {
      AppendsNone(fired, fired);
    }
    SameTrades(m, fired, t, EndingRecords(k, s.positions[k], x, Cuts(qty), bar.close, ts, tf));
    NoThird(qty, s, s.positions[k], x, bar.close, ts, tf, w, rules, evals);
    EndingCompletes(s, m, t, k, x, Cuts(qty), ts, tf, w, rules, evals);
  }

  /** The settling of an event is one of its declared endings. */
  lemma SettleIsTold(s: Sim, m: Sim, k: nat, x: Sales, ts: int, tf: Frame, w: Sight, rules: Rules, evals: Evaluators)
    returns (e: Ending)
    requires k < |s.positions| == |m.positions| && w.own != [] && s.positions[k].isOpen
    requires TargetsTold(s, m, k, x, w.own[|w.own| - 1].close, ts)
    ensures SparedTold(s, Settle(m, k, ts, tf, w, rules, evals), k, x, e, ts, tf, w, rules, evals)
  {
    hide Appends, TargetRecords, SalesTold, Pnl, Profit, IsRounded, SellEmergency, EmergencyQty, RoundTo, TakeThird,
         CloseDone, SellAll, SparedTold;
    var p, q, price := s.positions[k], m.positions[k], w.own[|w.own| - 1].close;
    if !q.tp3Done && TargetReached(q, 2, price) {
      e := Goes(Tp3Full, q.remaining);
      TakeThirdIs(m, k, price, ts);
      GoneIsTold(s, m, k, x, Tp3Full, q.remaining, true, ts, tf, w, rules, evals);
    } else if q.remaining <= 0.0 {
      e := Empty;
      CloseDoneIs(m, k, price, ts);
      EmptyIsTold(s, m, k, x, ts, tf, w, rules, evals);
    } else if AllDone(q) {
      e := Goes(TpAllDone, 0.0);
      CloseDoneIs(m, k, price, ts);
      GoneIsTold(s, m, k, x, TpAllDone, 0.0, false, ts, tf, w, rules, evals);
    } else if TimedOut(q, ts, rules) {
      e := Goes(TimeStop, q.remaining);
      SellAllIs(m, k, price, q.remaining, TimeStop, ts);
      GoneIsTold(s, m, k, x, TimeStop, q.remaining, false, ts, tf, w, rules, evals);
    } else {
      e := EmergencyIsTold(s, m, k, x, ts, tf, w, rules, evals);
    }
  }

  lemma EmergencyIsTold(s: Sim, m: Sim, k: nat, x: Sales, ts: int, tf: Frame, w: Sight, rules: Rules,
                        evals: Evaluators)
    returns (e: Ending)
    requires k < |s.positions| == |m.positions| && w.own != [] && s.positions[k].isOpen
    requires TargetsTold(s, m, k, x, w.own[|w.own| - 1].close, ts)
    requires var q, price := m.positions[k], w.own[|w.own| - 1].close;
      q.remaining > 0.0 && !(!q.tp3Done && TargetReached(q, 2, price)) && !AllDone(q) && !TimedOut(q, ts, rules)
    ensures SparedTold(s, Emergency(m, k, ts, tf, w, rules, evals), k, x, e, ts, tf, w, rules, evals)
  {
    hide Appends, TargetRecords, SalesTold, IsRounded, SellEmergency, RoundTo, SparedTold;
    var p, q, bar := s.positions[k], m.positions[k], w.own[|w.own| - 1];
    if Reverses(s, p, tf, w, rules, evals) {
      CutRounds(q, rules);
      hide EmergencyQty;
      e := Cuts(EmergencyQty(q, rules));
      CutIsTold(s, m, k, x, ts, tf, w, rules, evals);
    } else {
      e := Stays;
      StaysIsTold(s, m, k, x, ts, tf, w, rules, evals);
    }
  }

  lemma CutRounds(p: Position, rules: Rules)
    ensures IsRounded(EmergencyQty(p, rules), Percent(p.remaining, rules.exitClosePct), 1_000_000.0)
  {
    RoundingRounds(p.remaining * (rules.exitClosePct / 100.0), LOTS);
  }

  lemma StopIsTold(s: Sim, k: nat, price: real, ts: int)
    requires k < |s.positions|
    ensures StoppedTold(s, SellAll(s, k, price, s.positions[k].remaining, SlHit, ts), k, price, ts)
  {
    var p := s.positions[k];
    SellAllIs(s, k, price, p.remaining, SlHit, ts);
    TradedAppends(s, k, Closed(Deduct(p, price, p.remaining), ts, SlHit),
                  Record(k, p.side, Closing, price, p.remaining, Pnl(p, price, p.remaining), SlHit, ts));
    hide Appends, Pnl, Profit, SellAll;
  }

  /** Every event with an open position does what is told of it. */
  lemma TickIsTold(s: Sim, k: nat, ts: int, tf: Frame, w: Sight, rules: Rules, evals: Evaluators)
    requires k < |s.positions| && s.positions[k].isOpen && s.positions[k].remaining > 0.0 && w.own != []
    ensures TickTold(s, Tick(s, k, ts, tf, w, rules, evals), k, ts, tf, w, rules, evals)
  {
    hide Appends, TakeFirst, TakeSecond, Settle, SellAll, SparedTold, TargetsTold, StoppedTold;
    var p, price := s.positions[k], w.own[|w.own| - 1].close;
    if StopReached(p, price) {
      StopIsTold(s, k, price, ts);
      PushStops(s, SellAll(s, k, price, p.remaining, SlHit, ts), k, price, ts);
    } else {
      var m := TakeSecond(TakeFirst(s, k, price, ts), k, price, ts);
      var x := TargetsAreTold(s, k, price, ts);
      var e := SettleIsTold(s, m, k, x, ts, tf, w, rules, evals);
      PushSpares(s, Settle(m, k, ts, tf, w, rules, evals), k, x, e, ts, tf, w, rules, evals);
    }
  }

  lemma PushStops(s: Sim, t: Sim, k: nat, price: real, ts: int)
    requires k < |s.positions| && k < |t.positions| && StoppedTold(s, t, k, price, ts)
    ensures StoppedTold(s, Push(t), k, price, ts)
  {
  }

  lemma PushSpares(s: Sim, t: Sim, k: nat, x: Sales, e: Ending, ts: int, tf: Frame, w: Sight, rules: Rules,
                   evals: Evaluators)
    requires k < |s.positions| && k < |t.positions| && w.own != []
    requires SparedTold(s, t, k, x, e, ts, tf, w, rules, evals)
    ensures SparedTold(s, Push(t), k, x, e, ts, tf, w, rules, evals)
  {
    hide SalesTold, EndingTold, PositionTold, TargetRecords, EndingRecords;
  }

  // ---- an event without an open position ----

  /** The notional that the allocation buys, or less when a stop-out would cost more than the risk share. */
  predicate NotionalTold(n: real, equity: real, allocation: real, leverage: real, rules: Rules) {
    var planned := Percent(equity, allocation) * leverage;
    if rules.riskPerTradePct > 0.0 && rules.slPct > 0.0 then
      && n <= planned && Percent(n, rules.slPct) <= Percent(equity, rules.riskPerTradePct)
      && (n == planned || Percent(n, rules.slPct) == Percent(equity, rules.riskPerTradePct))
    else n == planned
  }

  /** The notional is one that the account can carry. */
  predicate Carried(n: real, equity: real, leverage: real, rules: Rules) {
    && 0.0 < n <= equity * leverage
    && (rules.portfolioGrossCap > 0.0 ==> n <= Percent(equity, rules.portfolioGrossCap))
  }

  function Worth(size: real, price: real): real { size * price }

  /** The size is the largest number of lots of a millionth that the notional pays for. */
  predicate LotsOf(size: real, n: real, price: real) {
    (size * 1_000_000.0).Floor as real == size * 1_000_000.0
    && Worth(size, price) <= n < Worth(size + 0.000001, price)
  }

  function AllocationOf(rules: Rules): real { match rules.coin case None => 100.0 case Some(c) => c.pct }

  function LeverageOf(rules: Rules): real { if rules.maxLeverage == 0.0 then 1.0 else rules.maxLeverage }

  ghost predicate SizeTold(size: real, price: real, equity: real, rules: Rules) {
    var allocation, leverage := AllocationOf(rules), LeverageOf(rules);
    if price <= 0.0 || equity <= 0.0 || allocation <= 0.0 || leverage <= 0.0
       || (rules.coin.Some? && !rules.coin.value.enabled) then size == 0.0
    else exists n :: SizeFrom(size, n, price, equity, allocation, leverage, rules)
  }

  predicate SizeFrom(size: real, n: real, price: real, equity: real, allocation: real, leverage: real, rules: Rules) {
    && NotionalTold(n, equity, allocation, leverage, rules)
    && if Carried(n, equity, leverage, rules) then LotsOf(size, n, price) else size == 0.0
  }

  /** A level at a percentage from the entry, in the side's favour when `pct` is positive. */
  predicate LevelTold(level: real, price: real, side: Side, pct: real) {
    IsRounded(level, price * (match side case Long => 1.0 + pct / 100.0 case Short => 1.0 - pct / 100.0),
              100_000_000.0)
  }

  /** The stop and the targets of an entry, with their defaults of two and six percent. */
  predicate LevelsTold(stop: real, targets: seq<real>, price: real, side: Side, rules: Rules) {
    var levels := if rules.tpLevels != [] then rules.tpLevels else if rules.tpPct != 0.0 then [rules.tpPct] else [6.0];
    && LevelTold(stop, price, side, if rules.slPct == 0.0 then -2.0 else -rules.slPct)
    && |targets| == |levels| && forall j :: 0 <= j < |levels| ==> LevelTold(targets[j], price, side, levels[j])
  }

  /** An attempt to enter: rejected without equity, size or the gate's consent, and opened otherwise. */
  ghost predicate AttemptTold(s: Sim, t: Sim, side: Side, tf: Frame, reason: Reason, price: real, ts: int,
                              entryCandles: seq<Candle>, triple: Option<Triple>, w: Sight, rules: Rules,
                              evals: Evaluators)
  {
    exists size: real, stop: real, targets: seq<real> :: (
      && SizeTold(size, price, s.equity, rules) && LevelsTold(stop, targets, price, side, rules)
      && if s.equity <= 0.0 || size <= 0.0
            || (rules.gated && !evals.quality(QualityQuery(side, Of(w.known, rules.regimeFrame), entryCandles, triple,
                                                           price, stop, targets)))
         then t == s.(rejected := s.rejected + 1)
         else
           t == s.(positions := s.positions + [Position(side, price, size, size, stop, targets, false, false, false, ts,
                                                        tf, true, None, None, 0.0)],
                   trades := s.trades + [Record(|s.positions|, side, Opening, price, size, 0.0, reason, ts)]))
  }

  lemma NotionalIs(equity: real, rules: Rules)
    ensures NotionalTold(Notional(equity, rules), equity, Allocation(rules), Leverage(rules), rules)
  {
    if RiskCapped(rules) {
      RiskIs(equity, rules);
      PercentOrder(Notional(equity, rules), RiskNotional(equity, rules), rules.slPct);
      hide RiskNotional, PlannedNotional;
      assert PlannedNotional(equity, rules) == Percent(equity, Allocation(rules)) * Leverage(rules) by {
        PlannedIs(equity, rules);
      }
    }
  }

  lemma PlannedIs(equity: real, rules: Rules)
    ensures PlannedNotional(equity, rules) == Percent(equity, Allocation(rules)) * Leverage(rules)
  {
  }

  lemma RiskIs(equity: real, rules: Rules)
    requires RiskCapped(rules)
    ensures Percent(RiskNotional(equity, rules), rules.slPct) == Percent(equity, rules.riskPerTradePct)
  {
  }

  lemma PercentOrder(a: real, b: real, pct: real)
    requires a <= b && pct > 0.0
    ensures Percent(a, pct) <= Percent(b, pct)
  {
    assert (b - a) * (pct / 100.0) >= 0.0;
  }

  lemma FloorIs(v: real)
    ensures var size := FloorLots(v);
      size * 1_000_000.0 == (v * LOTS).Floor as real && size <= v < size + 0.000001
  {
    var lots := (v * LOTS).Floor;
    assert lots as real <= v * LOTS < lots as real + 1.0;
    assert FloorLots(v) * 1_000_000.0 == lots as real;
  }

  lemma WorthGrows(a: real, b: real, price: real)
    requires price > 0.0
    ensures a <= b ==> Worth(a, price) <= Worth(b, price)
    ensures a < b ==> Worth(a, price) < Worth(b, price)
  {
    if a < b {
      assert (b - a) * price > 0.0;
    }
  }

  lemma QuotientIsWorth(n: real, price: real)
    requires price > 0.0
    ensures Worth(n / price, price) == n
  {
  }

  lemma LotsAre(n: real, price: real)
    requires n > 0.0 && price > 0.0
    ensures LotsOf(FloorLots(n / price), n, price)
  {
    hide FloorLots, Worth;
    var v := n / price;
    var size := FloorLots(v);
    QuotientIsWorth(n, price);
    FloorIs(v);
    WholeLots(size, (v * LOTS).Floor);
    WorthGrows(size, v, price);
    WorthGrows(v, size + 0.000001, price);
  }

  lemma WholeLots(size: real, lots: int)
    requires size * 1_000_000.0 == lots as real
    ensures (size * 1_000_000.0).Floor as real == size * 1_000_000.0
  {
  }

  lemma SamePercent(amount: real, pct: real)
    ensures PercentOf(amount, pct) == Percent(amount, pct)
  {
  }

  lemma SizeIsTold(price: real, equity: real, rules: Rules)
    ensures SizeTold(ComputeSize(price, equity, rules), price, equity, rules)
  {
    assert AllocationOf(rules) == Allocation(rules) && LeverageOf(rules) == Leverage(rules);
    hide SizeFrom, Allocation, Leverage, AllocationOf, LeverageOf, Notional, FloorLots, PercentOf;
    if price > 0.0 && equity > 0.0 && Allocation(rules) > 0.0 && Leverage(rules) > 0.0
       && (rules.coin.Some? ==> rules.coin.value.enabled) {
      SizeIsFrom(price, equity, rules);
    }
  }

  lemma SizeIsFrom(price: real, equity: real, rules: Rules)
    requires price > 0.0 && equity > 0.0 && Allocation(rules) > 0.0 && Leverage(rules) > 0.0
    requires rules.coin.Some? ==> rules.coin.value.enabled
    ensures SizeFrom(ComputeSize(price, equity, rules), Notional(equity, rules), price, equity, Allocation(rules),
                     Leverage(rules), rules)
  {
    NotionalIs(equity, rules);
    SamePercent(equity, rules.portfolioGrossCap);
    var n := Notional(equity, rules);
    if n > 0.0 {
      LotsAre(n, price);
    }
    TimesQuotientExactly(n, Leverage(rules), equity);
    hide NotionalTold, FloorLots, Notional, LotsOf, PercentOf, Percent, Allocation, Leverage;
  }

  lemma TimesQuotientExactly(n: real, d: real, m: real)
    requires d > 0.0
    ensures n / d > m <==> n > m * d
  {
    assert n / d * d == n;
    if n / d > m {
      assert (n / d - m) * d > 0.0;
    } else {
      assert (m - n / d) * d >= 0.0;
    }
  }

  lemma StopLevel(price: real, side: Side, rules: Rules)
    ensures LevelTold(StopFor(price, side, rules), price, side, if rules.slPct == 0.0 then -2.0 else -rules.slPct)
  {
    var pct := if rules.slPct == 0.0 then -2.0 else -rules.slPct;
    var factor := match side case Long => 1.0 + pct / 100.0 case Short => 1.0 - pct / 100.0;
    assert factor == if side == Long then 1.0 - SlShare(rules) else 1.0 + SlShare(rules);
    RoundingRounds(price * factor, TICKS);
    hide RoundTo, IsRounded;
  }

  lemma TargetLevel(price: real, side: Side, pct: real)
    ensures LevelTold(TargetFor(price, side, pct), price, side, pct)
  {
    RoundingRounds(price * (if side == Long then 1.0 + pct / 100.0 else 1.0 - pct / 100.0), TICKS);
    hide RoundTo, IsRounded;
  }

  lemma LevelsAreTold(price: real, side: Side, rules: Rules)
    ensures LevelsTold(StopFor(price, side, rules), TargetsFor(price, side, rules), price, side, rules)
  {
    StopLevel(price, side, rules);
    forall j | 0 <= j < |Levels(rules)|
      ensures LevelTold(TargetsFor(price, side, rules)[j], price, side, Levels(rules)[j])
    {
      TargetLevel(price, side, Levels(rules)[j]);
    }
    hide LevelTold, TargetFor, StopFor;
  }

  lemma AttemptIsTold(s: Sim, side: Side, tf: Frame, reason: Reason, price: real, ts: int, entryCandles: seq<Candle>,
                      triple: Option<Triple>, w: Sight, rules: Rules, evals: Evaluators)
    ensures AttemptTold(s, Enter(s, side, tf, reason, price, ts, entryCandles, triple, w, rules, evals), side, tf,
                        reason, price, ts, entryCandles, triple, w, rules, evals)
  {
    SizeIsTold(price, s.equity, rules);
    LevelsAreTold(price, side, rules);
    hide SizeTold, LevelsTold, ComputeSize, StopFor, TargetsFor;
  }

  // ---- the search for an entry ----

  predicate Barred(side: Side, rules: Rules) { rules.bias.Some? && rules.bias.value != side }

  /** The key has not fired within the length of its timeframe; one that never fired counts as fired at time zero. */
  predicate Spaced(s: Sim, key: EntryKey, ts: int, span: int) {
    if key in s.entryFired then ts - s.entryFired[key] >= span else ts >= span
  }

  /** The three candles that end with the one completing a gap, if they are all there. */
  predicate TripleTold(triple: Option<Triple>, candles: seq<Candle>, completion: Option<int>) {
    match completion
    case None => triple == None
    case Some(c) =>
      if 2 <= c < |candles| then triple == Some(Triple(candles[c - 2], candles[c - 1], candles[c])) else triple == None
  }

  /** The gap search on one timeframe: nothing found, barred, too soon, or an attempt to enter. */
  ghost predicate GapTold(s: Sim, t: Sim, f: Frame, ts: int, w: Sight, rules: Rules, evals: Evaluators)
    requires w.own != []
  {
    var candles, price := Of(w.known, f), w.own[|w.own| - 1].close;
    match evals.fvg(f, price, ts, w.known)
    case None => t == s
    case Some(signal) =>
      if |candles| < 3 then t == s
      else if Barred(signal.side, rules) then t == s.(rejected := s.rejected + 1)
      else if !Spaced(s, FvgKey(f, signal.side), ts, FrameMs(f)) then t == s
      else
        exists triple: Option<Triple> :: (
          && TripleTold(triple, candles, signal.completion)
          && AttemptTold(s.(entryFired := s.entryFired[FvgKey(f, signal.side) := ts]), t, signal.side, f, FvgEntry(f),
                         price, ts, candles, triple, w, rules, evals))
  }

  /** The gap search: the hour first, and four hours only when that opened nothing. */
  ghost predicate GapsTold(s: Sim, t: Sim, ts: int, w: Sight, rules: Rules, evals: Evaluators)
    requires w.own != []
  {
    exists m: Sim :: (
      && GapTold(s, m, Hour1, ts, w, rules, evals)
      && if |m.positions| > |s.positions| then t == m else GapTold(m, t, Hour4, ts, w, rules, evals))
  }

  predicate Listens(tf: Frame, rules: Rules) {
    if rules.entryFrames == [] then tf == Min15 else tf in rules.entryFrames
  }

  /** An engulfing signal on an entry timeframe is barred or tried and ends the search; else the gaps are searched. */
  ghost predicate SearchTold(s: Sim, u: Sim, ts: int, tf: Frame, w: Sight, rules: Rules, evals: Evaluators)
    requires w.own != []
  {
    var signal := evals.engulfing(w.own, tf);
    if Listens(tf, rules) && signal.Some? && Barred(signal.value, rules) then u == s.(rejected := s.rejected + 1)
    else if Listens(tf, rules) && signal.Some? && Spaced(s, EngulfingKey(tf, signal.value), ts, FrameMs(tf)) then
      AttemptTold(s.(entryFired := s.entryFired[EngulfingKey(tf, signal.value) := ts]), u, signal.value, tf,
                  EngulfingEntry(tf), w.own[|w.own| - 1].close, ts, w.own, None, w, rules, evals)
    else GapsTold(s, u, ts, w, rules, evals)
  }

  /** An event without an open position searches for one and marks the equity once. */
  ghost predicate LookTold(s: Sim, t: Sim, ts: int, tf: Frame, w: Sight, rules: Rules, evals: Evaluators)
    requires w.own != []
  {
    exists u: Sim :: SearchTold(s, u, ts, tf, w, rules, evals) && t == u.(curve := s.curve + [u.equity])
  }

  lemma GapIsTold(s: Sim, f: Frame, ts: int, w: Sight, rules: Rules, evals: Evaluators)
    requires w.own != []
    ensures GapTold(s, LookForFvg(s, f, ts, w, rules, evals).s, f, ts, w, rules, evals)
    ensures LookForFvg(s, f, ts, w, rules, evals).settled
       <==> |LookForFvg(s, f, ts, w, rules, evals).s.positions| > |s.positions|
  {
    var candles, price := Of(w.known, f), w.own[|w.own| - 1].close;
    var signal := evals.fvg(f, price, ts, w.known);
    if signal.Some? {
      var triple := TripleOf(candles, signal.value.completion);
      assert TripleTold(triple, candles, signal.value.completion);
      AttemptIsTold(s.(entryFired := s.entryFired[FvgKey(f, signal.value.side) := ts]), signal.value.side, f,
                    FvgEntry(f), price, ts, candles, triple, w, rules, evals);
    }
    hide AttemptTold, Enter, TripleTold, TripleOf;
  }

  lemma GapsAreTold(s: Sim, ts: int, w: Sight, rules: Rules, evals: Evaluators)
    requires w.own != []
    ensures GapsTold(s, LookForFvgs(s, FVG_FRAMES, ts, w, rules, evals), ts, w, rules, evals)
  {
    hide GapTold, LookForFvg;
    GapIsTold(s, Hour1, ts, w, rules, evals);
    var hour := LookForFvg(s, Hour1, ts, w, rules, evals);
    GapIsTold(hour.s, Hour4, ts, w, rules, evals);
    var four := LookForFvg(hour.s, Hour4, ts, w, rules, evals);
    assert FVG_FRAMES[0] == Hour1 && FVG_FRAMES[1..] == [Hour4] && [Hour4][1..] == [];
    assert LookForFvgs(hour.s, [Hour4], ts, w, rules, evals) == four.s;
  }

  lemma EngulfingKeeps(s: Sim, ts: int, tf: Frame, w: Sight, rules: Rules, evals: Evaluators)
    requires w.own != []
    ensures LookForEngulfing(s, ts, tf, w, rules, evals).s.curve == s.curve
    ensures !LookForEngulfing(s, ts, tf, w, rules, evals).settled ==>
      LookForEngulfing(s, ts, tf, w, rules, evals).s == s
  {
    hide ComputeSize, StopFor, TargetsFor;
  }

  lemma {:induction false} GapsKeepCurve(s: Sim, frames: seq<Frame>, ts: int, w: Sight, rules: Rules,
                                         evals: Evaluators)
    requires w.own != []
    ensures LookForFvgs(s, frames, ts, w, rules, evals).curve == s.curve
    decreases |frames|
  {
    hide ComputeSize, StopFor, TargetsFor;
    if frames != [] {
      GapsKeepCurve(LookForFvg(s, frames[0], ts, w, rules, evals).s, frames[1..], ts, w, rules, evals);
    }
  }

  lemma EngulfingIsTold(s: Sim, u: Sim, ts: int, tf: Frame, w: Sight, rules: Rules, evals: Evaluators)
    requires w.own != []
    requires var looked := LookForEngulfing(s, ts, tf, w, rules, evals);
      if looked.settled then u == looked.s else GapsTold(s, u, ts, w, rules, evals)
    ensures SearchTold(s, u, ts, tf, w, rules, evals)
  {
    hide AttemptTold, Enter, GapsTold, LookForFvgs, FrameMs;
    var signal := evals.engulfing(w.own, tf);
    if signal.Some? && !Barred(signal.value, rules) {
      var fired := s.(entryFired := s.entryFired[EngulfingKey(tf, signal.value) := ts]);
      var price := w.own[|w.own| - 1].close;
      var u := Enter(fired, signal.value, tf, EngulfingEntry(tf), price, ts, w.own, None, w, rules, evals);
      assert AttemptTold(fired, u, signal.value, tf, EngulfingEntry(tf), price, ts, w.own, None, w, rules, evals) by {
        AttemptIsTold(fired, signal.value, tf, EngulfingEntry(tf), price, ts, w.own, None, w, rules, evals);
      }
    }
  }

  /** Every event without an open position does what is told of it. */
  lemma LookIsTold(s: Sim, ts: int, tf: Frame, w: Sight, rules: Rules, evals: Evaluators)
    requires w.own != []
    ensures LookTold(s, Look(s, ts, tf, w, rules, evals), ts, tf, w, rules, evals)
  {
    hide SearchTold, GapsTold, LookForEngulfing, LookForFvgs;
    EngulfingKeeps(s, ts, tf, w, rules, evals);
    var looked := LookForEngulfing(s, ts, tf, w, rules, evals);
    GapsKeepCurve(s, FVG_FRAMES, ts, w, rules, evals);
    var u := if looked.settled then looked.s else LookForFvgs(looked.s, FVG_FRAMES, ts, w, rules, evals);
    GapsAreTold(s, ts, w, rules, evals);
    EngulfingIsTold(s, u, ts, tf, w, rules, evals);
    assert Look(s, ts, tf, w, rules, evals) == u.(curve := s.curve + [u.equity]);
  }

  // ---- every event of a run ----

  /** What an event does: nothing on fewer than three candles; else it manages the open position or looks for one. */
  ghost predicate StepTold(s: Sim, t: Sim, ts: int, tf: Frame, w: Sight, rules: Rules, evals: Evaluators) {
    if |w.own| < 3 then t == s
    else if s.positions != [] && s.positions[|s.positions| - 1].isOpen then
      && |t.positions| == |s.positions| && t.curve == s.curve + [t.equity]
      && TickTold(s, t, |s.positions| - 1, ts, tf, w, rules, evals)
    else LookTold(s, t, ts, tf, w, rules, evals)
  }

  lemma StepIsTold(s: Sim, ts: int, tf: Frame, w: Sight, rules: Rules, evals: Evaluators, deposit: real)
    requires Sound(s, deposit)
    ensures StepTold(s, Step(s, ts, tf, w, rules, evals), ts, tf, w, rules, evals)
  {
    FindOpenExact(s.positions, 0);
    hide TickTold, LookTold, Tick, Look, Extends;
    if |w.own| >= 3 {
      match FindOpen(s.positions, 0)
      case Some(k) =>
        TickKeepsSound(s, k, ts, tf, w, rules, evals, deposit);
        TickIsTold(s, k, ts, tf, w, rules, evals);
      case None => LookIsTold(s, ts, tf, w, rules, evals);
    }
    hide Sound;
  }

  /** Every event of every run does what is told of it, on the candles it may see. */
  lemma RunIsTold(sets: seq<CandleSet>, events: seq<Event>, deposit: real, rules: Rules, evals: Evaluators, n: nat)
    requires n < |events| && AllEventsOf(sets, events)
    ensures events[n].index < |CandlesOf(sets, events[n].tf)|
    ensures StepTold(After(sets, events, deposit, rules, evals, n), After(sets, events, deposit, rules, evals, n + 1),
                     events[n].ts, events[n].tf, SightAt(sets, events[n]), rules, evals)
  {
    hide Sound, Step, StepTold, AllEventsOf, After, SightAt, CandlesOf;
    RunIsSound(sets, events, deposit, rules, evals, n);
    AfterUnfolds(sets, events, deposit, rules, evals, n + 1);
    StepIsTold(After(sets, events, deposit, rules, evals, n), events[n].ts, events[n].tf, SightAt(sets, events[n]),
               rules, evals, deposit);
  }

  /** The end of a run sells what is still open at the last price of its timeline. */
  ghost predicate FinishTold(s: Sim, t: Sim, events: seq<Event>, end: int) {
    if s.positions != [] && s.positions[|s.positions| - 1].isOpen then
      var k := |s.positions| - 1;
      var p, price := s.positions[k], if events == [] then s.positions[k].entry else events[|events| - 1].price;
      && Appends(s, t, [Record(k, p.side, Closing, price, 0.0, 0.0, BacktestEnd, end)])
      && t.curve == s.curve + [t.equity] && t.counts == s.counts
      && |t.positions| == |s.positions|
      && t.positions[k] == p.(remaining := 0.0, realized := t.positions[k].realized, isOpen := false,
                              closedAt := Some(end), closeReason := Some(BacktestEnd))
    else t == s
  }

  lemma FinishIsTold(s: Sim, events: seq<Event>, end: int, deposit: real)
    requires Sound(s, deposit)
    ensures FinishTold(s, Finish(s, events, end), events, end)
  {
    FindOpenExact(s.positions, 0);
    if FindOpen(s.positions, 0).Some? {
      var k := FindOpen(s.positions, 0).value;
      var p, price := s.positions[k], if events == [] then s.positions[k].entry else events[|events| - 1].price;
      SellAllIs(s, k, price, 0.0, BacktestEnd, end);
      TradedAppends(s, k, Closed(Deduct(p, price, p.remaining), end, BacktestEnd),
                    Record(k, p.side, Closing, price, 0.0, Pnl(p, price, p.remaining), BacktestEnd, end));
    }
    hide Ledger, Pnl, Profit, SellAll;
  }

  // ---- the report ----

  /** The positions whose exact profit is positive, by their places. */
  function Winners(positions: seq<Position>): set<nat> {
    set k: nat | k < |positions| && positions[k].realized > 0.0
  }

  function Earned(positions: seq<Position>): real {
    Sum(seq(|positions|, k requires 0 <= k < |positions| => positions[k].realized))
  }

  lemma {:induction false} WinsCount(positions: seq<Position>)
    requires forall k :: 0 <= k < |positions| ==> !positions[k].isOpen
    ensures CountClosed(positions, Some(true)) == |Winners(positions)|
  {
    if positions == [] {
      assert Winners(positions) == {};
    } else {
      var n := |positions| - 1;
      WinsCount(positions[..n]);
      if positions[n].realized > 0.0 {
        assert Winners(positions) == Winners(positions[..n]) + {n};
      } else {
        assert Winners(positions) == Winners(positions[..n]);
      }
    }
  }

  lemma {:induction false} EarnedIs(positions: seq<Position>)
    requires forall k :: 0 <= k < |positions| ==> !positions[k].isOpen
    ensures ClosedRealized(positions) == Earned(positions)
  {
    if positions != [] {
      var n := |positions| - 1;
      EarnedIs(positions[..n]);
      var all := seq(n + 1, k requires 0 <= k < n + 1 => positions[k].realized);
      assert all[..n] == seq(n, k requires 0 <= k < n => positions[..n][k].realized);
    }
  }

  /** The report counts the positions, those that earned and those that did not, and rounds what they earned. */
  lemma ReportIsTold(s: Sim)
    requires forall k :: 0 <= k < |s.positions| ==> !s.positions[k].isOpen
    ensures var report := Summarize(s);
      && report.total == |s.positions| && report.wins == |Winners(s.positions)|
      && report.wins + report.losses == report.total
      && IsRounded(report.realized, Earned(s.positions), 100.0)
  {
    AllClosed(s.positions);
    WinsCount(s.positions);
    EarnedIs(s.positions);
    RoundingRounds(ClosedRealized(s.positions), CENTS);
    hide IsRounded, RoundTo, Winners, Earned;
  }
}
