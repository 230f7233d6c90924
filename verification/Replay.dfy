/**
 The replay exporter's own trade simulator, and its equivalence with the
 engine's. The two differ in their defaults: the engine assumes a time stop and
 settles what is left after the loop, the exporter assumes the data ran out.
 */
module Replay {
  import opened Prelude
  import opened Candles
  import opened Pivots
  import opened Signals
  import opened Trades

  datatype EventKind = StopEvent | Tp1Event | Tp2Event | Tp3Event | TimeStopEvent

  datatype ReplayEvent = ReplayEvent(kind: EventKind, time: int, price: real)

  /** An exported trade; `realized` is the figure printed on its exit marker. */
  datatype Row = Row(
    timeframe: Timeframe,
    side: Side,
    entryTime: int,
    exitTime: int,
    entryPrice: real,
    exitPrice: real,
    reason: ExitReason,
    levels: Levels,
    realized: real,
    events: seq<ReplayEvent>)

  datatype Position = Position(remaining: real, realized: real, tp1Hit: bool, tp2Hit: bool, tp3Hit: bool,
                               events: seq<ReplayEvent>)

  datatype Exit = Exit(position: Position, reason: ExitReason, price: real, time: int)

  const OPENED := Position(1.0, 0.0, false, false, false, [])

  function SellShare(s: EntrySignal, x: Position, share: real, price: real, kind: EventKind, time: int): Position
    requires s.entry > 0.0
  {
    x.(realized := x.realized + Proceeds(s, share, price), remaining := x.remaining - share,
       events := x.events + [ReplayEvent(kind, time, price)])
  }

  function ReplayTargets(s: EntrySignal, lv: Levels, x: Position, c: Candle): Position
    requires s.entry > 0.0
  {
    var x1 := if !x.tp1Hit && TargetHit(s.side, c, lv.tp1)
              then SellShare(s, x, FRACTION_1, lv.tp1, Tp1Event, c.ts).(tp1Hit := true) else x;
    var x2 := if x1.tp1Hit && !x1.tp2Hit && TargetHit(s.side, c, lv.tp2)
              then SellShare(s, x1, FRACTION_2, lv.tp2, Tp2Event, c.ts).(tp2Hit := true) else x1;
    if x2.tp2Hit && !x2.tp3Hit && TargetHit(s.side, c, lv.tp3)
    then SellShare(s, x2, x2.remaining, lv.tp3, Tp3Event, c.ts).(tp3Hit := true) else x2
  }

  /** The exporter's trade from candle `i` on. */
  function ReplayWalk(s: EntrySignal, lv: Levels, p: Profile, candles: seq<Candle>, i: nat, x: Position): Exit
    requires s.entry > 0.0 && candles != [] && i <= |candles|
    decreases |candles| - i
  {
    if i == |candles| then
      Exit(x, DatasetEnd, candles[|candles| - 1].close, candles[|candles| - 1].ts)
    else
      var c := candles[i];
      var stop := if x.tp1Hit then s.entry else lv.stop;
      if StopHit(s.side, c, stop) then
        Exit(SellShare(s, x, x.remaining, stop, StopEvent, c.ts), if x.tp1Hit then BreakevenStop else StopLoss, stop,
             c.ts)
      else
        var next := ReplayTargets(s, lv, x, c);
        if next.tp3Hit && !x.tp3Hit then Exit(next, TakeProfit3, lv.tp3, c.ts)
        else if TimeIsUp(s, p, c) then
          Exit(SellShare(s, next, next.remaining, c.close, TimeStopEvent, c.ts), TimeStop, c.close, c.ts)
        else ReplayWalk(s, lv, p, candles, i + 1, next)
  }

  /** The three targets of a long on one bar, each with its event. */
  method ReplayLongTargets(s: EntrySignal, lv: Levels, candle: Candle, before: Position)
    returns (remaining: real, realized: real, tp1Hit: bool, tp2Hit: bool, tp3Hit: bool, events: seq<ReplayEvent>)
    requires s.entry > 0.0 && s.side == Long && !before.tp3Hit
    ensures Position(remaining, realized, tp1Hit, tp2Hit, tp3Hit, events) == ReplayTargets(s, lv, before, candle)
  {
    hide Proceeds;
    remaining, realized, events := before.remaining, before.realized, before.events;
    tp1Hit, tp2Hit, tp3Hit := before.tp1Hit, before.tp2Hit, before.tp3Hit;
    if !tp1Hit && candle.high >= lv.tp1 {
      realized := realized + Proceeds(s, FRACTION_1, lv.tp1);
      remaining := remaining - FRACTION_1;
      tp1Hit := true;
      events := events + [ReplayEvent(Tp1Event, candle.ts, lv.tp1)];
    }
    if tp1Hit && !tp2Hit && candle.high >= lv.tp2 {
      realized := realized + Proceeds(s, FRACTION_2, lv.tp2);
      remaining := remaining - FRACTION_2;
      tp2Hit := true;
      events := events + [ReplayEvent(Tp2Event, candle.ts, lv.tp2)];
    }
    if tp2Hit && !tp3Hit && candle.high >= lv.tp3 {
      realized := realized + Proceeds(s, remaining, lv.tp3);
      remaining := 0.0;
      tp3Hit := true;
      events := events + [ReplayEvent(Tp3Event, candle.ts, lv.tp3)];
    }
  }

  /** The three targets of a short on one bar, each with its event. */
  method ReplayShortTargets(s: EntrySignal, lv: Levels, candle: Candle, before: Position)
    returns (remaining: real, realized: real, tp1Hit: bool, tp2Hit: bool, tp3Hit: bool, events: seq<ReplayEvent>)
    requires s.entry > 0.0 && s.side == Short && !before.tp3Hit
    ensures Position(remaining, realized, tp1Hit, tp2Hit, tp3Hit, events) == ReplayTargets(s, lv, before, candle)
  {
    hide Proceeds;
    remaining, realized, events := before.remaining, before.realized, before.events;
    tp1Hit, tp2Hit, tp3Hit := before.tp1Hit, before.tp2Hit, before.tp3Hit;
    if !tp1Hit && candle.low <= lv.tp1 {
      realized := realized + Proceeds(s, FRACTION_1, lv.tp1);
      remaining := remaining - FRACTION_1;
      tp1Hit := true;
      events := events + [ReplayEvent(Tp1Event, candle.ts, lv.tp1)];
    }
    if tp1Hit && !tp2Hit && candle.low <= lv.tp2 {
      realized := realized + Proceeds(s, FRACTION_2, lv.tp2);
      remaining := remaining - FRACTION_2;
      tp2Hit := true;
      events := events + [ReplayEvent(Tp2Event, candle.ts, lv.tp2)];
    }
    if tp2Hit && !tp3Hit && candle.low <= lv.tp3 {
      realized := realized + Proceeds(s, remaining, lv.tp3);
      remaining := 0.0;
      tp3Hit := true;
      events := events + [ReplayEvent(Tp3Event, candle.ts, lv.tp3)];
    }
  }

  method ReplayTrade(s: EntrySignal, lv: Levels, p: Profile, candles: seq<Candle>, entryIndex: nat) returns (e: Exit)
    requires s.entry > 0.0 && entryIndex + 1 < |candles|
    ensures e == ReplayWalk(s, lv, p, candles, entryIndex + 1, OPENED)
  {
    var remaining, realized := 1.0, 0.0;
    var tp1Hit, tp2Hit, tp3Hit := false, false, false;
    var reason, exitPrice, exitTime := DatasetEnd, candles[|candles| - 1].close, candles[|candles| - 1].ts;
    var events: seq<ReplayEvent> := [];
    ghost var target := ReplayWalk(s, lv, p, candles, entryIndex + 1, OPENED);
    hide Proceeds, ReplayTargets;
    var index := entryIndex + 1;
    while index < |candles|
      invariant index <= |candles| && !tp3Hit
      invariant reason == DatasetEnd && exitPrice == candles[|candles| - 1].close
      invariant exitTime == candles[|candles| - 1].ts
      invariant ReplayWalk(s, lv, p, candles, index, Position(remaining, realized, tp1Hit, tp2Hit, tp3Hit, events))
           == target
    {
      var candle := candles[index];
      var before := Position(remaining, realized, tp1Hit, tp2Hit, tp3Hit, events);
      var activeStop := if tp1Hit then s.entry else lv.stop;
      if s.side == Long {
        if candle.low <= activeStop {
          reason := if tp1Hit then BreakevenStop else StopLoss;
          exitPrice, exitTime := activeStop, candle.ts;
          realized := realized + Proceeds(s, remaining, exitPrice);
          events := events + [ReplayEvent(StopEvent, candle.ts, exitPrice)];
          remaining := 0.0;
          break;
        }
        remaining, realized, tp1Hit, tp2Hit, tp3Hit, events := ReplayLongTargets(s, lv, candle, before);
        if tp3Hit {
          reason, exitPrice, exitTime := TakeProfit3, lv.tp3, candle.ts;
          break;
        }
      } else {
        if candle.high >= activeStop {
          reason := if tp1Hit then BreakevenStop else StopLoss;
          exitPrice, exitTime := activeStop, candle.ts;
          realized := realized + Proceeds(s, remaining, exitPrice);
          events := events + [ReplayEvent(StopEvent, candle.ts, exitPrice)];
          remaining := 0.0;
          break;
        }
        remaining, realized, tp1Hit, tp2Hit, tp3Hit, events := ReplayShortTargets(s, lv, candle, before);
        if tp3Hit {
          reason, exitPrice, exitTime := TakeProfit3, lv.tp3, candle.ts;
          break;
        }
      }
      if candle.ts - s.ts >= p.timeStopHours * HOUR {
        reason, exitPrice, exitTime := TimeStop, candle.close, candle.ts;
        realized := realized + Proceeds(s, remaining, exitPrice);
        events := events + [ReplayEvent(TimeStopEvent, candle.ts, exitPrice)];
        remaining := 0.0;
        break;
      }
      index := index + 1;
    }
    e := Exit(Position(remaining, realized, tp1Hit, tp2Hit, tp3Hit, events), reason, exitPrice, exitTime);
  }

  // ---- all rows ----

  datatype Sheet = Sheet(rows: seq<Row>, nextAvailable: Option<int>)

  function RowOn(p: Profile, market: Market, s: EntrySignal, i: nat): Row
    requires s.entry > 0.0 && i + 1 < |CandlesOf(market, s.timeframe)|
  {
    var e := ReplayWalk(s, LevelsOf(s, p), p, CandlesOf(market, s.timeframe), i + 1, OPENED);
    Row(s.timeframe, s.side, s.ts, e.time, s.entry, e.price, e.reason, LevelsOf(s, p), e.position.realized,
        e.position.events)
  }

  function Export(x: Sheet, p: Profile, market: Market, s: EntrySignal): Sheet
    requires SoundMarket(market) && s.entry > 0.0
  {
    if x.nextAvailable.Some? && s.ts < x.nextAvailable.value then x
    else
      match EntryIndex(market, s)
      case None => x
      case Some(i) =>
        var row := RowOn(p, market, s, i);
        Sheet(x.rows + [row], if row.reason == DatasetEnd then x.nextAvailable else Some(row.exitTime))
  }

  function Replayed(p: Profile, market: Market, signals: seq<EntrySignal>, n: nat): Sheet
    requires SoundMarket(market) && Tradable(signals) && n <= |signals|
  {
    if n == 0 then Sheet([], None) else Export(Replayed(p, market, signals, n - 1), p, market, signals[n - 1])
  }

  method DetailedTradeReplay(p: Profile, market: Market, signals: seq<EntrySignal>) returns (rows: seq<Row>)
    requires SoundMarket(market) && Tradable(signals)
    ensures rows == Replayed(p, market, signals, |signals|).rows
  {
    hide ReplayWalk, StopPrice, Tp1Price, TargetPrice, IndexByTime, SoundMarket, Series, CandlesOf;
    rows := [];
    var nextAvailable: Option<int> := None;
    for n := 0 to |signals|
      invariant Sheet(rows, nextAvailable) == Replayed(p, market, signals, n)
    {
      var s := signals[n];
      if nextAvailable.Some? && s.ts < nextAvailable.value {
        continue;
      }
      SoundSeries(market, s.timeframe);
      var candles := CandlesOf(market, s.timeframe);
      var index := IndexByTime(candles);
      if s.ts !in index || index[s.ts] >= |candles| - 1 {
        continue;
      }
      var levels := Levels(StopPrice(s, p), Tp1Price(s, p), TargetPrice(s, p.tp2), TargetPrice(s, p.tp3));
      var e := ReplayTrade(s, levels, p, candles, index[s.ts]);
      if e.reason != DatasetEnd {
        nextAvailable := Some(e.time);
      }
      rows := rows + [Row(s.timeframe, s.side, s.ts, e.time, s.entry, e.price, e.reason, levels, e.position.realized,
                          e.position.events)];
    }
  }

  // ---- equivalence with the engine's simulator ----

  /** The two simulators at the same bar of the same trade. */
  predicate InStep(r: Running, x: Position) {
    && x.remaining == r.remaining && x.realized == r.realized
    && x.tp1Hit == r.tp1Hit && x.tp2Hit == r.tp2Hit && x.tp3Hit == r.tp3Hit
  }

  /** The target events on record are exactly the targets hit, in order. */
  function TargetKinds(r: Running): seq<EventKind> {
    (if r.tp1Hit then [Tp1Event] else []) + (if r.tp2Hit then [Tp2Event] else [])
       + (if r.tp3Hit then [Tp3Event] else [])
  }

  function Kinds(events: seq<ReplayEvent>): seq<EventKind> {
    seq(|events|, i requires 0 <= i < |events| => events[i].kind)
  }

  function ClosingKinds(reason: ExitReason): seq<EventKind> {
    match reason
    case StopLoss => [StopEvent]
    case BreakevenStop => [StopEvent]
    case TimeStop => [TimeStopEvent]
    case TakeProfit3 => []
    case DatasetEnd => []
  }

  /** What both simulators must agree on when a trade ends. */
  ghost predicate SameEnd(s: EntrySignal, o: Outcome, e: Exit)
    requires s.entry > 0.0
  {
    && e.reason == o.reason && e.price == o.exitPrice && e.time == o.exitTime
    && e.position.tp1Hit == o.running.tp1Hit && e.position.tp2Hit == o.running.tp2Hit
       && e.position.tp3Hit == o.running.tp3Hit
    && Kinds(e.position.events) == TargetKinds(o.running) + ClosingKinds(o.reason)
    && o.running.realized == e.position.realized
       + (if o.reason == DatasetEnd then Proceeds(s, e.position.remaining, e.price) else 0.0)
  }

  lemma KindsAppend(events: seq<ReplayEvent>, e: ReplayEvent)
    ensures Kinds(events + [e]) == Kinds(events) + [e.kind]
  {
  }

  lemma TargetsInStep(s: EntrySignal, lv: Levels, r: Running, x: Position, c: Candle)
    requires s.entry > 0.0 && Shaped(r) && InStep(r, x) && Kinds(x.events) == TargetKinds(r)
    ensures var r' := TakeTargets(s, lv, r, c);
      var x' := ReplayTargets(s, lv, x, c);
      && InStep(r', x') && Kinds(x'.events) == TargetKinds(r')
      && (r'.tp3Hit || Shaped(r'))
  {
    hide Proceeds;
    KindsAppend(x.events, ReplayEvent(Tp1Event, c.ts, lv.tp1));
    var x1 := if !x.tp1Hit && TargetHit(s.side, c, lv.tp1)
              then SellShare(s, x, FRACTION_1, lv.tp1, Tp1Event, c.ts).(tp1Hit := true) else x;
    KindsAppend(x1.events, ReplayEvent(Tp2Event, c.ts, lv.tp2));
    var x2 := if x1.tp1Hit && !x1.tp2Hit && TargetHit(s.side, c, lv.tp2)
              then SellShare(s, x1, FRACTION_2, lv.tp2, Tp2Event, c.ts).(tp2Hit := true) else x1;
    KindsAppend(x2.events, ReplayEvent(Tp3Event, c.ts, lv.tp3));
    hide Kinds;
  }

  /** Both simulators end a trade alike; only on a data-end exit does the exporter's figure omit the open rest. */
  lemma {:induction false} WalksInStep(s: EntrySignal, lv: Levels, p: Profile, candles: seq<Candle>, i: nat,
                                       r: Running, x: Position)
    requires s.entry > 0.0 && candles != [] && i <= |candles|
    requires Shaped(r) && InStep(r, x) && Kinds(x.events) == TargetKinds(r)
    ensures SameEnd(s, Walk(s, lv, p, candles, i, r), ReplayWalk(s, lv, p, candles, i, x))
    decreases |candles| - i
  {
    hide Proceeds, ProfitRatio, TakeTargets, ReplayTargets, Kinds;
    if i < |candles| {
      var c := candles[i];
      var seen := Excursion(s, r, c);
      assert TargetKinds(seen) == TargetKinds(r);
      var stop := ActiveStop(s, lv, seen);
      if StopHit(s.side, c, stop) {
        KindsAppend(x.events, ReplayEvent(StopEvent, c.ts, stop));
      } else {
        TargetsInStep(s, lv, seen, x, c);
        var next := TakeTargets(s, lv, seen, c);
        var x' := ReplayTargets(s, lv, x, c);
        if !next.tp3Hit {
          KindsAppend(x'.events, ReplayEvent(TimeStopEvent, c.ts, c.close));
          WalksInStep(s, lv, p, candles, i + 1, next, x');
        }
      }
    }
  }

  /** An engine trade and the exported row of the same trade. */
  ghost predicate SameTrade(t: Trade, row: Row) {
    var o := t.outcome;
    && row.timeframe == t.signal.timeframe && row.side == t.signal.side
    && row.entryTime == t.signal.ts && row.entryPrice == t.signal.entry
    && row.exitTime == o.exitTime && row.exitPrice == o.exitPrice && row.reason == o.reason
    && row.levels == t.levels
    && Kinds(row.events) == TargetKinds(o.running) + ClosingKinds(o.reason)
    && (o.reason != DatasetEnd ==> row.realized == o.running.realized)
  }

  ghost predicate SameBooks(b: Book, x: Sheet) {
    && b.nextAvailable == x.nextAvailable
    && |b.trades| == |x.rows|
    && forall k :: 0 <= k < |b.trades| ==> SameTrade(b.trades[k], x.rows[k])
  }

  lemma RowMatches(p: Profile, market: Market, s: EntrySignal, i: nat)
    requires s.entry > 0.0 && i + 1 < |CandlesOf(market, s.timeframe)|
    ensures SameTrade(TradeOn(p, market, s, i), RowOn(p, market, s, i))
  {
    hide Walk, ReplayWalk, LevelsOf, Kinds;
    WalkKinds();
    WalksInStep(s, LevelsOf(s, p), p, CandlesOf(market, s.timeframe), i + 1, FRESH, OPENED);
  }

  lemma WalkKinds()
    ensures Kinds(OPENED.events) == TargetKinds(FRESH)
  {
  }

  lemma ExportsInStep(b: Book, x: Sheet, p: Profile, market: Market, s: EntrySignal)
    requires SoundMarket(market) && s.entry > 0.0 && SameBooks(b, x)
    ensures SameBooks(Take(b, p, market, s), Export(x, p, market, s))
  {
    hide TradeOn, RowOn, EntryIndex, SameTrade, SoundMarket, CandlesOf;
    if !Blocked(b, s) && EntryIndex(market, s).Some? {
      EntryIndexFinds(market, s);
      var i := EntryIndex(market, s).value;
      RowMatches(p, market, s, i);
      SameClosing(p, market, s, i);
    }
  }

  lemma SameClosing(p: Profile, market: Market, s: EntrySignal, i: nat)
    requires s.entry > 0.0 && i + 1 < |CandlesOf(market, s.timeframe)|
    ensures TradeOn(p, market, s, i).outcome.reason == RowOn(p, market, s, i).reason
    ensures TradeOn(p, market, s, i).outcome.exitTime == RowOn(p, market, s, i).exitTime
  {
    RowMatches(p, market, s, i);
  }

  /**
   Simulator equivalence: on the same signals and candles the exporter selects
   the same trades as the engine, in order, with equal entries, exits and levels.
   */
  lemma {:induction false} SimulatorsAgree(p: Profile, market: Market, signals: seq<EntrySignal>, n: nat)
    requires SoundMarket(market) && Tradable(signals) && n <= |signals|
    ensures SameBooks(Simulate(p, market, signals, n), Replayed(p, market, signals, n))
  {
    if n > 0 {
      hide SameBooks, Take, Export, SoundMarket;
      SimulatorsAgree(p, market, signals, n - 1);
      ExportsInStep(Simulate(p, market, signals, n - 1), Replayed(p, market, signals, n - 1), p, market,
                    signals[n - 1]);
    }
  }
}
