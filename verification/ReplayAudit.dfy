/**
 An account of every exported row: where its events lie, at which prices, and what
 its printed figure stands for.
 */
module ReplayAudit {
  import opened Prelude
  import opened Candles
  import opened Pivots
  import opened Signals
  import opened Trades
  import opened TradeAudit
  import opened Replay

  /** Bar `j` is the first by which a target is reached. */
  ghost predicate FirstBy(kind: EventKind, s: EntrySignal, lv: Levels, candles: seq<Candle>, i: nat, j: nat)
    requires 0 < j < |candles|
  {
    match kind
    case Tp1Event => Tp1By(s, lv, candles, i, j) && !Tp1By(s, lv, candles, i, j - 1)
    case Tp2Event => Tp2By(s, lv, candles, i, j) && !Tp2By(s, lv, candles, i, j - 1)
    case Tp3Event => Tp3By(s, lv, candles, i, j) && !Tp3By(s, lv, candles, i, j - 1)
    case _ => false
  }

  /** A target event lies on the first bar that reaches the target, at the target's price. */
  ghost predicate TargetStated(e: ReplayEvent, s: EntrySignal, lv: Levels, candles: seq<Candle>, i: nat, m: nat)
    requires m < |candles|
  {
    && e.price == (match e.kind case Tp1Event => lv.tp1 case Tp2Event => lv.tp2 case _ => lv.tp3)
    && exists j: nat :: i < j <= m && e.time == candles[j].ts && FirstBy(e.kind, s, lv, candles, i, j)
  }

  ghost predicate TargetsStated(events: seq<ReplayEvent>, s: EntrySignal, lv: Levels, candles: seq<Candle>, i: nat,
                                m: nat)
    requires m < |candles|
  {
    forall e :: e in events ==> TargetStated(e, s, lv, candles, i, m)
  }

  /**
   The events of a row are its target events and at most one closing event, at the
   exit. The printed figure is what the trade earned, but for a trade that ran to
   the end of the data only what its targets earned.
   */
  ghost predicate RowStated(s: EntrySignal, lv: Levels, candles: seq<Candle>, i: nat, e: Exit) {
    && (forall x :: x in e.position.events ==>
          if x.kind == StopEvent || x.kind == TimeStopEvent then x.time == e.time && x.price == e.price
          else candles != [] && TargetStated(x, s, lv, candles, i, |candles| - 1))
    && Priced(s, e.position.realized)
       == Earned(s, lv, e.position.tp1Hit, e.position.tp2Hit, if e.reason == DatasetEnd then s.entry else e.price)
  }

  lemma LaterStated(events: seq<ReplayEvent>, s: EntrySignal, lv: Levels, candles: seq<Candle>, i: nat, m: nat, k: nat)
    requires m <= k < |candles| && TargetsStated(events, s, lv, candles, i, m)
    ensures TargetsStated(events, s, lv, candles, i, k)
  {
    hide FirstBy;
  }

  lemma NewStated(kind: EventKind, price: real, s: EntrySignal, lv: Levels, candles: seq<Candle>, i: nat, k: nat)
    requires i < k < |candles| && FirstBy(kind, s, lv, candles, i, k)
    requires price == (match kind case Tp1Event => lv.tp1 case Tp2Event => lv.tp2 case _ => lv.tp3)
    ensures TargetStated(ReplayEvent(kind, candles[k].ts, price), s, lv, candles, i, k)
  {
    hide FirstBy;
  }

  /** The targets of a bar add stated events only. */
  lemma TargetsAddStated(s: EntrySignal, lv: Levels, candles: seq<Candle>, i: nat, k: nat, x: Position)
    requires s.entry > 0.0 && i < k < |candles| && TargetsStated(x.events, s, lv, candles, i, k - 1)
    requires x.tp1Hit <==> Tp1By(s, lv, candles, i, k - 1)
    requires x.tp2Hit <==> Tp2By(s, lv, candles, i, k - 1)
    requires !x.tp3Hit && !Tp3By(s, lv, candles, i, k - 1)
    ensures TargetsStated(ReplayTargets(s, lv, x, candles[k]).events, s, lv, candles, i, k)
  {
    hide Tp1By, Tp2By, Tp3By, Proceeds, TargetStated;
    ByNext(s, lv, candles, i, k);
    LaterStated(x.events, s, lv, candles, i, k - 1, k);
    var c := candles[k];
    if FirstBy(Tp1Event, s, lv, candles, i, k) {
      NewStated(Tp1Event, lv.tp1, s, lv, candles, i, k);
    }
    if FirstBy(Tp2Event, s, lv, candles, i, k) {
      NewStated(Tp2Event, lv.tp2, s, lv, candles, i, k);
    }
    if FirstBy(Tp3Event, s, lv, candles, i, k) {
      NewStated(Tp3Event, lv.tp3, s, lv, candles, i, k);
    }
  }

  lemma KeepsStep(s: EntrySignal, r: Running, x: Position, share: real, price: real, kind: EventKind, time: int)
    requires s.entry > 0.0 && InStep(r, x)
    ensures SellShare(s, x, share, price, kind, time).realized == Sell(s, r, share, price).realized
    ensures SellShare(s, x, share, price, kind, time).events == x.events + [ReplayEvent(kind, time, price)]
    ensures SellShare(s, x, share, price, kind, time).tp1Hit == x.tp1Hit
    ensures SellShare(s, x, share, price, kind, time).tp2Hit == x.tp2Hit
  {
  }

  /** Stated target events make a stated row, with or without a closing event at the exit. */
  lemma ClosesStated(events: seq<ReplayEvent>, s: EntrySignal, lv: Levels, candles: seq<Candle>, i: nat, m: nat,
                     e: Exit)
    requires m < |candles| && TargetsStated(events, s, lv, candles, i, m)
    requires
      || e.position.events == events
      || e.position.events == events + [ReplayEvent(StopEvent, e.time, e.price)]
      || e.position.events == events + [ReplayEvent(TimeStopEvent, e.time, e.price)]
    requires Priced(s, e.position.realized)
          == Earned(s, lv, e.position.tp1Hit, e.position.tp2Hit, if e.reason == DatasetEnd then s.entry else e.price)
    ensures RowStated(s, lv, candles, i, e)
  {
    hide Priced, Earned;
    LaterStated(events, s, lv, candles, i, m, |candles| - 1);
    forall x | x in events ensures x.kind != StopEvent && x.kind != TimeStopEvent {
      assert TargetStated(x, s, lv, candles, i, m);
    }
  }

  /** A position in step with one that an ending bar settles. */
  lemma EndsStated(s: EntrySignal, lv: Levels, p: Profile, candles: seq<Candle>, i: nat, k: nat, o: Outcome,
                   x: Position, e: Exit)
    requires s.entry > 0.0 && EndsOn(s, lv, p, candles, i, k, o) && TargetsStated(x.events, s, lv, candles, i, k)
    requires e.reason == o.reason != DatasetEnd && e.price == o.exitPrice && e.time == o.exitTime
    requires e.position.realized == o.running.realized
    requires e.position.tp1Hit == o.running.tp1Hit && e.position.tp2Hit == o.running.tp2Hit
    requires
      || e.position.events == x.events
      || e.position.events == x.events + [ReplayEvent(StopEvent, e.time, e.price)]
      || e.position.events == x.events + [ReplayEvent(TimeStopEvent, e.time, e.price)]
    ensures RowStated(s, lv, candles, i, e)
  {
    hide Priced, Earned, RowStated, TargetsStated, Tp1By, Tp2By, Tp3By, WorstReturn, BestReturn, Ends;
    ClosesStated(x.events, s, lv, candles, i, k, e);
  }

  lemma StepIs(s: EntrySignal, r: Running, c: Candle)
    requires s.entry > 0.0
    ensures forall x :: InStep(r, x) ==> InStep(Excursion(s, r, c), x)
    ensures TargetKinds(Excursion(s, r, c)) == TargetKinds(r) && (Shaped(r) ==> Shaped(Excursion(s, r, c)))
  {
  }

  /** From any bar on, the exporter's walk ends with a stated row. */
  lemma {:induction false} ReplayEnds(s: EntrySignal, lv: Levels, p: Profile, candles: seq<Candle>, i: nat, m: nat,
                                      r: Running, x: Position)
    requires s.entry > 0.0 && OpenAt(s, lv, p, candles, i, m, r) && InStep(r, x)
    requires Kinds(x.events) == TargetKinds(r) && TargetsStated(x.events, s, lv, candles, i, m)
    ensures RowStated(s, lv, candles, i, ReplayWalk(s, lv, p, candles, m + 1, x))
    decreases |candles| - m
  {
    NoThirdYet(s, lv, p, candles, i, m, r);
    hide Tp1By, Tp2By, Tp3By, Sell, Priced, Gain, Earned, WorstReturn, BestReturn, Excursion, Proceeds,
         ReplayTargets, TakeTargets, TargetStated, Kinds, SellShare, Ends, TargetHit, RowStated, TargetsStated,
         EndsOn, StopHit;
    if m + 1 == |candles| {
      ClosesStated(x.events, s, lv, candles, i, m, ReplayWalk(s, lv, p, candles, m + 1, x));
    } else {
      var k, c, seen := m + 1, candles[m + 1], Excursion(s, r, candles[m + 1]);
      StepIs(s, r, c);
      var stop := ActiveStop(s, lv, seen);
      if StopHit(s.side, c, stop) {
        BarStops(s, lv, p, candles, i, k, r);
        LaterStated(x.events, s, lv, candles, i, m, k);
        KeepsStep(s, seen, x, x.remaining, stop, StopEvent, c.ts);
        EndsStated(s, lv, p, candles, i, k,
                   Outcome(Sell(s, seen, seen.remaining, stop), if seen.tp1Hit then BreakevenStop else StopLoss, stop,
                           c.ts), x, ReplayWalk(s, lv, p, candles, k, x));
      } else {
        BarGoesOn(s, lv, p, candles, i, k, r);
        TargetsInStep(s, lv, seen, x, c);
        TargetsAddStated(s, lv, candles, i, k, x);
        var next, x' := TakeTargets(s, lv, seen, c), ReplayTargets(s, lv, x, c);
        if next.tp3Hit {
          EndsStated(s, lv, p, candles, i, k, Outcome(next, TakeProfit3, lv.tp3, c.ts), x',
                     ReplayWalk(s, lv, p, candles, k, x));
        } else if TimeIsUp(s, p, c) {
          KeepsStep(s, next, x', x'.remaining, c.close, TimeStopEvent, c.ts);
          EndsStated(s, lv, p, candles, i, k,
                     Outcome(Sell(s, next, next.remaining, c.close), TimeStop, c.close, c.ts), x',
                     ReplayWalk(s, lv, p, candles, k, x));
        } else {
          ReplayEnds(s, lv, p, candles, i, k, next, x');
        }
      }
    }
  }

  // ---- all rows ----

  ghost predicate HasEvent(events: seq<ReplayEvent>, kind: EventKind) {
    exists e :: e in events && e.kind == kind
  }

  /** An exported row has the stated levels, events and figure of its signal. */
  ghost predicate RowAudited(row: Row, s: EntrySignal, p: Profile, candles: seq<Candle>) {
    && row.timeframe == s.timeframe && row.side == s.side && row.entryTime == s.ts && row.entryPrice == s.entry
    && LevelsStated(s, p, row.levels)
    && (exists i: nat :: i < |candles| && candles[i].ts == s.ts && EventsStated(row, s, candles, i))
    && Priced(s, row.realized)
       == Earned(s, row.levels, HasEvent(row.events, Tp1Event), HasEvent(row.events, Tp2Event),
                 if row.reason == DatasetEnd then s.entry else row.exitPrice)
  }

  ghost predicate EventsStated(row: Row, s: EntrySignal, candles: seq<Candle>, i: nat)
    requires i < |candles|
  {
    forall x :: x in row.events ==>
      if x.kind == StopEvent || x.kind == TimeStopEvent then x.time == row.exitTime && x.price == row.exitPrice
      else TargetStated(x, s, row.levels, candles, i, |candles| - 1)
  }

  lemma KindsTell(events: seq<ReplayEvent>, r: Running, reason: ExitReason)
    requires Kinds(events) == TargetKinds(r) + ClosingKinds(reason)
    ensures HasEvent(events, Tp1Event) <==> r.tp1Hit
    ensures HasEvent(events, Tp2Event) <==> r.tp2Hit
  {
    KindIn(events, Tp1Event);
    KindIn(events, Tp2Event);
    hide Kinds, HasEvent;
  }

  lemma KindIn(events: seq<ReplayEvent>, kind: EventKind)
    ensures HasEvent(events, kind) <==> kind in Kinds(events)
  {
    if HasEvent(events, kind) {
      var e :| e in events && e.kind == kind;
      var j :| 0 <= j < |events| && events[j] == e;
      assert Kinds(events)[j] == kind;
    }
    if kind in Kinds(events) {
      var j :| 0 <= j < |events| && Kinds(events)[j] == kind;
      assert events[j] in events;
    }
  }

  lemma RowIsAudited(p: Profile, market: Market, s: EntrySignal, i: nat)
    requires s.entry > 0.0 && i + 1 < |CandlesOf(market, s.timeframe)|
    requires CandlesOf(market, s.timeframe)[i].ts == s.ts
    ensures RowAudited(RowOn(p, market, s, i), s, p, CandlesOf(market, s.timeframe))
  {
    hide Walk, ReplayWalk, OpenAt, LevelsOf, LevelsStated, CandlesOf, Kinds, HasEvent, TargetStated, Priced, Earned;
    var lv, candles := LevelsOf(s, p), CandlesOf(market, s.timeframe);
    LevelsAreStated(s, p);
    NoTargetsYet(s, lv, p, candles, i);
    WalkKinds();
    NothingStated(s, lv, candles, i);
    ReplayEnds(s, lv, p, candles, i, i, FRESH, OPENED);
    WalksInStep(s, lv, p, candles, i + 1, FRESH, OPENED);
    var o, e := Walk(s, lv, p, candles, i + 1, FRESH), ReplayWalk(s, lv, p, candles, i + 1, OPENED);
    KindsTell(e.position.events, o.running, o.reason);
    assert EventsStated(RowOn(p, market, s, i), s, candles, i);
  }

  lemma NothingStated(s: EntrySignal, lv: Levels, candles: seq<Candle>, i: nat)
    requires i < |candles|
    ensures TargetsStated(OPENED.events, s, lv, candles, i, i)
  {
  }

  ghost predicate AllRowsAudited(rows: seq<Row>, trades: seq<Trade>, p: Profile, market: Market) {
    && |rows| == |trades|
    && forall k :: 0 <= k < |rows| ==>
         && trades[k].signal.timeframe in market
         && RowAudited(rows[k], trades[k].signal, p, market[trades[k].signal.timeframe])
  }

  lemma ExportIsAudited(b: Book, x: Sheet, p: Profile, market: Market, s: EntrySignal)
    requires SoundMarket(market) && s.entry > 0.0 && SameBooks(b, x) && AllRowsAudited(x.rows, b.trades, p, market)
    ensures AllRowsAudited(Export(x, p, market, s).rows, Take(b, p, market, s).trades, p, market)
  {
    if !Blocked(b, s) && EntryIndex(market, s).Some? {
      EntryIndexFinds(market, s);
      RowIsAudited(p, market, s, EntryIndex(market, s).value);
    }
    hide TradeOn, RowOn, EntryIndex, SameTrade, SoundMarket, RowAudited;
  }

  lemma NoRows(p: Profile, market: Market, signals: seq<EntrySignal>)
    requires SoundMarket(market) && Tradable(signals)
    ensures AllRowsAudited(Replayed(p, market, signals, 0).rows, Simulate(p, market, signals, 0).trades, p, market)
  {
  }

  /** Every exported row is audited against the signal of the trade it shows. */
  lemma {:induction false} RowsAreAudited(p: Profile, market: Market, signals: seq<EntrySignal>, n: nat)
    requires SoundMarket(market) && Tradable(signals) && n <= |signals|
    ensures AllRowsAudited(Replayed(p, market, signals, n).rows, Simulate(p, market, signals, n).trades, p, market)
  {
    hide SameBooks, Take, Export, SoundMarket, AllRowsAudited;
    if n == 0 {
      NoRows(p, market, signals);
    } else {
      var b, x, s := Simulate(p, market, signals, n - 1), Replayed(p, market, signals, n - 1), signals[n - 1];
      RowsAreAudited(p, market, signals, n - 1);
      SimulatorsAgree(p, market, signals, n - 1);
      assert Simulate(p, market, signals, n) == Take(b, p, market, s);
      assert Replayed(p, market, signals, n) == Export(x, p, market, s);
      hide Simulate, Replayed;
      ExportIsAudited(b, x, p, market, s);
    }
  }
}
