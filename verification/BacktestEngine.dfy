/** The engine of the canonical backtest: the variables of one run, updated in place event by event. */
module BacktestEngine {
  import opened Prelude
  import opened Candles
  import opened Timeline
  import opened CanonicalBacktest
  import Sorting

  /** Closes a quantity of a position; the position books the exact profit, the caller gets the rounded one. */
  method CloseChunk(pos: Position, price: real, qty: real) returns (after: Position, pnl: real)
    ensures after == pos.(realized := after.realized, remaining := after.remaining) == Deduct(pos, price, qty)
    ensures qty == pos.remaining ==> after.remaining == 0.0
    ensures pnl == RoundPnl(Profit(pos.side, pos.entry, price, qty))
  {
    hide RoundTo;
    var exact := (if pos.side == Long then price - pos.entry else pos.entry - price) * qty;
    after := pos.(realized := pos.realized + exact);
    after := after.(remaining := Max(0.0, pos.remaining - qty));
    pnl := RoundPnl(exact);
  }

  // ---- what the specification does to the state, field by field ----

  /** A state in which one position changed and one record was written. */
  function Traded(s: Sim, k: nat, after: Position, record: Record): Sim
    requires k < |s.positions|
  {
    s.(positions := s.positions[k := after], trades := s.trades + [record],
       equity := s.equity + record.pnl, counts := Bump(s.counts, record.reason))
  }

  function Pnl(p: Position, price: real, qty: real): real {
    RoundPnl(Profit(p.side, p.entry, price, qty))
  }

  function Closed(p: Position, ts: int, reason: Reason): Position {
    p.(isOpen := false, closedAt := Some(ts), closeReason := Some(reason))
  }

  lemma UpdateTwice(s: seq<Position>, k: nat, a: Position, b: Position)
    requires k < |s|
    ensures s[k := a][k := b] == s[k := b]
  {
  }

  lemma SellAllIs(s: Sim, k: nat, price: real, size: real, reason: Reason, ts: int)
    requires k < |s.positions|
    ensures var p := s.positions[k];
      SellAll(s, k, price, size, reason, ts)
      == Traded(s, k, Closed(Deduct(p, price, p.remaining), ts, reason),
                Record(k, p.side, Closing, price, size, Pnl(p, price, p.remaining), reason, ts))
  {
    var p := s.positions[k];
    var sold := Deduct(p, price, p.remaining);
    UpdateTwice(s.positions, k, sold, Closed(sold, ts, reason));
    hide Deduct, RoundPnl, Profit, Bump;
  }

  lemma TakeFirstIs(s: Sim, k: nat, price: real, ts: int)
    requires k < |s.positions|
    ensures var p := s.positions[k]; var qty := TargetQty(p, 0);
      TakeFirst(s, k, price, ts)
      == if p.tp1Done || !TargetReached(p, 0, price) then s
         else Traded(s, k, Deduct(p, price, qty).(tp1Done := true, stop := RoundTo(p.entry, TICKS)),
                     Record(k, p.side, Partial, price, qty, Pnl(p, price, qty), Tp1Partial, ts))
  {
    var p := s.positions[k];
    var qty := TargetQty(p, 0);
    var sold := Deduct(p, price, qty);
    UpdateTwice(s.positions, k, sold, sold.(tp1Done := true, stop := RoundTo(p.entry, TICKS)));
    hide Deduct, RoundPnl, RoundLots, RoundTo, Profit, Bump, Split;
  }

  lemma TakeSecondIs(s: Sim, k: nat, price: real, ts: int)
    requires k < |s.positions|
    ensures var p := s.positions[k]; var qty := Min(TargetQty(p, 1), p.remaining);
      TakeSecond(s, k, price, ts)
      == if p.tp2Done || !TargetReached(p, 1, price) then s
         else Traded(s, k, Deduct(p, price, qty).(tp2Done := true),
                     Record(k, p.side, Partial, price, qty, Pnl(p, price, qty), Tp2Partial, ts))
  {
    var p := s.positions[k];
    var qty := Min(TargetQty(p, 1), p.remaining);
    var sold := Deduct(p, price, qty);
    UpdateTwice(s.positions, k, sold, sold.(tp2Done := true));
    hide Deduct, RoundPnl, RoundLots, Profit, Bump, Split, Min;
  }

  lemma TakeThirdIs(s: Sim, k: nat, price: real, ts: int)
    requires k < |s.positions|
    ensures var p := s.positions[k];
      TakeThird(s, k, price, ts)
      == Traded(s, k, Closed(Deduct(p, price, p.remaining).(tp3Done := true), ts, Tp3Full),
                Record(k, p.side, Closing, price, p.remaining, Pnl(p, price, p.remaining), Tp3Full, ts))
  {
    var p := s.positions[k];
    SellAllIs(s, k, price, p.remaining, Tp3Full, ts);
    var sold := Closed(Deduct(p, price, p.remaining), ts, Tp3Full);
    UpdateTwice(s.positions, k, sold, sold.(tp3Done := true));
    hide SellAll, Deduct, RoundPnl, Profit, Bump;
  }

  lemma CloseDoneIs(s: Sim, k: nat, price: real, ts: int)
    requires k < |s.positions|
    ensures var p := s.positions[k];
      CloseDone(s, k, price, ts)
      == if p.remaining > 0.0 then
           Traded(s, k, Closed(Deduct(p, price, p.remaining), ts, TpAllDone),
                  Record(k, p.side, Closing, price, 0.0, Pnl(p, price, p.remaining), TpAllDone, ts))
         else s.(positions := s.positions[k := Closed(p, ts, TpAllDone)])
  {
    SellAllIs(s, k, price, 0.0, TpAllDone, ts);
    hide SellAll, Deduct, RoundPnl, Profit, Bump;
  }

  lemma SellEmergencyIs(s: Sim, k: nat, price: real, qty: real, ts: int, tf: Frame, rules: Rules)
    requires k < |s.positions|
    ensures var p := s.positions[k];
      var left := Deduct(p, price, qty);
      SellEmergency(s, k, price, qty, ts, tf, rules)
      == Traded(s, k,
                if left.remaining <= 0.0 then Closed(left, ts, EmergencyExit(tf))
                else if rules.exitClosePct < 100.0 then left.(stop := RoundTo(p.entry, TICKS)) else left,
                Record(k, p.side, if left.remaining <= 0.0 then Closing else Partial, price, qty, Pnl(p, price, qty),
                       EmergencyExit(tf), ts))
  {
    var p := s.positions[k];
    var left := Deduct(p, price, qty);
    UpdateTwice(s.positions, k, left, Closed(left, ts, EmergencyExit(tf)));
    UpdateTwice(s.positions, k, left, left.(stop := RoundTo(p.entry, TICKS)));
    hide RoundPnl, RoundTo, Profit, Bump;
  }

  class Engine {
    const rules: Rules
    const evals: Evaluators
    var positions: seq<Position>
    var trades: seq<Record>
    var equityCurve: seq<real>
    var currentEquity: real
    var entryDebounce: map<EntryKey, int>
    var exitDebounce: map<ExitKey, int>
    var slCount: nat
    var tp1Count: nat
    var tp2Count: nat
    var tp3Count: nat
    var emergencyExitCount: nat
    var rejectedSignals: nat

    /** The variables as one value of the specification. */
    function Now(): Sim
      reads this
    {
      Sim(positions, trades, equityCurve, currentEquity, entryDebounce, exitDebounce,
          Counts(slCount, tp1Count, tp2Count, tp3Count, emergencyExitCount), rejectedSignals)
    }

    constructor (deposit: real, settings: Rules, evaluators: Evaluators)
      ensures Now() == Start(deposit) && rules == settings && evals == evaluators
    {
      rules, evals := settings, evaluators;
      positions, trades, equityCurve, currentEquity := [], [], [], deposit;
      entryDebounce, exitDebounce := map[], map[];
      slCount, tp1Count, tp2Count, tp3Count, emergencyExitCount, rejectedSignals := 0, 0, 0, 0, 0, 0;
    }

    method RecordTrade(k: nat, side: Side, action: Action, price: real, size: real, pnl: real, reason: Reason, ts: int)
      modifies `trades
      ensures trades == old(trades) + [Record(k, side, action, price, size, pnl, reason, ts)]
    {
      trades := trades + [Record(k, side, action, price, size, pnl, reason, ts)];
    }

    /** The first target: a share is sold and the stop moves to the entry. */
    method TakeTp1(k: nat, price: real, ts: int)
      requires k < |positions|
      modifies this
      ensures Now() == TakeFirst(old(Now()), k, price, ts)
    {
      hide TakeFirst, TargetQty, RoundTo;
      TakeFirstIs(Now(), k, price, ts);
      var pos, pnl := positions[k], 0.0;
      if !pos.tp1Done && |pos.targets| > 0 {
        var hitTp1 := if pos.side == Long then price >= pos.targets[0] else price <= pos.targets[0];
        if hitTp1 {
          var qty := TargetQty(pos, 0);
          pos, pnl := CloseChunk(pos, price, qty);
          pos := pos.(tp1Done := true);
          pos := pos.(stop := RoundTo(pos.entry, TICKS));
          positions := positions[k := pos];
          tp1Count := tp1Count + 1;
          RecordTrade(k, pos.side, Partial, price, qty, pnl, Tp1Partial, ts);
          currentEquity := currentEquity + pnl;
        }
      }
    }

    /** The second target: a share is sold, but no more than is left. */
    method TakeTp2(k: nat, price: real, ts: int)
      requires k < |positions|
      modifies this
      ensures Now() == TakeSecond(old(Now()), k, price, ts)
    {
      hide TakeSecond, TargetQty, RoundTo;
      TakeSecondIs(Now(), k, price, ts);
      var pos, pnl := positions[k], 0.0;
      if !pos.tp2Done && |pos.targets| > 1 {
        var hitTp2 := if pos.side == Long then price >= pos.targets[1] else price <= pos.targets[1];
        if hitTp2 {
          var qty := TargetQty(pos, 1);
          var actualQty := Min(qty, pos.remaining);
          pos, pnl := CloseChunk(pos, price, actualQty);
          pos := pos.(tp2Done := true);
          positions := positions[k := pos];
          tp2Count := tp2Count + 1;
          RecordTrade(k, pos.side, Partial, price, actualQty, pnl, Tp2Partial, ts);
          currentEquity := currentEquity + pnl;
        }
      }
    }

    /** The third target: all that is left is sold. */
    method TakeTp3(k: nat, price: real, ts: int) returns (closed: bool)
      requires k < |positions|
      modifies this
      ensures closed <==> !old(positions)[k].tp3Done && TargetReached(old(positions)[k], 2, price)
      ensures closed ==> Now() == Push(TakeThird(old(Now()), k, price, ts))
      ensures !closed ==> Now() == old(Now())
    {
      hide TakeThird, Deduct, Profit, RoundPnl;
      TakeThirdIs(Now(), k, price, ts);
      var pos, pnl := positions[k], 0.0;
      closed := false;
      if !pos.tp3Done && |pos.targets| > 2 {
        var hitTp3 := if pos.side == Long then price >= pos.targets[2] else price <= pos.targets[2];
        if hitTp3 {
          var actualQty := pos.remaining;
          pos, pnl := CloseChunk(pos, price, actualQty);
          pos := pos.(tp3Done := true);
          pos := pos.(isOpen := false, closedAt := Some(ts), closeReason := Some(Tp3Full));
          positions := positions[k := pos];
          tp3Count := tp3Count + 1;
          RecordTrade(k, pos.side, Closing, price, actualQty, pnl, Tp3Full, ts);
          currentEquity := currentEquity + pnl;
          equityCurve := equityCurve + [currentEquity];
          closed := true;
        }
      }
    }

    /** Closes a position whose targets are done; the record is written after the quantity is gone. */
    method CloseFinished(k: nat, price: real, ts: int) returns (closed: bool)
      requires k < |positions|
      modifies this
      ensures closed <==> AllDone(old(positions)[k])
      ensures closed ==> Now() == Push(CloseDone(old(Now()), k, price, ts))
      ensures !closed ==> Now() == old(Now())
    {
      hide CloseDone;
      CloseDoneIs(Now(), k, price, ts);
      var pos, pnl := positions[k], 0.0;
      closed := pos.remaining <= 0.0 || (|pos.targets| <= 2 && pos.tp2Done) || (|pos.targets| <= 1 && pos.tp1Done);
      if closed {
        if pos.remaining > 0.0 {
          pos, pnl := CloseChunk(pos, price, pos.remaining);
          RecordTrade(k, pos.side, Closing, price, pos.remaining, pnl, TpAllDone, ts);
          currentEquity := currentEquity + pnl;
        }
        pos := pos.(isOpen := false, closedAt := Some(ts), closeReason := Some(TpAllDone));
        positions := positions[k := pos];
        equityCurve := equityCurve + [currentEquity];
      }
    }

    /** Closes a position that has not reached its first target within the configured bars. */
    method CloseOnTime(k: nat, price: real, ts: int) returns (closed: bool)
      requires k < |positions|
      modifies this
      ensures closed <==> TimedOut(old(positions)[k], ts, rules)
      ensures closed ==> Now() == Push(SellAll(old(Now()), k, price, old(positions)[k].remaining, TimeStop, ts))
      ensures !closed ==> Now() == old(Now())
    {
      hide SellAll;
      SellAllIs(Now(), k, price, positions[k].remaining, TimeStop, ts);
      var pos, pnl := positions[k], 0.0;
      closed := false;
      if rules.timeStopBars > 0 && !pos.tp1Done {
        var barsHeld := (ts - pos.openedAt) / FrameMs(pos.frame);
        if barsHeld >= rules.timeStopBars && pos.remaining > 0.0 {
          var remaining := pos.remaining;
          pos, pnl := CloseChunk(pos, price, remaining);
          pos := pos.(isOpen := false, closedAt := Some(ts), closeReason := Some(TimeStop));
          positions := positions[k := pos];
          RecordTrade(k, pos.side, Closing, price, remaining, pnl, TimeStop, ts);
          currentEquity := currentEquity + pnl;
          equityCurve := equityCurve + [currentEquity];
          closed := true;
        }
      }
    }

    /** Closes a position whose stop the price has reached. */
    method StopOut(k: nat, price: real, ts: int) returns (hitSl: bool)
      requires k < |positions|
      modifies this
      ensures hitSl <==> StopReached(old(positions)[k], price)
      ensures hitSl ==> Now() == Push(SellAll(old(Now()), k, price, old(positions)[k].remaining, SlHit, ts))
      ensures !hitSl ==> Now() == old(Now())
    {
      hide SellAll;
      SellAllIs(Now(), k, price, positions[k].remaining, SlHit, ts);
      var pos, pnl := positions[k], 0.0;
      hitSl := if pos.side == Long then price <= pos.stop else price >= pos.stop;
      if hitSl {
        var remaining := pos.remaining;
        pos, pnl := CloseChunk(pos, price, remaining);
        pos := pos.(isOpen := false, closedAt := Some(ts), closeReason := Some(SlHit));
        positions := positions[k := pos];
        slCount := slCount + 1;
        RecordTrade(k, pos.side, Closing, price, remaining, pnl, SlHit, ts);
        currentEquity := currentEquity + pnl;
        equityCurve := equityCurve + [currentEquity];
      }
    }

    /** The part of an emergency exit that trades. */
    method ExitInEmergency(k: nat, price: real, exitQty: real, ts: int, tf: Frame)
      requires k < |positions|
      modifies this
      ensures Now() == SellEmergency(old(Now()), k, price, exitQty, ts, tf, rules)
    {
      hide SellEmergency, RoundTo;
      SellEmergencyIs(Now(), k, price, exitQty, ts, tf, rules);
      var pos, pnl := positions[k], 0.0;
      pos, pnl := CloseChunk(pos, price, exitQty);
      emergencyExitCount := emergencyExitCount + 1;
      var action := if exitQty >= pos.remaining + exitQty then Closing else Partial;
      RecordTrade(k, pos.side, action, price, exitQty, pnl, EmergencyExit(tf), ts);
      currentEquity := currentEquity + pnl;
      if pos.remaining > 0.0 && rules.exitClosePct < 100.0 {
        pos := pos.(stop := RoundTo(pos.entry, TICKS));
      }
      if pos.remaining <= 0.0 {
        pos := pos.(isOpen := false, closedAt := Some(ts), closeReason := Some(EmergencyExit(tf)));
      }
      positions := positions[k := pos];
    }

    /** An engulfing candle against the position, at most once per candle and direction. */
    method CheckEmergency(k: nat, ts: int, tf: Frame, w: Sight)
      requires k < |positions| && w.own != []
      modifies this
      ensures Now() == Emergency(old(Now()), k, ts, tf, w, rules, evals)
    {
      hide SellEmergency, EmergencyQty;
      if rules.exitClosePct <= 0.0 {
        return;
      }
      var exitTfSet := if rules.exitFrames == [] then [Hour1] else rules.exitFrames;
      if tf in exitTfSet {
        var exitSignal := evals.engulfing(w.own, tf);
        if exitSignal.Some? {
          var isReverse := || (positions[k].side == Long && exitSignal.value == Short)
                           || (positions[k].side == Short && exitSignal.value == Long);
          if isReverse {
            var bar := w.own[|w.own| - 1];
            var debounceKey := ExitKey(tf, exitSignal.value);
            var lastProcessed := if debounceKey in exitDebounce then exitDebounce[debounceKey] else -1;
            if bar.ts > lastProcessed {
              exitDebounce := exitDebounce[debounceKey := bar.ts];
              var exitQty := EmergencyQty(positions[k], rules);
              if exitQty > 0.0 {
                ExitInEmergency(k, bar.close, exitQty, ts, tf);
              }
            }
          }
        }
      }
    }

    /** One event with an open position: stop, targets, closing rules, time stop and emergency exit. */
    method ManageOpen(k: nat, ts: int, tf: Frame, w: Sight)
      requires k < |positions| && w.own != []
      modifies this
      ensures Now() == Tick(old(Now()), k, ts, tf, w, rules, evals)
    {
      hide TakeFirst, TakeSecond, TakeThird, CloseDone, SellAll, Emergency, AllDone, TimedOut, TargetReached,
           StopReached;
      var price := w.own[|w.own| - 1].close;
      if positions[k].remaining <= 0.0 {
        positions := positions[k := positions[k].(isOpen := false, closedAt := Some(ts))];
        return;
      }
      var closed := StopOut(k, price, ts);
      if closed {
        return;
      }
      TakeTp1(k, price, ts);
      TakeTp2(k, price, ts);
      closed := TakeTp3(k, price, ts);
      if closed {
        return;
      }
      closed := CloseFinished(k, price, ts);
      if closed {
        return;
      }
      closed := CloseOnTime(k, price, ts);
      if closed {
        return;
      }
      CheckEmergency(k, ts, tf, w);
      equityCurve := equityCurve + [currentEquity];
    }

    /** Opens a position when the equity, the size and the quality gate allow it. */
    method OpenPosition(side: Side, tf: Frame, reason: Reason, price: real, ts: int,
                        entryCandles: seq<Candle>, triple: Option<Triple>, w: Sight) returns (entered: bool)
      modifies this
      ensures Now() == Enter(old(Now()), side, tf, reason, price, ts, entryCandles, triple, w, rules, evals)
      ensures entered <==> |positions| > old(|positions|)
    {
      hide ComputeSize, StopFor, TargetsFor;
      entered := false;
      if currentEquity <= 0.0 {
        rejectedSignals := rejectedSignals + 1;
        return;
      }
      var size := ComputeSize(price, currentEquity, rules);
      if size <= 0.0 {
        rejectedSignals := rejectedSignals + 1;
        return;
      }
      var stopLoss, takeProfits := StopFor(price, side, rules), TargetsFor(price, side, rules);
      if rules.gated {
        var regimeCandles := Of(w.known, rules.regimeFrame);
        var ok := evals.quality(QualityQuery(side, regimeCandles, entryCandles, triple, price, stopLoss, takeProfits));
        if !ok {
          rejectedSignals := rejectedSignals + 1;
          return;
        }
      }
      var pos := Position(side, price, size, size, stopLoss, takeProfits, false, false, false, ts, tf, true, None,
                          None, 0.0);
      positions := positions + [pos];
      RecordTrade(|positions| - 1, side, Opening, price, size, 0.0, reason, ts);
      entered := true;
    }

    /** The engulfing entry; settled when the event ends with it. */
    method SearchEngulfing(ts: int, tf: Frame, w: Sight) returns (settled: bool)
      requires w.own != []
      modifies this
      ensures Looked(Now(), settled) == LookForEngulfing(old(Now()), ts, tf, w, rules, evals)
    {
      hide Enter;
      var entryTfSet := if rules.entryFrames == [] then [Min15] else rules.entryFrames;
      settled := false;
      if tf in entryTfSet {
        var signal := evals.engulfing(w.own, tf);
        if signal.Some? {
          var side := signal.value;
          if !SideAllowed(side, rules) {
            rejectedSignals := rejectedSignals + 1;
            return true;
          }
          var debounceKey := EngulfingKey(tf, side);
          var lastFired := if debounceKey in entryDebounce then entryDebounce[debounceKey] else 0;
          if ts - lastFired >= FrameMs(tf) {
            entryDebounce := entryDebounce[debounceKey := ts];
            var entered := OpenPosition(side, tf, EngulfingEntry(tf), w.own[|w.own| - 1].close, ts, w.own, None, w);
            return true;
          }
        }
      }
    }

    /** One timeframe of the gap search. */
    method SearchGap(fvgTf: Frame, ts: int, w: Sight) returns (entered: bool)
      requires w.own != []
      modifies this
      ensures Looked(Now(), entered) == LookForFvg(old(Now()), fvgTf, ts, w, rules, evals)
    {
      hide Enter;
      entered := false;
      var htfCandles, price := Of(w.known, fvgTf), w.own[|w.own| - 1].close;
      if |htfCandles| < 3 {
        return;
      }
      var fvgSignal := evals.fvg(fvgTf, price, ts, w.known);
      if fvgSignal == None {
        return;
      }
      var side := fvgSignal.value.side;
      if !SideAllowed(side, rules) {
        rejectedSignals := rejectedSignals + 1;
        return;
      }
      var debounceKey := FvgKey(fvgTf, side);
      var lastFired := if debounceKey in entryDebounce then entryDebounce[debounceKey] else 0;
      if ts - lastFired < FrameMs(fvgTf) {
        return;
      }
      entryDebounce := entryDebounce[debounceKey := ts];
      entered := OpenPosition(side, fvgTf, FvgEntry(fvgTf), price, ts, htfCandles,
                             TripleOf(htfCandles, fvgSignal.value.completion), w);
    }

    /** The gap search over the higher timeframes, in order, until one opens a position. */
    method SearchGaps(ts: int, w: Sight)
      requires w.own != []
      modifies this
      ensures Now() == LookForFvgs(old(Now()), FVG_FRAMES, ts, w, rules, evals)
    {
      hide LookForFvg;
      for i := 0 to |FVG_FRAMES|
        invariant LookForFvgs(Now(), FVG_FRAMES[i..], ts, w, rules, evals)
               == LookForFvgs(old(Now()), FVG_FRAMES, ts, w, rules, evals)
      {
        assert FVG_FRAMES[i..][0] == FVG_FRAMES[i] && FVG_FRAMES[i..][1..] == FVG_FRAMES[i + 1..];
        var entered := SearchGap(FVG_FRAMES[i], ts, w);
        if entered {
          return;
        }
      }
    }

    /** One event, with the candles closed by then found by binary search. */
    method ProcessEvent(ghost sets: seq<CandleSet>, e: Event, byTf: map<Frame, seq<Candle>>)
      requires forall tf :: GetOr(byTf, tf) == CandlesOf(sets, tf)
      requires e.index < |CandlesOf(sets, e.tf)|
      modifies this
      ensures Now() == Step(old(Now()), e.ts, e.tf, SightAt(sets, e), rules, evals)
    {
      hide SightAt, Tick, LookForEngulfing, LookForFvgs;
      var w := See(sets, e, byTf);
      if |w.own| < 3 {
        return;
      }
      var open := FindOpen(positions, 0);
      if open.Some? {
        ManageOpen(open.value, e.ts, e.tf, w);
      } else {
        var settled := SearchEngulfing(e.ts, e.tf, w);
        if !settled {
          SearchGaps(e.ts, w);
        }
        equityCurve := equityCurve + [currentEquity];
      }
    }

    /** Closes a position that is still open when the run ends. */
    method ForceClose(timeline: seq<Event>, end: int)
      modifies this
      ensures Now() == Finish(old(Now()), timeline, end)
    {
      hide SellAll;
      var found := FindOpen(positions, 0);
      if found.Some? && positions[found.value].remaining > 0.0 {
        var k := found.value;
        var pos, pnl := positions[k], 0.0;
        var lastPrice := if |timeline| > 0 then timeline[|timeline| - 1].price else pos.entry;
        SellAllIs(Now(), k, lastPrice, 0.0, BacktestEnd, end);
        pos, pnl := CloseChunk(pos, lastPrice, pos.remaining);
        pos := pos.(isOpen := false, closedAt := Some(end), closeReason := Some(BacktestEnd));
        positions := positions[k := pos];
        RecordTrade(k, pos.side, Closing, lastPrice, pos.remaining, pnl, BacktestEnd, end);
        currentEquity := currentEquity + pnl;
        equityCurve := equityCurve + [currentEquity];
      }
    }
  }

  lemma SortedFrames(sets: seq<CandleSet>)
    ensures forall tf :: Sorting.Sorted(CandlesOf(sets, tf), Earlier)
  {
    forall tf ensures Sorting.Sorted(CandlesOf(sets, tf), Earlier) {
      CandlesAreSorted(sets, tf);
    }
  }

  method See(ghost sets: seq<CandleSet>, e: Event, byTf: map<Frame, seq<Candle>>) returns (w: Sight)
    requires forall tf :: GetOr(byTf, tf) == CandlesOf(sets, tf)
    requires e.index < |CandlesOf(sets, e.tf)|
    ensures w == SightAt(sets, e)
  {
    hide CandlesOf, GetOr, Sorting.Filter, Sorting.Sorted, ClosedBy, CloseTime;
    SortedFrames(sets);
    var min1 := ClosedCandlesAtTime(GetOr(byTf, Min1), e.ts, Min1);
    var min5 := ClosedCandlesAtTime(GetOr(byTf, Min5), e.ts, Min5);
    var min15 := ClosedCandlesAtTime(GetOr(byTf, Min15), e.ts, Min15);
    var hour1 := ClosedCandlesAtTime(GetOr(byTf, Hour1), e.ts, Hour1);
    var hour4 := ClosedCandlesAtTime(GetOr(byTf, Hour4), e.ts, Hour4);
    w := Sight(GetOr(byTf, e.tf)[..e.index + 1], Known(min1, min5, min15, hour1, hour4));
  }

  /** A whole run: the timeline, the event loop, the force-close and the report. */
  method RunBacktestEngine(sets: seq<CandleSet>, from: int, to: int, deposit: real, rules: Rules, evals: Evaluators)
    returns (s: Sim, report: Summary)
    ensures s == Result(sets, from, to, deposit, rules, evals) && report == Summarize(s)
    ensures Sound(s, deposit) && NoneOpen(s)
  {
    hide Step, SightAt, Sound, NoneOpen, FrameOrder, Tick, LookForFvgs, LookForEngulfing, Finish, TimelineOf, After,
         Summarize;
    var order, byTf := Organize(sets);
    var timeline := BuildTimeline(sets, order, byTf, from, to);
    TimelineInRange(sets, from, to);
    var engine := new Engine(deposit, rules, evals);
    AfterStarts(sets, timeline, deposit, rules, evals);
    for i := 0 to |timeline|
      invariant engine.Now() == After(sets, timeline, deposit, rules, evals, i)
    {
      AfterUnfolds(sets, timeline, deposit, rules, evals, i + 1);
      engine.ProcessEvent(sets, timeline[i], byTf);
    }
    RunIsSound(sets, timeline, deposit, rules, evals, |timeline|);
    FinishKeepsSound(engine.Now(), timeline, to, deposit);
    engine.ForceClose(timeline, to);
    s := engine.Now();
    report := Summarize(s);
  }
}
