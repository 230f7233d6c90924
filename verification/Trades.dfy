/** The trade simulator of the wave engine: stop, breakeven, three partial targets, time stop. */
module Trades {
  import opened Prelude
  import opened Candles
  import opened Pivots
  import opened Signals

  datatype Levels = Levels(stop: real, tp1: real, tp2: real, tp3: real)

  function StopPrice(s: EntrySignal, p: Profile): real {
    if s.side == Long then Max(s.impulseStart * (1.0 - p.slBuffer), s.entry * (1.0 - p.maxSl))
    else Min(s.impulseStart * (1.0 + p.slBuffer), s.entry * (1.0 + p.maxSl))
  }

  function Tp1Price(s: EntrySignal, p: Profile): real {
    if s.side == Long then
      var cap := s.entry * (1.0 + p.tp1Max);
      Min(if s.target > s.entry then s.target else cap, cap)
    else
      var cap := s.entry * (1.0 - p.tp1Max);
      Max(if s.target < s.entry then s.target else cap, cap)
  }

  function TargetPrice(s: EntrySignal, pct: real): real {
    s.entry * (if s.side == Long then 1.0 + pct else 1.0 - pct)
  }

  function LevelsOf(s: EntrySignal, p: Profile): Levels {
    Levels(StopPrice(s, p), Tp1Price(s, p), TargetPrice(s, p.tp2), TargetPrice(s, p.tp3))
  }

  function ProfitRatio(side: Side, entry: real, exit: real): real
    requires entry > 0.0
  {
    if side == Long then (exit - entry) / entry else (entry - exit) / entry
  }

  // ---- one trade, bar by bar ----

  const FRACTION_1 := 0.34
  const FRACTION_2 := 0.33
  const FRACTION_3 := 0.33

  datatype ExitReason = StopLoss | BreakevenStop | TakeProfit3 | TimeStop | DatasetEnd

  datatype Running = Running(
    remaining: real,
    realized: real,
    tp1Hit: bool,
    tp2Hit: bool,
    tp3Hit: bool,
    barsHeld: nat,
    maxAdverse: real,
    maxFavourable: real)

  const FRESH := Running(1.0, 0.0, false, false, false, 0, 0.0, 0.0)

  datatype Outcome = Outcome(running: Running, reason: ExitReason, exitPrice: real, exitTime: int)

  predicate StopHit(side: Side, c: Candle, stop: real) {
    if side == Long then c.low <= stop else c.high >= stop
  }

  predicate TargetHit(side: Side, c: Candle, target: real) {
    if side == Long then c.high >= target else c.low <= target
  }

  /** The worst and best excursion of a bar against the entry. */
  function Excursion(s: EntrySignal, r: Running, c: Candle): Running
    requires s.entry > 0.0
  {
    var worst, best := if s.side == Long then c.low else c.high, if s.side == Long then c.high else c.low;
    r.(barsHeld := r.barsHeld + 1,
       maxAdverse := Min(r.maxAdverse, ProfitRatio(s.side, s.entry, worst)),
       maxFavourable := Max(r.maxFavourable, ProfitRatio(s.side, s.entry, best)))
  }

  /** The return that a share of the position earns at a price. */
  function Proceeds(s: EntrySignal, share: real, price: real): real
    requires s.entry > 0.0
  {
    share * ProfitRatio(s.side, s.entry, price)
  }

  /** Sells a share of the position at a price. */
  function Sell(s: EntrySignal, r: Running, share: real, price: real): Running
    requires s.entry > 0.0
  {
    r.(realized := r.realized + Proceeds(s, share, price), remaining := r.remaining - share)
  }

  function TakeTargets(s: EntrySignal, lv: Levels, r: Running, c: Candle): Running
    requires s.entry > 0.0
  {
    var r1 := if !r.tp1Hit && TargetHit(s.side, c, lv.tp1) then Sell(s, r, FRACTION_1, lv.tp1).(tp1Hit := true) else r;
    var r2 := if r1.tp1Hit && !r1.tp2Hit && TargetHit(s.side, c, lv.tp2)
              then Sell(s, r1, FRACTION_2, lv.tp2).(tp2Hit := true) else r1;
    if r2.tp2Hit && !r2.tp3Hit && TargetHit(s.side, c, lv.tp3) then Sell(s, r2, r2.remaining, lv.tp3).(tp3Hit := true)
    else r2
  }

  function ActiveStop(s: EntrySignal, lv: Levels, r: Running): real {
    if r.tp1Hit then s.entry else lv.stop
  }

  predicate TimeIsUp(s: EntrySignal, p: Profile, c: Candle) {
    c.ts - s.ts >= p.timeStopHours * HOUR
  }

  /** The rest of a trade from candle `i` on. */
  function Walk(s: EntrySignal, lv: Levels, p: Profile, candles: seq<Candle>, i: nat, r: Running): Outcome
    requires s.entry > 0.0 && candles != [] && i <= |candles|
    decreases |candles| - i
  {
    if i == |candles| then
      var last := candles[|candles| - 1];
      Outcome(Sell(s, r, r.remaining, last.close), DatasetEnd, last.close, last.ts)
    else
      var c := candles[i];
      var seen := Excursion(s, r, c);
      var stop := ActiveStop(s, lv, seen);
      if StopHit(s.side, c, stop) then
        Outcome(Sell(s, seen, seen.remaining, stop), if seen.tp1Hit then BreakevenStop else StopLoss, stop, c.ts)
      else
        var next := TakeTargets(s, lv, seen, c);
        if next.tp3Hit && !seen.tp3Hit then Outcome(next, TakeProfit3, lv.tp3, c.ts)
        else if TimeIsUp(s, p, c) then Outcome(Sell(s, next, next.remaining, c.close), TimeStop, c.close, c.ts)
        else Walk(s, lv, p, candles, i + 1, next)
  }

  /** How much is left follows from which targets were hit; an open trade always has something left. */
  predicate Shaped(r: Running) {
    && !r.tp3Hit
    && (r.tp2Hit ==> r.tp1Hit)
    && r.remaining == 1.0 - (if r.tp1Hit then FRACTION_1 else 0.0) - (if r.tp2Hit then FRACTION_2 else 0.0)
  }

  /** The three targets of a long on one bar. */
  method TakeLongTargets(s: EntrySignal, lv: Levels, candle: Candle, seen: Running)
    returns (remaining: real, realized: real, tp1Hit: bool, tp2Hit: bool, tp3Hit: bool)
    requires s.entry > 0.0 && s.side == Long && !seen.tp3Hit
    ensures seen.(remaining := remaining, realized := realized, tp1Hit := tp1Hit, tp2Hit := tp2Hit, tp3Hit := tp3Hit)
         == TakeTargets(s, lv, seen, candle)
  {
    hide ProfitRatio, Proceeds;
    remaining, realized := seen.remaining, seen.realized;
    tp1Hit, tp2Hit, tp3Hit := seen.tp1Hit, seen.tp2Hit, seen.tp3Hit;
    if !tp1Hit && candle.high >= lv.tp1 {
      realized := realized + Proceeds(s, FRACTION_1, lv.tp1);
      remaining := remaining - FRACTION_1;
      tp1Hit := true;
    }
    if tp1Hit && !tp2Hit && candle.high >= lv.tp2 {
      realized := realized + Proceeds(s, FRACTION_2, lv.tp2);
      remaining := remaining - FRACTION_2;
      tp2Hit := true;
    }
    if tp2Hit && !tp3Hit && candle.high >= lv.tp3 {
      realized := realized + Proceeds(s, remaining, lv.tp3);
      remaining := 0.0;
      tp3Hit := true;
    }
  }

  /** The three targets of a short on one bar. */
  method TakeShortTargets(s: EntrySignal, lv: Levels, candle: Candle, seen: Running)
    returns (remaining: real, realized: real, tp1Hit: bool, tp2Hit: bool, tp3Hit: bool)
    requires s.entry > 0.0 && s.side == Short && !seen.tp3Hit
    ensures seen.(remaining := remaining, realized := realized, tp1Hit := tp1Hit, tp2Hit := tp2Hit, tp3Hit := tp3Hit)
         == TakeTargets(s, lv, seen, candle)
  {
    hide ProfitRatio, Proceeds;
    remaining, realized := seen.remaining, seen.realized;
    tp1Hit, tp2Hit, tp3Hit := seen.tp1Hit, seen.tp2Hit, seen.tp3Hit;
    if !tp1Hit && candle.low <= lv.tp1 {
      realized := realized + Proceeds(s, FRACTION_1, lv.tp1);
      remaining := remaining - FRACTION_1;
      tp1Hit := true;
    }
    if tp1Hit && !tp2Hit && candle.low <= lv.tp2 {
      realized := realized + Proceeds(s, FRACTION_2, lv.tp2);
      remaining := remaining - FRACTION_2;
      tp2Hit := true;
    }
    if tp2Hit && !tp3Hit && candle.low <= lv.tp3 {
      realized := realized + Proceeds(s, remaining, lv.tp3);
      remaining := 0.0;
      tp3Hit := true;
    }
  }

  /** Taking targets leaves an open trade shaped. */
  lemma TargetsKeepShape(s: EntrySignal, lv: Levels, r: Running, c: Candle)
    requires s.entry > 0.0 && Shaped(r)
    ensures var next := TakeTargets(s, lv, r, c); !next.tp3Hit ==> Shaped(next)
  {
    hide Proceeds, TargetHit;
  }

  method RunTrade(s: EntrySignal, lv: Levels, p: Profile, candles: seq<Candle>, entryIndex: nat) returns (o: Outcome)
    requires s.entry > 0.0 && entryIndex + 1 < |candles|
    ensures o == Walk(s, lv, p, candles, entryIndex + 1, FRESH)
  {
    var remaining, realized := 1.0, 0.0;
    var tp1Hit, tp2Hit, tp3Hit := false, false, false;
    var reason, exitPrice, exitTime := TimeStop, candles[|candles| - 1].close, candles[|candles| - 1].ts;
    var maxAdverse, maxFavourable := 0.0, 0.0;
    var barsHeld: nat := 0;
    ghost var target := Walk(s, lv, p, candles, entryIndex + 1, FRESH);

    var index := entryIndex + 1;
    hide ProfitRatio, Proceeds, TakeTargets, Min, Max;
    while index < |candles|
      invariant index <= |candles|
      invariant Shaped(Running(remaining, realized, tp1Hit, tp2Hit, tp3Hit, barsHeld, maxAdverse, maxFavourable))
      invariant target == Walk(s, lv, p, candles, index,
                               Running(remaining, realized, tp1Hit, tp2Hit, tp3Hit, barsHeld,
                                       maxAdverse, maxFavourable))
    {
      var candle := candles[index];
      ghost var before := Running(remaining, realized, tp1Hit, tp2Hit, tp3Hit, barsHeld, maxAdverse, maxFavourable);
      TargetsKeepShape(s, lv, Excursion(s, before, candle), candle);
      barsHeld := barsHeld + 1;
      var activeStop := if tp1Hit then s.entry else lv.stop;
      if s.side == Long {
        maxAdverse := Min(maxAdverse, ProfitRatio(Long, s.entry, candle.low));
        maxFavourable := Max(maxFavourable, ProfitRatio(Long, s.entry, candle.high));
        if candle.low <= activeStop {
          reason := if !tp1Hit then StopLoss else BreakevenStop;
          exitPrice, exitTime := activeStop, candle.ts;
          realized := realized + Proceeds(s, remaining, exitPrice);
          remaining := 0.0;
          break;
        }
        var seen := Running(remaining, realized, tp1Hit, tp2Hit, tp3Hit, barsHeld, maxAdverse, maxFavourable);
        remaining, realized, tp1Hit, tp2Hit, tp3Hit := TakeLongTargets(s, lv, candle, seen);
        if tp3Hit {
          reason, exitPrice, exitTime := TakeProfit3, lv.tp3, candle.ts;
          break;
        }
      } else {
        maxAdverse := Min(maxAdverse, ProfitRatio(Short, s.entry, candle.high));
        maxFavourable := Max(maxFavourable, ProfitRatio(Short, s.entry, candle.low));
        if candle.high >= activeStop {
          reason := if !tp1Hit then StopLoss else BreakevenStop;
          exitPrice, exitTime := activeStop, candle.ts;
          realized := realized + Proceeds(s, remaining, exitPrice);
          remaining := 0.0;
          break;
        }
        var seen := Running(remaining, realized, tp1Hit, tp2Hit, tp3Hit, barsHeld, maxAdverse, maxFavourable);
        remaining, realized, tp1Hit, tp2Hit, tp3Hit := TakeShortTargets(s, lv, candle, seen);
        if tp3Hit {
          reason, exitPrice, exitTime := TakeProfit3, lv.tp3, candle.ts;
          break;
        }
      }
      if candle.ts - s.ts >= p.timeStopHours * HOUR {
        reason, exitPrice, exitTime := TimeStop, candle.close, candle.ts;
        realized := realized + Proceeds(s, remaining, exitPrice);
        remaining := 0.0;
        break;
      }
      index := index + 1;
    }
    if remaining > 0.0 {
      exitPrice := candles[|candles| - 1].close;
      reason := DatasetEnd;
      exitTime := candles[|candles| - 1].ts;
      realized := realized + Proceeds(s, remaining, exitPrice);
      remaining := 0.0;
    }
    o := Outcome(Running(remaining, realized, tp1Hit, tp2Hit, tp3Hit, barsHeld, maxAdverse, maxFavourable),
                 reason, exitPrice, exitTime);
  }

  // ---- all trades ----

  datatype Trade = Trade(signal: EntrySignal, levels: Levels, outcome: Outcome)

  datatype Book = Book(trades: seq<Trade>, nextAvailable: Option<int>)

  function IndexByTime(candles: seq<Candle>): map<int, nat>
    requires Series(candles)
  {
    map i: nat | i < |candles| :: candles[i].ts := i
  }

  /** The candle a signal enters on; there must be a later one to trade in. */
  function EntryIndex(market: Market, s: EntrySignal): Option<nat>
    requires SoundMarket(market)
  {
    var candles := CandlesOf(market, s.timeframe);
    var index := IndexByTime(candles);
    if s.ts in index && index[s.ts] + 1 < |candles| then Some(index[s.ts]) else None
  }

  predicate Blocked(b: Book, s: EntrySignal) {
    b.nextAvailable.Some? && s.ts < b.nextAvailable.value
  }

  function TradeOn(p: Profile, market: Market, s: EntrySignal, i: nat): Trade
    requires s.entry > 0.0 && i + 1 < |CandlesOf(market, s.timeframe)|
  {
    Trade(s, LevelsOf(s, p), Walk(s, LevelsOf(s, p), p, CandlesOf(market, s.timeframe), i + 1, FRESH))
  }

  function Take(b: Book, p: Profile, market: Market, s: EntrySignal): Book
    requires SoundMarket(market) && s.entry > 0.0
  {
    if Blocked(b, s) then b
    else
      match EntryIndex(market, s)
      case None => b
      case Some(i) =>
        var t := TradeOn(p, market, s, i);
        Book(b.trades + [t], if t.outcome.reason == DatasetEnd then b.nextAvailable else Some(t.outcome.exitTime))
  }

  ghost predicate Tradable(signals: seq<EntrySignal>) {
    forall s :: s in signals ==> s.entry > 0.0
  }

  /** The book after the first `n` signals. */
  function Simulate(p: Profile, market: Market, signals: seq<EntrySignal>, n: nat): Book
    requires SoundMarket(market) && Tradable(signals) && n <= |signals|
  {
    if n == 0 then Book([], None) else Take(Simulate(p, market, signals, n - 1), p, market, signals[n - 1])
  }

  function TradesOf(p: Profile, market: Market, signals: seq<EntrySignal>): seq<Trade>
    requires SoundMarket(market) && Tradable(signals)
  {
    Simulate(p, market, signals, |signals|).trades
  }

  method SimulateTrades(p: Profile, market: Market, signals: seq<EntrySignal>) returns (trades: seq<Trade>)
    requires SoundMarket(market) && Tradable(signals)
    ensures trades == TradesOf(p, market, signals)
  {
    hide Walk, StopPrice, Tp1Price, TargetPrice, IndexByTime, SoundMarket, Series, CandlesOf;
    trades := [];
    var nextAvailable: Option<int> := None;
    for n := 0 to |signals|
      invariant Book(trades, nextAvailable) == Simulate(p, market, signals, n)
    {
      var s := signals[n];
      if nextAvailable.Some? && s.ts < nextAvailable.value {
        continue;
      }
      SoundSeries(market, s.timeframe);
      var candles := CandlesOf(market, s.timeframe);
      var index := IndexByTime(candles);
      if s.ts !in index || index[s.ts] >= |candles| - 1 {
        continue;
      }
      var levels := Levels(StopPrice(s, p), Tp1Price(s, p), TargetPrice(s, p.tp2), TargetPrice(s, p.tp3));
      var outcome := RunTrade(s, levels, p, candles, index[s.ts]);
      if outcome.reason != DatasetEnd {
        nextAvailable := Some(outcome.exitTime);
      }
      trades := trades + [Trade(s, levels, outcome)];
    }
  }

  // ---- no overlap ----

  lemma {:induction false} ExitsLater(s: EntrySignal, lv: Levels, p: Profile, candles: seq<Candle>, i: nat, r: Running)
    requires s.entry > 0.0 && Series(candles) && candles != [] && i <= |candles|
    ensures i < |candles| ==> Walk(s, lv, p, candles, i, r).exitTime >= candles[i].ts
    decreases |candles| - i
  {
    if i < |candles| {
      hide Excursion, TakeTargets, Sell;
      var next := TakeTargets(s, lv, Excursion(s, r, candles[i]), candles[i]);
      ExitsLater(s, lv, p, candles, i + 1, next);
      if i + 1 < |candles| {
        assert candles[i].ts < candles[i + 1].ts;
      }
    }
  }

  lemma EntryIndexFinds(market: Market, s: EntrySignal)
    requires SoundMarket(market) && EntryIndex(market, s).Some?
    ensures var i := EntryIndex(market, s).value;
      i + 1 < |CandlesOf(market, s.timeframe)| && CandlesOf(market, s.timeframe)[i].ts == s.ts
  {
  }

  ghost predicate Apart(b: Book) {
    && (forall i :: 0 <= i < |b.trades| && b.trades[i].outcome.reason != DatasetEnd ==>
          b.nextAvailable.Some? && b.trades[i].outcome.exitTime <= b.nextAvailable.value)
    && (forall i, j :: 0 <= i < j < |b.trades| && b.trades[i].outcome.reason != DatasetEnd ==>
          b.trades[i].outcome.exitTime <= b.trades[j].signal.ts)
  }

  lemma TakeKeepsApart(b: Book, p: Profile, market: Market, s: EntrySignal)
    requires SoundMarket(market) && s.entry > 0.0 && Apart(b)
    ensures Apart(Take(b, p, market, s))
  {
    if !Blocked(b, s) && EntryIndex(market, s).Some? {
      EntryIndexFinds(market, s);
      var i, candles := EntryIndex(market, s).value, CandlesOf(market, s.timeframe);
      ExitsLater(s, LevelsOf(s, p), p, candles, i + 1, FRESH);
      assert candles[i].ts < candles[i + 1].ts;
      hide Walk, LevelsOf, EntryIndex, SoundMarket, CandlesOf;
      var next := Take(b, p, market, s);
      assert next.trades == b.trades + [TradeOn(p, market, s, i)];
    }
  }

  /** A trade never enters before an earlier trade that closed before the data ran out has exited. */
  lemma {:induction false} TradesDoNotOverlap(p: Profile, market: Market, signals: seq<EntrySignal>, n: nat)
    requires SoundMarket(market) && Tradable(signals) && n <= |signals|
    ensures Apart(Simulate(p, market, signals, n))
  {
    if n > 0 {
      hide Take, SoundMarket, Apart;
      TradesDoNotOverlap(p, market, signals, n - 1);
      TakeKeepsApart(Simulate(p, market, signals, n - 1), p, market, signals[n - 1]);
    }
  }

  // ---- the payoff envelope ----

  lemma ScaleRatio(entry: real, pct: real)
    requires entry > 0.0
    ensures ProfitRatio(Long, entry, entry * (1.0 + pct)) == pct
    ensures ProfitRatio(Short, entry, entry * (1.0 - pct)) == pct
  {
    assert entry * (1.0 + pct) - entry == entry * pct;
    assert entry - entry * (1.0 - pct) == entry * pct;
    assert entry * pct / entry == pct;
  }

  /** Better prices give better ratios. */
  lemma RatioMonotone(side: Side, entry: real, a: real, b: real)
    requires entry > 0.0
    ensures (if side == Long then a <= b else b <= a) <==> ProfitRatio(side, entry, a) <= ProfitRatio(side, entry, b)
    ensures a == b <==> ProfitRatio(side, entry, a) == ProfitRatio(side, entry, b)
    ensures ProfitRatio(side, entry, entry) == 0.0
  {
    DivisionMonotone(a - entry, b - entry, entry);
    DivisionMonotone(entry - b, entry - a, entry);
  }

  lemma ProductMonotone(a: real, b: real, d: real)
    requires d > 0.0
    ensures a <= b <==> a * d <= b * d
  {
    assert (b - a) * d == b * d - a * d;
  }

  lemma DivisionMonotone(a: real, b: real, d: real)
    requires d > 0.0
    ensures a <= b <==> a / d <= b / d
  {
    ProductMonotone(a / d, b / d, d);
  }

  lemma ScaleBy(x: real, pct: real)
    requires x > 0.0 && pct >= 0.0
    ensures x * (1.0 - pct) <= x <= x * (1.0 + pct)
    ensures pct > 0.0 ==> x * (1.0 - pct) < x < x * (1.0 + pct)
  {
    assert x * pct >= 0.0;
    assert pct > 0.0 ==> x * pct > 0.0;
    assert x * (1.0 - pct) == x - x * pct;
    assert x * (1.0 + pct) == x + x * pct;
  }

  lemma LongLevels(s: EntrySignal, p: Profile)
    requires SoundGeometry(s) && Normalized(p) && s.side == Long
    ensures s.entry * (1.0 - p.maxSl) <= StopPrice(s, p) < s.entry <= Tp1Price(s, p)
  {
    ScaleBy(s.entry, p.maxSl);
    ScaleBy(s.entry, p.tp1Max);
    ScaleBy(s.impulseStart, p.slBuffer);
  }

  lemma ShortLevels(s: EntrySignal, p: Profile)
    requires SoundGeometry(s) && Normalized(p) && s.side == Short
    ensures Tp1Price(s, p) <= s.entry < StopPrice(s, p) <= s.entry * (1.0 + p.maxSl)
  {
    ScaleBy(s.entry, p.maxSl);
    ScaleBy(s.entry, p.tp1Max);
    ScaleBy(s.impulseStart, p.slBuffer);
  }

  /** The levels of a sound signal: risk capped by `maxSl`, first target at or beyond the entry. */
  lemma LevelsEnvelope(s: EntrySignal, p: Profile)
    requires SoundGeometry(s) && Normalized(p)
    ensures s.side == Long ==> s.entry * (1.0 - p.maxSl) <= StopPrice(s, p) < s.entry <= Tp1Price(s, p)
    ensures s.side == Short ==> Tp1Price(s, p) <= s.entry < StopPrice(s, p) <= s.entry * (1.0 + p.maxSl)
  {
    hide SoundGeometry, Normalized, StopPrice, Tp1Price;
    if s.side == Long {
      LongLevels(s, p);
    } else {
      ShortLevels(s, p);
    }
  }

  /** Return ratios of the levels, the quantities the envelope is about. */
  function Ratio1(s: EntrySignal, p: Profile): real
    requires s.entry > 0.0
  {
    ProfitRatio(s.side, s.entry, Tp1Price(s, p))
  }

  /** The worst stop price, expressed as a target at a negative percentage. */
  lemma WorstStop(s: EntrySignal, p: Profile)
    ensures s.side == Long ==> TargetPrice(s, -p.maxSl) == s.entry * (1.0 - p.maxSl)
    ensures s.side == Short ==> TargetPrice(s, -p.maxSl) == s.entry * (1.0 + p.maxSl)
  {
  }

  lemma TargetRatio(s: EntrySignal, pct: real)
    requires s.entry > 0.0
    ensures ProfitRatio(s.side, s.entry, TargetPrice(s, pct)) == pct
  {
    ScaleRatio(s.entry, pct);
  }

  lemma CappedTarget(s: EntrySignal, p: Profile)
    ensures if s.side == Long then Tp1Price(s, p) <= TargetPrice(s, p.tp1Max)
            else TargetPrice(s, p.tp1Max) <= Tp1Price(s, p)
  {
  }

  lemma LevelRatios(s: EntrySignal, p: Profile)
    requires SoundGeometry(s) && Normalized(p)
    ensures -p.maxSl <= ProfitRatio(s.side, s.entry, StopPrice(s, p)) < 0.0
    ensures 0.0 <= Ratio1(s, p) <= p.tp1Max
    ensures ProfitRatio(s.side, s.entry, TargetPrice(s, p.tp2)) == p.tp2
    ensures ProfitRatio(s.side, s.entry, TargetPrice(s, p.tp3)) == p.tp3
  {
    LevelsEnvelope(s, p);
    WorstStop(s, p);
    CappedTarget(s, p);
    hide ProfitRatio, StopPrice, Tp1Price, TargetPrice;
    TargetRatio(s, p.tp2);
    TargetRatio(s, p.tp3);
    TargetRatio(s, -p.maxSl);
    TargetRatio(s, p.tp1Max);
    RatioMonotone(s.side, s.entry, TargetPrice(s, -p.maxSl), StopPrice(s, p));
    RatioMonotone(s.side, s.entry, StopPrice(s, p), s.entry);
    RatioMonotone(s.side, s.entry, s.entry, StopPrice(s, p));
    RatioMonotone(s.side, s.entry, s.entry, Tp1Price(s, p));
    RatioMonotone(s.side, s.entry, Tp1Price(s, p), TargetPrice(s, p.tp1Max));
  }

  /** The most a trade can make: every share sold at its own target. */
  function FullPayoff(s: EntrySignal, p: Profile): real
    requires s.entry > 0.0
  {
    FRACTION_1 * Ratio1(s, p) + FRACTION_2 * p.tp2 + FRACTION_3 * p.tp3
  }

  /** What an open trade has banked is fixed by the targets it has hit. */
  ghost predicate Banked(s: EntrySignal, p: Profile, r: Running)
    requires s.entry > 0.0
  {
    && Shaped(r)
    && r.realized == (if r.tp1Hit then FRACTION_1 * Ratio1(s, p) else 0.0)
       + (if r.tp2Hit then FRACTION_2 * p.tp2 else 0.0)
  }

  /** The price an open trade was left at: above its worst case and short of its next target. */
  ghost predicate LeftAt(s: EntrySignal, p: Profile, r: Running, close: real)
    requires s.entry > 0.0
  {
    var x := ProfitRatio(s.side, s.entry, close);
    && -p.maxSl <= x
    && x < (if r.tp2Hit then p.tp3 else if r.tp1Hit then p.tp2 else Ratio1(s, p))
  }

  ghost predicate InEnvelope(s: EntrySignal, p: Profile, profit: real)
    requires s.entry > 0.0
  {
    && -p.maxSl <= profit
    && (2.0 * Ratio1(s, p) <= p.tp2 + p.tp3 ==> profit <= FullPayoff(s, p))
  }

  lemma SellOut(s: EntrySignal, p: Profile, r: Running, close: real)
    requires SoundGeometry(s) && Normalized(p) && Banked(s, p, r) && LeftAt(s, p, r, close)
    ensures InEnvelope(s, p, Sell(s, r, r.remaining, close).realized)
  {
    LevelRatios(s, p);
    hide ProfitRatio, Ratio1;
  }

  lemma StopOut(s: EntrySignal, p: Profile, r: Running)
    requires SoundGeometry(s) && Normalized(p) && Banked(s, p, r)
    ensures InEnvelope(s, p, Sell(s, r, r.remaining, ActiveStop(s, LevelsOf(s, p), r)).realized)
  {
    LevelRatios(s, p);
    RatioMonotone(s.side, s.entry, s.entry, s.entry);
    hide ProfitRatio, Ratio1;
  }

  lemma GeometryIsPositive(s: EntrySignal)
    requires SoundGeometry(s)
    ensures s.entry > 0.0
  {
  }

  lemma BarKeepsBanked(s: EntrySignal, p: Profile, r: Running, c: Candle)
    requires SoundGeometry(s) && Normalized(p) && WellFormed(c) && Banked(s, p, r)
    requires !StopHit(s.side, c, ActiveStop(s, LevelsOf(s, p), r))
    ensures var next := TakeTargets(s, LevelsOf(s, p), r, c);
      if next.tp3Hit then next.realized == FullPayoff(s, p)
      else Banked(s, p, next) && LeftAt(s, p, next, c.close)
  {
    hide ProfitRatio, SoundGeometry, Normalized, StopPrice, Tp1Price, TargetPrice;
    GeometryIsPositive(s);
    var lv := LevelsOf(s, p);
    LevelRatios(s, p);
    RatioMonotone(s.side, s.entry, ActiveStop(s, lv, r), c.close);
    RatioMonotone(s.side, s.entry, s.entry, s.entry);
    RatioMonotone(s.side, s.entry, c.close, lv.tp1);
    RatioMonotone(s.side, s.entry, c.close, lv.tp2);
    RatioMonotone(s.side, s.entry, c.close, lv.tp3);
  }

  lemma {:induction false} WalkEnvelope(s: EntrySignal, p: Profile, candles: seq<Candle>, i: nat, r: Running)
    requires SoundGeometry(s) && Normalized(p) && Series(candles) && candles != [] && i <= |candles|
    requires Banked(s, p, r)
    requires i == |candles| ==> LeftAt(s, p, r, candles[i - 1].close)
    ensures InEnvelope(s, p, Walk(s, LevelsOf(s, p), p, candles, i, r).running.realized)
    decreases |candles| - i
  {
    var lv := LevelsOf(s, p);
    if i == |candles| {
      SellOut(s, p, r, candles[i - 1].close);
    } else {
      var c := candles[i];
      var seen := Excursion(s, r, c);
      LevelRatios(s, p);
      assert Banked(s, p, seen) && WellFormed(c);
      if StopHit(s.side, c, ActiveStop(s, lv, seen)) {
        StopOut(s, p, seen);
      } else {
        BarKeepsBanked(s, p, seen, c);
        var next := TakeTargets(s, lv, seen, c);
        hide TakeTargets, LevelsOf, ProfitRatio, Ratio1;
        if !next.tp3Hit {
          SellOut(s, p, next, c.close);
          WalkEnvelope(s, p, candles, i + 1, next);
        }
      }
    }
  }

  /**
   What caps a trade at the full payoff: a first target no farther than the mean of
   the other two, or one that no positive price reaches when the payoff is at least 1.
   */
  predicate Capped(s: EntrySignal, p: Profile)
    requires s.entry > 0.0
  {
    2.0 * Ratio1(s, p) <= p.tp2 + p.tp3 || (Tp1Price(s, p) <= 0.0 && FullPayoff(s, p) >= 1.0)
  }

  /** The lower bound always, and the upper bound where the trade is capped. */
  ghost predicate PaysWithin(s: EntrySignal, p: Profile, profit: real)
    requires s.entry > 0.0
  {
    && -p.maxSl <= profit
    && (Capped(s, p) ==> profit <= FullPayoff(s, p))
  }

  lemma BelowOne(s: EntrySignal, price: real)
    requires s.entry > 0.0 && s.side == Short && price > 0.0
    ensures ProfitRatio(s.side, s.entry, price) < 1.0
  {
    assert (s.entry - price) / s.entry * s.entry == s.entry - price;
  }

  /** A short whose first target lies at or below zero banks nothing and ends below a return of 1. */
  lemma {:induction false} UnreachableTarget(s: EntrySignal, p: Profile, candles: seq<Candle>, i: nat, r: Running)
    requires SoundGeometry(s) && Normalized(p) && Series(candles) && candles != [] && i <= |candles|
    requires s.side == Short && Tp1Price(s, p) <= 0.0 && Banked(s, p, r) && !r.tp1Hit
    ensures Walk(s, LevelsOf(s, p), p, candles, i, r).running.realized < 1.0
    decreases |candles| - i
  {
    var lv := LevelsOf(s, p);
    if i == |candles| {
      BelowOne(s, candles[i - 1].close);
    } else {
      var c := candles[i];
      LevelsEnvelope(s, p);
      BelowOne(s, lv.stop);
      BelowOne(s, c.close);
      hide ProfitRatio, Tp1Price, StopPrice;
      var seen := Excursion(s, r, c);
      assert TakeTargets(s, lv, seen, c) == seen;
      UnreachableTarget(s, p, candles, i + 1, seen);
    }
  }

  lemma OnlyShortsAimBelowZero(s: EntrySignal, p: Profile)
    requires SoundGeometry(s) && Normalized(p) && Tp1Price(s, p) <= 0.0
    ensures s.side == Short
  {
    LevelsEnvelope(s, p);
  }

  /** A whole trade stays within its bounds, whatever the candles do. */
  lemma TradePaysWithin(s: EntrySignal, p: Profile, candles: seq<Candle>, entryIndex: nat)
    requires SoundGeometry(s) && Normalized(p) && Series(candles) && entryIndex + 1 < |candles|
    ensures PaysWithin(s, p, Walk(s, LevelsOf(s, p), p, candles, entryIndex + 1, FRESH).running.realized)
  {
    WalkEnvelope(s, p, candles, entryIndex + 1, FRESH);
    if Tp1Price(s, p) <= 0.0 {
      OnlyShortsAimBelowZero(s, p);
      UnreachableTarget(s, p, candles, entryIndex + 1, FRESH);
    }
    hide Walk, LevelsOf, Tp1Price, FullPayoff, Ratio1;
  }

  ghost predicate AllInEnvelope(p: Profile, trades: seq<Trade>) {
    forall t :: t in trades ==> SoundGeometry(t.signal) && PaysWithin(t.signal, p, t.outcome.running.realized)
  }

  lemma TakeStaysInEnvelope(b: Book, p: Profile, market: Market, s: EntrySignal)
    requires SoundMarket(market) && Normalized(p) && SoundGeometry(s) && AllInEnvelope(p, b.trades)
    ensures AllInEnvelope(p, Take(b, p, market, s).trades)
  {
    if !Blocked(b, s) && EntryIndex(market, s).Some? {
      EntryIndexFinds(market, s);
      SoundSeries(market, s.timeframe);
      TradePaysWithin(s, p, CandlesOf(market, s.timeframe), EntryIndex(market, s).value);
      hide Walk, LevelsOf, EntryIndex, PaysWithin, SoundMarket, Series, CandlesOf;
    }
  }

  /**
   Payoff envelope of the simulator: whatever the candles do, a trade on a sound
   signal ends between the capped loss and the full payoff.
   */
  lemma {:induction false} TradesInEnvelope(p: Profile, market: Market, signals: seq<EntrySignal>, n: nat)
    requires SoundMarket(market) && Tradable(signals) && Normalized(p) && n <= |signals|
    requires forall s :: s in signals ==> SoundGeometry(s)
    ensures AllInEnvelope(p, Simulate(p, market, signals, n).trades)
  {
    if n > 0 {
      hide Take, AllInEnvelope, SoundMarket, Normalized, SoundGeometry;
      TradesInEnvelope(p, market, signals, n - 1);
      TakeStaysInEnvelope(Simulate(p, market, signals, n - 1), p, market, signals[n - 1]);
    }
  }

  /** A market in which the signal's candle closes at the entry price and trading goes on. */
  ghost predicate EntersOn(s: EntrySignal, candles: seq<Candle>, i: nat) {
    Series(candles) && i + 1 < |candles| && candles[i].ts == s.ts && candles[i].close == s.entry
  }

  /**
   The upper half of the envelope holds for every continuation of the market if
   and only if the trade is capped.
   */
  lemma UpperEnvelopeExact(s: EntrySignal, p: Profile)
    requires SoundGeometry(s) && Normalized(p)
    ensures Capped(s, p)
       <==> (forall candles: seq<Candle>, i: nat :: EntersOn(s, candles, i) ==>
               Walk(s, LevelsOf(s, p), p, candles, i + 1, FRESH).running.realized <= FullPayoff(s, p))
  {
    if Capped(s, p) {
      forall candles: seq<Candle>, i: nat | EntersOn(s, candles, i)
        ensures Walk(s, LevelsOf(s, p), p, candles, i + 1, FRESH).running.realized <= FullPayoff(s, p)
      {
        TradePaysWithin(s, p, candles, i);
      }
    } else {
      var candles := FarFirstTarget(s, p);
      assert EntersOn(s, candles, 0);
    }
  }

  /** A return beyond the full payoff and short of the first target, when there is room for one. */
  lemma RatioBeyondPayoff(s: EntrySignal, p: Profile) returns (y: real)
    requires SoundGeometry(s) && Normalized(p) && !Capped(s, p)
    ensures 0.0 < FullPayoff(s, p) < y < Ratio1(s, p)
    ensures Tp1Price(s, p) <= 0.0 ==> y < 1.0
  {
    LevelRatios(s, p);
    if Tp1Price(s, p) <= 0.0 {
      TargetBeyondZero(s, p);
    }
    hide ProfitRatio, Ratio1, Tp1Price, StopPrice, TargetPrice, SoundGeometry;
    var bound := if Tp1Price(s, p) <= 0.0 then 1.0 else Ratio1(s, p);
    y := (FullPayoff(s, p) + bound) / 2.0;
  }

  /** A target at or below zero lies at least the whole entry away. */
  lemma TargetBeyondZero(s: EntrySignal, p: Profile)
    requires SoundGeometry(s) && Normalized(p) && Tp1Price(s, p) <= 0.0
    ensures Ratio1(s, p) >= 1.0
  {
    hide Tp1Price;
    OnlyShortsAimBelowZero(s, p);
    DivisionMonotone(s.entry, s.entry - Tp1Price(s, p), s.entry);
  }

  lemma PositiveTarget(s: EntrySignal, y: real)
    requires s.entry > 0.0
    ensures if s.side == Long then y > 0.0 ==> TargetPrice(s, y) > s.entry else y < 1.0 ==> TargetPrice(s, y) > 0.0
  {
    if s.side == Long {
      if y > 0.0 {
        ScaleBy(s.entry, y);
      }
    } else if y < 1.0 {
      PositiveProduct(s.entry, 1.0 - y);
    }
  }

  lemma PositiveProduct(a: real, b: real)
    requires a > 0.0 && b > 0.0
    ensures a * b > 0.0
  {
  }

  /** A price beyond the full payoff and short of the first target, when there is room for one. */
  lemma PriceBeyondPayoff(s: EntrySignal, p: Profile) returns (x: real)
    requires SoundGeometry(s) && Normalized(p) && !Capped(s, p)
    ensures x > 0.0 && ProfitRatio(s.side, s.entry, x) > FullPayoff(s, p)
    ensures if s.side == Long then s.entry < x < Tp1Price(s, p) else Tp1Price(s, p) < x < s.entry
  {
    hide ProfitRatio, Tp1Price, TargetPrice, FullPayoff, Capped;
    var y := RatioBeyondPayoff(s, p);
    x := TargetPrice(s, y);
    TargetRatio(s, y);
    RatioMonotone(s.side, s.entry, Tp1Price(s, p), x);
    RatioMonotone(s.side, s.entry, x, Tp1Price(s, p));
    RatioMonotone(s.side, s.entry, x, s.entry);
    RatioMonotone(s.side, s.entry, s.entry, x);
    PositiveTarget(s, y);
  }

  /** A quiet bar that closes there banks no target and still beats the full payoff. */
  lemma FarFirstTarget(s: EntrySignal, p: Profile) returns (candles: seq<Candle>)
    requires SoundGeometry(s) && Normalized(p) && !Capped(s, p)
    ensures EntersOn(s, candles, 0)
    ensures Walk(s, LevelsOf(s, p), p, candles, 1, FRESH).running.realized > FullPayoff(s, p)
  {
    var x := PriceBeyondPayoff(s, p);
    LevelsEnvelope(s, p);
    candles := [Candle(s.ts, s.entry, s.entry, s.entry, s.entry), Candle(s.ts + 1, x, x, x, x)];
    var lv, c := LevelsOf(s, p), candles[1];
    assert lv.stop == StopPrice(s, p) && lv.tp1 == Tp1Price(s, p);
    hide ProfitRatio, LevelsOf, StopPrice, Tp1Price, FullPayoff;
    var seen := Excursion(s, FRESH, c);
    assert !StopHit(s.side, c, lv.stop) && TakeTargets(s, lv, seen, c) == seen;
    assert Walk(s, lv, p, candles, 2, seen).running.realized == ProfitRatio(s.side, s.entry, x);
    assert Walk(s, lv, p, candles, 1, FRESH) == Walk(s, lv, p, candles, 2, seen) || TimeIsUp(s, p, c);
  }
}
