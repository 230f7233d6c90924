/**
 An account of every simulated trade, told from its signal, the profile and the
 candles: its levels, the bar that ends it, the targets reached by then and what
 it earned; and which signals become trades.
 */
module TradeAudit {
  import opened Prelude
  import opened Candles
  import opened Pivots
  import opened Signals
  import opened Trades

  // ---- levels ----

  /**
   The stop is the tighter of the impulse start with its buffer and the cap on the
   loss. The first target is the signal's own where it lies between the entry and
   the cap, and the cap otherwise.
   */
  predicate LevelsStated(s: EntrySignal, p: Profile, lv: Levels) {
    match s.side
    case Long =>
      && s.impulseStart * (1.0 - p.slBuffer) <= lv.stop && s.entry * (1.0 - p.maxSl) <= lv.stop
      && (lv.stop == s.impulseStart * (1.0 - p.slBuffer) || lv.stop == s.entry * (1.0 - p.maxSl))
      && lv.tp1 == (if s.entry < s.target <= s.entry * (1.0 + p.tp1Max) then s.target else s.entry * (1.0 + p.tp1Max))
      && lv.tp2 == s.entry * (1.0 + p.tp2) && lv.tp3 == s.entry * (1.0 + p.tp3)
    case Short =>
      && lv.stop <= s.impulseStart * (1.0 + p.slBuffer) && lv.stop <= s.entry * (1.0 + p.maxSl)
      && (lv.stop == s.impulseStart * (1.0 + p.slBuffer) || lv.stop == s.entry * (1.0 + p.maxSl))
      && lv.tp1 == (if s.entry * (1.0 - p.tp1Max) <= s.target < s.entry then s.target else s.entry * (1.0 - p.tp1Max))
      && lv.tp2 == s.entry * (1.0 - p.tp2) && lv.tp3 == s.entry * (1.0 - p.tp3)
  }

  lemma LongLevels(s: EntrySignal, p: Profile)
    requires s.side == Long
    ensures LevelsStated(s, p, LevelsOf(s, p))
  {
    var cap := s.entry * (1.0 + p.tp1Max);
    assert Tp1Price(s, p) == if s.entry < s.target <= cap then s.target else cap;
    hide Tp1Price;
  }

  lemma ShortLevels(s: EntrySignal, p: Profile)
    requires s.side == Short
    ensures LevelsStated(s, p, LevelsOf(s, p))
  {
    var cap := s.entry * (1.0 - p.tp1Max);
    assert Tp1Price(s, p) == if cap <= s.target < s.entry then s.target else cap;
    hide Tp1Price;
  }

  lemma LevelsAreStated(s: EntrySignal, p: Profile)
    ensures LevelsStated(s, p, LevelsOf(s, p))
  {
    hide LevelsStated, LevelsOf;
    match s.side
    case Long => LongLevels(s, p);
    case Short => ShortLevels(s, p);
  }

  // ---- what happens on a bar ----

  /** A bar reaches a price that lies in the trade's favour. */
  predicate Reaches(side: Side, c: Candle, price: real) {
    match side case Long => price <= c.high case Short => c.low <= price
  }

  /** A bar falls back to a price that lies against the trade. */
  predicate FallsTo(side: Side, c: Candle, price: real) {
    match side case Long => c.low <= price case Short => price <= c.high
  }

  /** The first target is reached on one of the bars after candle `i`, up to `m`. */
  ghost predicate Tp1By(s: EntrySignal, lv: Levels, candles: seq<Candle>, i: nat, m: nat)
    requires m < |candles|
  {
    exists j: nat :: i < j <= m && Reaches(s.side, candles[j], lv.tp1)
  }

  /** So is the second, once the first is. */
  ghost predicate Tp2By(s: EntrySignal, lv: Levels, candles: seq<Candle>, i: nat, m: nat)
    requires m < |candles|
  {
    exists j: nat :: i < j <= m && Reaches(s.side, candles[j], lv.tp2) && Tp1By(s, lv, candles, i, j)
  }

  /** And the third, once the second is. */
  ghost predicate Tp3By(s: EntrySignal, lv: Levels, candles: seq<Candle>, i: nat, m: nat)
    requires m < |candles|
  {
    exists j: nat :: i < j <= m && Reaches(s.side, candles[j], lv.tp3) && Tp2By(s, lv, candles, i, j)
  }

  /** The stop that a bar meets: the entry once an earlier bar reached the first target. */
  ghost function StopAt(s: EntrySignal, lv: Levels, candles: seq<Candle>, i: nat, k: nat): real
    requires 0 < k < |candles|
  {
    if Tp1By(s, lv, candles, i, k - 1) then s.entry else lv.stop
  }

  ghost predicate Stopped(s: EntrySignal, lv: Levels, candles: seq<Candle>, i: nat, k: nat)
    requires 0 < k < |candles|
  {
    FallsTo(s.side, candles[k], StopAt(s, lv, candles, i, k))
  }

  /** The configured hours have passed since the entry; time is in microseconds. */
  predicate Overdue(s: EntrySignal, p: Profile, c: Candle) {
    c.ts >= s.ts + p.timeStopHours * 3600 * 1_000_000
  }

  ghost predicate Ends(s: EntrySignal, lv: Levels, p: Profile, candles: seq<Candle>, i: nat, k: nat)
    requires 0 < k < |candles|
  {
    Stopped(s, lv, candles, i, k) || Tp3By(s, lv, candles, i, k) || Overdue(s, p, candles[k])
  }

  // ---- what a trade earned ----

  function Gain(side: Side, from: real, to: real): real {
    match side case Long => to - from case Short => from - to
  }

  /** What is earned per unit when shares are sold at the targets reached and the rest at the exit. */
  function Earned(s: EntrySignal, lv: Levels, tp1: bool, tp2: bool, exit: real): real {
    (if tp1 then 0.34 * Gain(s.side, s.entry, lv.tp1) else 0.0)
    + (if tp2 then 0.33 * Gain(s.side, s.entry, lv.tp2) else 0.0)
    + (1.0 - (if tp1 then 0.34 else 0.0) - (if tp2 then 0.33 else 0.0)) * Gain(s.side, s.entry, exit)
  }

  /** A return, in units of the price. */
  function Priced(s: EntrySignal, x: real): real { x * s.entry }

  /** The gain per unit at the worst price of a bar, and at its best. */
  function Worst(s: EntrySignal, c: Candle): real {
    match s.side case Long => c.low - s.entry case Short => s.entry - c.high
  }

  function Best(s: EntrySignal, c: Candle): real {
    match s.side case Long => c.high - s.entry case Short => s.entry - c.low
  }

  /** `x` is the worst return of the bars up to `k`, or none. */
  ghost predicate WorstReturn(s: EntrySignal, candles: seq<Candle>, i: nat, k: nat, x: real)
    requires k < |candles|
  {
    && x <= 0.0
    && (forall j: nat :: i < j <= k ==> Priced(s, x) <= Worst(s, candles[j]))
    && (x == 0.0 || exists j: nat :: i < j <= k && Worst(s, candles[j]) == Priced(s, x))
  }

  /** `x` is the best return of the bars up to `k`, or none. */
  ghost predicate BestReturn(s: EntrySignal, candles: seq<Candle>, i: nat, k: nat, x: real)
    requires k < |candles|
  {
    && 0.0 <= x
    && (forall j: nat :: i < j <= k ==> Best(s, candles[j]) <= Priced(s, x))
    && (x == 0.0 || exists j: nat :: i < j <= k && Best(s, candles[j]) == Priced(s, x))
  }

  ghost predicate ExcursionsAre(s: EntrySignal, candles: seq<Candle>, i: nat, k: nat, r: Running)
    requires k < |candles|
  {
    WorstReturn(s, candles, i, k, r.maxAdverse) && BestReturn(s, candles, i, k, r.maxFavourable)
  }

  /**
   A trade entered on candle `i` ends on bar `k`: the first bar that falls to the
   stop, reaches the third target or comes too late, or else the last bar. The stop
   comes first on a bar, then the targets, then the time.
   */
  ghost predicate EndsOn(s: EntrySignal, lv: Levels, p: Profile, candles: seq<Candle>, i: nat, k: nat, o: Outcome) {
    && i < k < |candles|
    && (forall j :: i < j < k ==> !Ends(s, lv, p, candles, i, j))
    && (Ends(s, lv, p, candles, i, k) || k == |candles| - 1)
    && o.exitTime == candles[k].ts && o.running.barsHeld == k - i && o.running.remaining == 0.0
    && (var last := if Stopped(s, lv, candles, i, k) then k - 1 else k;
        && (o.running.tp1Hit <==> Tp1By(s, lv, candles, i, last))
        && (o.running.tp2Hit <==> Tp2By(s, lv, candles, i, last))
        && (o.running.tp3Hit <==> Tp3By(s, lv, candles, i, last)))
    && (if Stopped(s, lv, candles, i, k) then
          && o.reason == (if Tp1By(s, lv, candles, i, k - 1) then BreakevenStop else StopLoss)
          && o.exitPrice == StopAt(s, lv, candles, i, k)
        else if Tp3By(s, lv, candles, i, k) then o.reason == TakeProfit3 && o.exitPrice == lv.tp3
        else
          && o.reason == (if Overdue(s, p, candles[k]) then TimeStop else DatasetEnd)
          && o.exitPrice == candles[k].close)
    && Priced(s, o.running.realized) == Earned(s, lv, o.running.tp1Hit, o.running.tp2Hit, o.exitPrice)
    && ExcursionsAre(s, candles, i, k, o.running)
  }

  // ---- the walk along the bars ----

  /** What the simulator knows after the bars up to `m`, none of which ended the trade. */
  ghost predicate OpenAt(s: EntrySignal, lv: Levels, p: Profile, candles: seq<Candle>, i: nat, m: nat, r: Running) {
    && i <= m < |candles| && Shaped(r) && r.barsHeld == m - i
    && (forall j :: i < j <= m ==> !Ends(s, lv, p, candles, i, j))
    && (r.tp1Hit <==> Tp1By(s, lv, candles, i, m)) && (r.tp2Hit <==> Tp2By(s, lv, candles, i, m))
    && Priced(s, r.realized) == Earned(s, lv, r.tp1Hit, r.tp2Hit, s.entry)
    && ExcursionsAre(s, candles, i, m, r)
  }

  lemma ByNext(s: EntrySignal, lv: Levels, candles: seq<Candle>, i: nat, k: nat)
    requires i < k < |candles|
    ensures Tp1By(s, lv, candles, i, k) <==> Tp1By(s, lv, candles, i, k - 1) || Reaches(s.side, candles[k], lv.tp1)
    ensures Tp2By(s, lv, candles, i, k)
       <==> Tp2By(s, lv, candles, i, k - 1) || (Reaches(s.side, candles[k], lv.tp2) && Tp1By(s, lv, candles, i, k))
    ensures Tp3By(s, lv, candles, i, k)
       <==> Tp3By(s, lv, candles, i, k - 1) || (Reaches(s.side, candles[k], lv.tp3) && Tp2By(s, lv, candles, i, k))
  {
    Tp1Next(s, lv, candles, i, k);
    Tp2Next(s, lv, candles, i, k);
    Tp3Next(s, lv, candles, i, k);
  }

  lemma Tp1Next(s: EntrySignal, lv: Levels, candles: seq<Candle>, i: nat, k: nat)
    requires i < k < |candles|
    ensures Tp1By(s, lv, candles, i, k) <==> Tp1By(s, lv, candles, i, k - 1) || Reaches(s.side, candles[k], lv.tp1)
  {
  }

  lemma Tp2Next(s: EntrySignal, lv: Levels, candles: seq<Candle>, i: nat, k: nat)
    requires i < k < |candles|
    ensures Tp2By(s, lv, candles, i, k)
       <==> Tp2By(s, lv, candles, i, k - 1) || (Reaches(s.side, candles[k], lv.tp2) && Tp1By(s, lv, candles, i, k))
  {
    hide Tp1By;
  }

  lemma Tp3Next(s: EntrySignal, lv: Levels, candles: seq<Candle>, i: nat, k: nat)
    requires i < k < |candles|
    ensures Tp3By(s, lv, candles, i, k)
       <==> Tp3By(s, lv, candles, i, k - 1) || (Reaches(s.side, candles[k], lv.tp3) && Tp2By(s, lv, candles, i, k))
  {
    hide Tp2By;
  }

  /** The return of a share, in units of the entry. */
  lemma ProceedsAre(s: EntrySignal, share: real, price: real)
    requires s.entry > 0.0
    ensures Priced(s, Proceeds(s, share, price)) == share * Gain(s.side, s.entry, price)
  {
    var x := Gain(s.side, s.entry, price) / s.entry;
    assert x * s.entry == Gain(s.side, s.entry, price);
    assert share * x * s.entry == share * (x * s.entry);
  }

  lemma SellIs(s: EntrySignal, r: Running, share: real, price: real)
    requires s.entry > 0.0
    ensures Priced(s, Sell(s, r, share, price).realized)
         == Priced(s, r.realized) + share * Gain(s.side, s.entry, price)
  {
    ProceedsAre(s, share, price);
    hide Proceeds;
    assert (r.realized + Proceeds(s, share, price)) * s.entry
        == r.realized * s.entry + Proceeds(s, share, price) * s.entry;
  }

  lemma ExcursionIs(s: EntrySignal, candles: seq<Candle>, i: nat, k: nat, r: Running)
    requires s.entry > 0.0 && i < k < |candles| && ExcursionsAre(s, candles, i, k - 1, r)
    ensures ExcursionsAre(s, candles, i, k, Excursion(s, r, candles[k]))
  {
    hide ProfitRatio, WorstReturn, BestReturn, Priced, Min, Max;
    var c := candles[k];
    var worst, best := if s.side == Long then c.low else c.high, if s.side == Long then c.high else c.low;
    RatioTimes(s, worst);
    RatioTimes(s, best);
    WorstNext(s, candles, i, k, r.maxAdverse, ProfitRatio(s.side, s.entry, worst));
    BestNext(s, candles, i, k, r.maxFavourable, ProfitRatio(s.side, s.entry, best));
  }

  lemma WorstNext(s: EntrySignal, candles: seq<Candle>, i: nat, k: nat, x: real, y: real)
    requires s.entry > 0.0 && i < k < |candles| && WorstReturn(s, candles, i, k - 1, x)
    requires Priced(s, y) == Worst(s, candles[k])
    ensures WorstReturn(s, candles, i, k, Min(x, y))
  {
    hide Worst, Priced;
    PricedOrder(s, Min(x, y), x);
    PricedOrder(s, Min(x, y), y);
  }

  lemma BestNext(s: EntrySignal, candles: seq<Candle>, i: nat, k: nat, x: real, y: real)
    requires s.entry > 0.0 && i < k < |candles| && BestReturn(s, candles, i, k - 1, x)
    requires Priced(s, y) == Best(s, candles[k])
    ensures BestReturn(s, candles, i, k, Max(x, y))
  {
    hide Best, Priced;
    PricedOrder(s, x, Max(x, y));
    PricedOrder(s, y, Max(x, y));
  }

  lemma RatioTimes(s: EntrySignal, price: real)
    requires s.entry > 0.0
    ensures Priced(s, ProfitRatio(s.side, s.entry, price)) == Gain(s.side, s.entry, price)
  {
  }

  lemma PricedOrder(s: EntrySignal, a: real, b: real)
    requires s.entry > 0.0 && a <= b
    ensures Priced(s, a) <= Priced(s, b)
  {
    assert (b - a) * s.entry >= 0.0;
  }

  /** A bar that does not stop the trade out leaves it with the targets it reached. */
  lemma TargetsAre(s: EntrySignal, lv: Levels, p: Profile, candles: seq<Candle>, i: nat, k: nat, r: Running)
    requires s.entry > 0.0 && i < k < |candles| && Shaped(r)
    requires r.tp1Hit <==> Tp1By(s, lv, candles, i, k - 1)
    requires r.tp2Hit <==> Tp2By(s, lv, candles, i, k - 1)
    requires !Tp3By(s, lv, candles, i, k - 1)
    requires Priced(s, r.realized) == Earned(s, lv, r.tp1Hit, r.tp2Hit, s.entry)
    ensures var next := TakeTargets(s, lv, r, candles[k]);
      && (next.tp1Hit <==> Tp1By(s, lv, candles, i, k))
      && (next.tp2Hit <==> Tp2By(s, lv, candles, i, k))
      && (next.tp3Hit <==> Tp3By(s, lv, candles, i, k))
      && (if next.tp3Hit
          then next.remaining == 0.0
               && Priced(s, next.realized) == Earned(s, lv, next.tp1Hit, next.tp2Hit, lv.tp3)
          else Shaped(next) && Priced(s, next.realized) == Earned(s, lv, next.tp1Hit, next.tp2Hit, s.entry))
      && next == r.(realized := next.realized, remaining := next.remaining, tp1Hit := next.tp1Hit,
                    tp2Hit := next.tp2Hit, tp3Hit := next.tp3Hit)
  {
    hide Tp1By, Tp2By, Tp3By, Sell, Priced, Gain;
    ByNext(s, lv, candles, i, k);
    TargetsKeepShape(s, lv, r, candles[k]);
    NoGainAtEntry(s);
    var c := candles[k];
    SellKeeps(s, r, FRACTION_1, lv.tp1);
    SellIs(s, r, FRACTION_1, lv.tp1);
    var r1 := if !r.tp1Hit && TargetHit(s.side, c, lv.tp1) then Sell(s, r, FRACTION_1, lv.tp1).(tp1Hit := true) else r;
    SellKeeps(s, r1, FRACTION_2, lv.tp2);
    SellIs(s, r1, FRACTION_2, lv.tp2);
    var r2 := if r1.tp1Hit && !r1.tp2Hit && TargetHit(s.side, c, lv.tp2)
              then Sell(s, r1, FRACTION_2, lv.tp2).(tp2Hit := true) else r1;
    SellKeeps(s, r2, r2.remaining, lv.tp3);
    SellIs(s, r2, r2.remaining, lv.tp3);
  }

  lemma NoGainAtEntry(s: EntrySignal)
    ensures Gain(s.side, s.entry, s.entry) == 0.0
  {
  }

  lemma SellKeeps(s: EntrySignal, r: Running, share: real, price: real)
    requires s.entry > 0.0
    ensures Sell(s, r, share, price)
         == r.(realized := Sell(s, r, share, price).realized, remaining := r.remaining - share)
  {
  }

  /** Selling what is left at a price ends the trade with what it earned. */
  lemma SoldOut(s: EntrySignal, lv: Levels, r: Running, price: real)
    requires s.entry > 0.0 && Shaped(r) && Priced(s, r.realized) == Earned(s, lv, r.tp1Hit, r.tp2Hit, s.entry)
    ensures var sold := Sell(s, r, r.remaining, price);
      sold.remaining == 0.0 && Priced(s, sold.realized) == Earned(s, lv, r.tp1Hit, r.tp2Hit, price)
  {
    hide Sell, Priced, Gain;
    NoGainAtEntry(s);
    SellIs(s, r, r.remaining, price);
    SellKeeps(s, r, r.remaining, price);
  }

  lemma NoTargetsYet(s: EntrySignal, lv: Levels, p: Profile, candles: seq<Candle>, i: nat)
    requires s.entry > 0.0 && i < |candles|
    ensures OpenAt(s, lv, p, candles, i, i, FRESH)
  {
  }

  lemma NoThirdYet(s: EntrySignal, lv: Levels, p: Profile, candles: seq<Candle>, i: nat, m: nat, r: Running)
    requires OpenAt(s, lv, p, candles, i, m, r)
    ensures !Tp3By(s, lv, candles, i, m)
  {
    if m > i {
      assert !Ends(s, lv, p, candles, i, m);
    }
  }

  /** A trade that is open before a bar that reaches its stop ends on that bar. */
  lemma BarStops(s: EntrySignal, lv: Levels, p: Profile, candles: seq<Candle>, i: nat, k: nat, r: Running)
    requires s.entry > 0.0 && i < k < |candles| && OpenAt(s, lv, p, candles, i, k - 1, r)
    requires StopHit(s.side, candles[k], ActiveStop(s, lv, Excursion(s, r, candles[k])))
    ensures var seen := Excursion(s, r, candles[k]);
      var stop := ActiveStop(s, lv, seen);
      EndsOn(s, lv, p, candles, i, k,
             Outcome(Sell(s, seen, seen.remaining, stop), if seen.tp1Hit then BreakevenStop else StopLoss, stop,
                     candles[k].ts))
  {
    NoThirdYet(s, lv, p, candles, i, k - 1, r);
    hide Tp1By, Tp2By, Tp3By, Sell, Priced, Gain, Earned, ExcursionsAre;
    var seen := Excursion(s, r, candles[k]);
    ExcursionIs(s, candles, i, k, r);
    SoldOut(s, lv, seen, ActiveStop(s, lv, seen));
    SellKeeps(s, seen, seen.remaining, ActiveStop(s, lv, seen));
    SameExcursions(s, candles, i, k, seen, Sell(s, seen, seen.remaining, ActiveStop(s, lv, seen)));
  }

  /** A trade that a bar does not stop out ends on it, on its targets or its time, or is open after it. */
  lemma BarGoesOn(s: EntrySignal, lv: Levels, p: Profile, candles: seq<Candle>, i: nat, k: nat, r: Running)
    requires s.entry > 0.0 && i < k < |candles| && OpenAt(s, lv, p, candles, i, k - 1, r)
    requires !StopHit(s.side, candles[k], ActiveStop(s, lv, Excursion(s, r, candles[k])))
    ensures var seen := Excursion(s, r, candles[k]);
      var next := TakeTargets(s, lv, seen, candles[k]);
      if next.tp3Hit && !seen.tp3Hit then
        EndsOn(s, lv, p, candles, i, k, Outcome(next, TakeProfit3, lv.tp3, candles[k].ts))
      else if TimeIsUp(s, p, candles[k]) then
        EndsOn(s, lv, p, candles, i, k,
               Outcome(Sell(s, next, next.remaining, candles[k].close), TimeStop, candles[k].close, candles[k].ts))
      else OpenAt(s, lv, p, candles, i, k, next)
  {
    NoThirdYet(s, lv, p, candles, i, k - 1, r);
    hide Tp1By, Tp2By, Tp3By, Sell, Priced, Gain, Earned, TakeTargets, ExcursionsAre;
    var seen := Excursion(s, r, candles[k]);
    ExcursionIs(s, candles, i, k, r);
    TargetsAre(s, lv, p, candles, i, k, seen);
    var next := TakeTargets(s, lv, seen, candles[k]);
    SameExcursions(s, candles, i, k, seen, next);
    if !next.tp3Hit {
      SoldOut(s, lv, next, candles[k].close);
      SellKeeps(s, next, next.remaining, candles[k].close);
      SameExcursions(s, candles, i, k, seen, Sell(s, next, next.remaining, candles[k].close));
    }
  }

  lemma SameExcursions(s: EntrySignal, candles: seq<Candle>, i: nat, k: nat, r: Running, q: Running)
    requires k < |candles| && q.maxAdverse == r.maxAdverse && q.maxFavourable == r.maxFavourable
    ensures ExcursionsAre(s, candles, i, k, r) <==> ExcursionsAre(s, candles, i, k, q)
  {
    hide WorstReturn, BestReturn;
  }

  /** From any bar on, the walk ends the trade on the declared bar. */
  lemma {:induction false} WalkEnds(s: EntrySignal, lv: Levels, p: Profile, candles: seq<Candle>, i: nat, m: nat,
                                    r: Running) returns (k: nat)
    requires s.entry > 0.0 && OpenAt(s, lv, p, candles, i, m, r) && (m > i || m + 1 < |candles|)
    ensures EndsOn(s, lv, p, candles, i, k, Walk(s, lv, p, candles, m + 1, r))
    decreases |candles| - m
  {
    hide Tp1By, Tp2By, Tp3By, Sell, Priced, Gain, Earned, TakeTargets, WorstReturn, BestReturn, Excursion, EndsOn,
         OpenAt, ActiveStop;
    OpenInRange(s, lv, p, candles, i, m, r);
    if m + 1 == |candles| {
      k := m;
      LastBar(s, lv, p, candles, i, k, r);
    } else {
      if StopHit(s.side, candles[m + 1], ActiveStop(s, lv, Excursion(s, r, candles[m + 1]))) {
        BarStops(s, lv, p, candles, i, m + 1, r);
      } else {
        BarGoesOn(s, lv, p, candles, i, m + 1, r);
      }
      var next := TakeTargets(s, lv, Excursion(s, r, candles[m + 1]), candles[m + 1]);
      k := m + 1;
      if OpenAt(s, lv, p, candles, i, m + 1, next)
         && Walk(s, lv, p, candles, m + 1, r) == Walk(s, lv, p, candles, m + 2, next) {
        k := WalkEnds(s, lv, p, candles, i, m + 1, next);
      }
    }
  }

  lemma OpenInRange(s: EntrySignal, lv: Levels, p: Profile, candles: seq<Candle>, i: nat, m: nat, r: Running)
    requires OpenAt(s, lv, p, candles, i, m, r)
    ensures i <= m < |candles|
  {
  }

  /** A trade that is open after the last bar is settled there. */
  lemma LastBar(s: EntrySignal, lv: Levels, p: Profile, candles: seq<Candle>, i: nat, k: nat, r: Running)
    requires s.entry > 0.0 && i < k == |candles| - 1 && OpenAt(s, lv, p, candles, i, k, r)
    ensures EndsOn(s, lv, p, candles, i, k, Walk(s, lv, p, candles, k + 1, r))
  {
    NoThirdYet(s, lv, p, candles, i, k, r);
    assert !Ends(s, lv, p, candles, i, k);
    SoldOut(s, lv, r, candles[k].close);
    SellKeeps(s, r, r.remaining, candles[k].close);
    hide Tp1By, Tp2By, Tp3By, Sell, Priced, Gain, Earned, WorstReturn, BestReturn;
  }

  // ---- all trades ----

  /** A trade has the stated levels, enters on the candle of its signal and ends on the declared bar. */
  ghost predicate Audited(t: Trade, p: Profile, candles: seq<Candle>) {
    && LevelsStated(t.signal, p, t.levels)
    && exists i: nat, k: nat ::
         i < |candles| && candles[i].ts == t.signal.ts && EndsOn(t.signal, t.levels, p, candles, i, k, t.outcome)
  }

  lemma TradeIsAudited(p: Profile, market: Market, s: EntrySignal, i: nat)
    requires s.entry > 0.0 && i + 1 < |CandlesOf(market, s.timeframe)|
    requires CandlesOf(market, s.timeframe)[i].ts == s.ts
    ensures Audited(TradeOn(p, market, s, i), p, CandlesOf(market, s.timeframe))
  {
    hide EndsOn, Walk, OpenAt, LevelsOf, LevelsStated, CandlesOf;
    LevelsAreStated(s, p);
    NoTargetsYet(s, LevelsOf(s, p), p, CandlesOf(market, s.timeframe), i);
    var k := WalkEnds(s, LevelsOf(s, p), p, CandlesOf(market, s.timeframe), i, i, FRESH);
  }

  /** Signal `n` has its candle in the market and a later one to trade in. */
  ghost predicate Enterable(market: Market, s: EntrySignal) {
    s.timeframe in market
    && exists i: nat :: i + 1 < |market[s.timeframe]| && market[s.timeframe][i].ts == s.ts
  }

  lemma EnterableExactly(market: Market, s: EntrySignal)
    requires SoundMarket(market)
    ensures Enterable(market, s) <==> EntryIndex(market, s).Some?
  {
    if EntryIndex(market, s).Some? {
      EntryIndexFinds(market, s);
    }
  }

  /** Of the trades picked before signal `m`, those that closed inside the data are out by its time. */
  ghost predicate Free(trades: seq<Trade>, picks: seq<nat>, m: nat, ts: int)
    requires |picks| == |trades|
  {
    forall j :: 0 <= j < |picks| && picks[j] < m && trades[j].outcome.reason != DatasetEnd ==>
      trades[j].outcome.exitTime <= ts
  }

  /**
   The trades are a greedy choice: `picks` names the signal of each trade, in order,
   and of the first `n` signals exactly those are picked that can be entered when
   every trade picked before that closed inside the data is out.
   */
  ghost predicate Chosen(trades: seq<Trade>, picks: seq<nat>, market: Market, signals: seq<EntrySignal>, n: nat)
    requires n <= |signals|
  {
    && |picks| == |trades|
    && (forall a, b :: 0 <= a < b < |picks| ==> picks[a] < picks[b])
    && (forall j :: 0 <= j < |picks| ==> picks[j] < n && trades[j].signal == signals[picks[j]])
    && (forall m: nat :: m < n ==>
          (m in picks <==> Enterable(market, signals[m]) && Free(trades, picks, m, signals[m].ts)))
  }

  /** The next available time is the latest exit inside the data. */
  ghost predicate LatestExit(b: Book) {
    match b.nextAvailable
    case None => forall j :: 0 <= j < |b.trades| ==> b.trades[j].outcome.reason == DatasetEnd
    case Some(ts) =>
      && (forall j :: 0 <= j < |b.trades| && b.trades[j].outcome.reason != DatasetEnd ==>
            b.trades[j].outcome.exitTime <= ts)
      && exists j ::
           0 <= j < |b.trades| && b.trades[j].outcome.reason != DatasetEnd && b.trades[j].outcome.exitTime == ts
  }

  lemma BlockedIs(b: Book, picks: seq<nat>, s: EntrySignal, n: nat)
    requires |picks| == |b.trades| && LatestExit(b) && forall j :: 0 <= j < |picks| ==> picks[j] < n
    ensures Blocked(b, s) <==> !Free(b.trades, picks, n, s.ts)
  {
  }

  /** One more signal: its trade joins the chosen ones exactly when it is free to. */
  lemma ChoosesNext(trades: seq<Trade>, picks: seq<nat>, market: Market, signals: seq<EntrySignal>, n: nat,
                    more: seq<Trade>, morePicks: seq<nat>)
    requires n < |signals| && Chosen(trades, picks, market, signals, n)
    requires if Enterable(market, signals[n]) && Free(trades, picks, n, signals[n].ts) then
               |more| == |trades| + 1 && more[..|trades|] == trades && more[|trades|].signal == signals[n]
               && morePicks == picks + [n]
             else more == trades && morePicks == picks
    ensures Chosen(more, morePicks, market, signals, n + 1)
  {
    hide Enterable;
    forall j | 0 <= j < |trades| ensures more[j] == trades[j] {
      assert more[j] == more[..|trades|][j];
    }
    forall m: nat | m <= n ensures Free(more, morePicks, m, signals[m].ts) <==> Free(trades, picks, m, signals[m].ts) {
      SameFree(trades, picks, more, morePicks, n, m, signals[m].ts);
    }
    hide Free;
  }

  lemma SameFree(trades: seq<Trade>, picks: seq<nat>, more: seq<Trade>, morePicks: seq<nat>, n: nat, m: nat, ts: int)
    requires |picks| == |trades| <= |more| == |morePicks| && m <= n
    requires forall j :: 0 <= j < |trades| ==> more[j] == trades[j] && morePicks[j] == picks[j]
    requires forall j :: |trades| <= j < |more| ==> morePicks[j] >= n
    ensures Free(more, morePicks, m, ts) <==> Free(trades, picks, m, ts)
  {
  }

  lemma TakeKeepsLatest(b: Book, p: Profile, market: Market, s: EntrySignal)
    requires SoundMarket(market) && s.entry > 0.0 && LatestExit(b)
    ensures LatestExit(Take(b, p, market, s))
  {
    if !Blocked(b, s) && EntryIndex(market, s).Some? {
      EntryIndexFinds(market, s);
      var i, candles := EntryIndex(market, s).value, CandlesOf(market, s.timeframe);
      ExitsLater(s, LevelsOf(s, p), p, candles, i + 1, FRESH);
      assert candles[i].ts < candles[i + 1].ts;
      hide Walk, LevelsOf, EntryIndex, SoundMarket, CandlesOf;
      var next, t := Take(b, p, market, s), TradeOn(p, market, s, i);
      assert next.trades == b.trades + [t];
      if t.outcome.reason != DatasetEnd {
        assert next.trades[|b.trades|] == t;
      } else if b.nextAvailable.Some? {
        var j :| 0 <= j < |b.trades| && b.trades[j].outcome.reason != DatasetEnd
                 && b.trades[j].outcome.exitTime == b.nextAvailable.value;
        assert next.trades[j] == b.trades[j];
      }
    }
  }

  lemma TakeIsChoice(b: Book, picks: seq<nat>, p: Profile, market: Market, signals: seq<EntrySignal>, n: nat)
    returns (more: seq<nat>)
    requires SoundMarket(market) && Tradable(signals) && n < |signals| && LatestExit(b)
    requires Chosen(b.trades, picks, market, signals, n)
    ensures Chosen(Take(b, p, market, signals[n]).trades, more, market, signals, n + 1)
    ensures forall t :: t in Take(b, p, market, signals[n]).trades ==>
      t in b.trades || (t.signal.timeframe in market && Audited(t, p, market[t.signal.timeframe]))
  {
    var s := signals[n];
    EnterableExactly(market, s);
    BlockedIs(b, picks, s, n);
    more := if Blocked(b, s) || EntryIndex(market, s) == None then picks else picks + [n];
    ChoosesNext(b.trades, picks, market, signals, n, Take(b, p, market, s).trades, more);
    if !Blocked(b, s) && EntryIndex(market, s).Some? {
      EntryIndexFinds(market, s);
      TradeIsAudited(p, market, s, EntryIndex(market, s).value);
    }
    hide Walk, LevelsOf, EntryIndex, SoundMarket, Audited, Chosen, LatestExit, Free;
  }

  /** Every trade of the book is audited on the candles of its timeframe. */
  ghost predicate AllAudited(trades: seq<Trade>, p: Profile, market: Market) {
    forall t :: t in trades ==> t.signal.timeframe in market && Audited(t, p, market[t.signal.timeframe])
  }

  /**
   The whole simulation, told from its inputs: which signals become trades, and for
   every trade its levels, its last bar, its targets and what it earned.
   */
  lemma {:induction false} SimulationIsAudited(p: Profile, market: Market, signals: seq<EntrySignal>, n: nat)
    returns (picks: seq<nat>)
    requires SoundMarket(market) && Tradable(signals) && n <= |signals|
    ensures Chosen(Simulate(p, market, signals, n).trades, picks, market, signals, n)
    ensures AllAudited(Simulate(p, market, signals, n).trades, p, market)
    ensures LatestExit(Simulate(p, market, signals, n))
  {
    hide Take, SoundMarket, Audited, Chosen, LatestExit;
    if n == 0 {
      picks := [];
      NothingChosen(market, signals);
    } else {
      var before := Simulate(p, market, signals, n - 1);
      var chosen := SimulationIsAudited(p, market, signals, n - 1);
      picks := TakeIsChoice(before, chosen, p, market, signals, n - 1);
      TakeKeepsLatest(before, p, market, signals[n - 1]);
    }
  }

  lemma NothingChosen(market: Market, signals: seq<EntrySignal>)
    ensures Chosen([], [], market, signals, 0) && LatestExit(Book([], None))
  {
  }
}
