/** What a simulation on the data known at a time says about the trades of the full run. */
module TradesNoRepaint {
  import opened Prelude
  import opened Sorting
  import opened Candles
  import opened Pivots
  import opened Regime
  import opened Signals
  import opened NoRepaint
  import opened Trades

  /** A trade that closed by `t`, and not because its data ran out. */
  predicate Settled(x: Trade, t: int) {
    x.outcome.reason != DatasetEnd && x.outcome.exitTime <= t
  }

  function SettledBy(trades: seq<Trade>, t: int): seq<Trade> {
    Filter(trades, (x: Trade) => Settled(x, t))
  }

  /** The trade that a signal would make on its own. */
  function OwnTrade(p: Profile, market: Market, s: EntrySignal): Option<Trade>
    requires SoundMarket(market) && s.entry > 0.0
  {
    match EntryIndex(market, s) case None => None case Some(i) => Some(TradeOn(p, market, s, i))
  }

  predicate Closes(p: Profile, market: Market, s: EntrySignal, t: int)
    requires SoundMarket(market) && s.entry > 0.0
  {
    OwnTrade(p, market, s).Some? && Settled(OwnTrade(p, market, s).value, t)
  }

  /** A trade that closes inside the data but after `t`. */
  predicate RunsPast(p: Profile, market: Market, s: EntrySignal, t: int)
    requires SoundMarket(market) && s.entry > 0.0
  {
    && OwnTrade(p, market, s).Some?
    && OwnTrade(p, market, s).value.outcome.reason != DatasetEnd
    && OwnTrade(p, market, s).value.outcome.exitTime > t
  }

  /** Adds a trade to the book; one that ran to the end of the data does not move the next available time. */
  function Enter(b: Book, own: Option<Trade>): Book {
    match own
    case None => b
    case Some(x) =>
      Book(b.trades + [x], if x.outcome.reason == DatasetEnd then b.nextAvailable else Some(x.outcome.exitTime))
  }

  lemma TakeIs(b: Book, p: Profile, market: Market, s: EntrySignal)
    requires SoundMarket(market) && s.entry > 0.0
    ensures Take(b, p, market, s) == if Blocked(b, s) then b else Enter(b, OwnTrade(p, market, s))
  {
    hide TradeOn, EntryIndex, SoundMarket;
  }

  lemma SoundTruncation(market: Market, t: int)
    requires SoundMarket(market)
    ensures SoundMarket(TruncateMarket(market, t))
  {
    forall tf | tf in market ensures Series(Truncate(market[tf], t)) {
      TruncateIsPrefix(market[tf], t);
    }
  }

  // ---- one trade on known data ----

  /** On the first `m` candles a trade ends as it does in full, or is still open when they run out. */
  lemma {:induction false} WalkKnown(s: EntrySignal, lv: Levels, p: Profile, candles: seq<Candle>, m: nat, i: nat,
                                     r: Running, t: int)
    requires s.entry > 0.0 && Series(candles) && 1 <= m <= |candles| && i <= m
    requires forall j :: 0 <= j < |candles| ==> (candles[j].ts <= t <==> j < m)
    ensures var full, known := Walk(s, lv, p, candles, i, r), Walk(s, lv, p, candles[..m], i, r);
      if full.reason != DatasetEnd && full.exitTime <= t then known == full else known.reason == DatasetEnd
    decreases m - i
  {
    hide Excursion, TakeTargets, Sell, StopHit, ActiveStop, TimeIsUp;
    if i == m {
      ExitsLater(s, lv, p, candles, i, r);
    } else {
      var next := TakeTargets(s, lv, Excursion(s, r, candles[i]), candles[i]);
      WalkKnown(s, lv, p, candles, m, i + 1, next, t);
    }
  }

  /** The entry of a known signal is known exactly when the candle after it is. */
  lemma EntryKnown(market: Market, s: EntrySignal, t: int)
    requires SoundMarket(market) && SoundMarket(TruncateMarket(market, t)) && s.ts <= t
    ensures var full, known := EntryIndex(market, s), EntryIndex(TruncateMarket(market, t), s);
      && (known.Some? ==> full == known)
      && (full.Some? ==> (known.Some? <==> full.value + 1 < Known(market, s.timeframe, t)))
  {
    TruncatedCandles(market, s.timeframe, t);
    SoundSeries(market, s.timeframe);
    hide TruncateMarket, SoundMarket, CountUpTo;
    var candles, m := CandlesOf(market, s.timeframe), Known(market, s.timeframe, t);
    KnownInRange(market, s.timeframe, t);
    IndexIs(candles, s.ts);
    IndexIs(candles[..m], s.ts);
  }

  /** The index of a series by time finds the candle with that time, if there is one. */
  lemma IndexIs(candles: seq<Candle>, ts: int)
    requires Series(candles)
    ensures ts in IndexByTime(candles) ==>
      IndexByTime(candles)[ts] < |candles| && candles[IndexByTime(candles)[ts]].ts == ts
    ensures forall i :: 0 <= i < |candles| && candles[i].ts == ts ==>
      ts in IndexByTime(candles) && IndexByTime(candles)[ts] == i
  {
  }

  /** A known signal's own trade is the full one if that closes by `t`, and otherwise open or not entered. */
  lemma OwnKnown(p: Profile, market: Market, s: EntrySignal, t: int)
    requires SoundMarket(market) && SoundMarket(TruncateMarket(market, t)) && s.entry > 0.0 && s.ts <= t
    ensures var known := OwnTrade(p, TruncateMarket(market, t), s);
      if Closes(p, market, s, t) then known == OwnTrade(p, market, s)
      else known == None || (OwnTrade(p, market, s).Some? && known.value.outcome.reason == DatasetEnd)
  {
    EntryKnown(market, s, t);
    hide TruncateMarket, SoundMarket, EntryIndex, Walk, LevelsOf, CountUpTo, Known;
    if EntryIndex(market, s).Some? {
      OwnKnownAt(p, market, s, EntryIndex(market, s).value, t);
    }
  }

  lemma OwnKnownAt(p: Profile, market: Market, s: EntrySignal, i: nat, t: int)
    requires SoundMarket(market) && SoundMarket(TruncateMarket(market, t)) && s.entry > 0.0 && s.ts <= t
    requires EntryIndex(market, s) == Some(i)
    ensures i + 1 < |CandlesOf(market, s.timeframe)|
    ensures var full := TradeOn(p, market, s, i);
      if i + 1 < Known(market, s.timeframe, t) then
        && i + 1 < |CandlesOf(TruncateMarket(market, t), s.timeframe)|
        && var known := TradeOn(p, TruncateMarket(market, t), s, i);
           (if Settled(full, t) then known == full else known.outcome.reason == DatasetEnd)
      else !Settled(full, t)
  {
    hide TruncateMarket, SoundMarket, EntryIndex, Walk, LevelsOf, CountUpTo, Known, CandlesOf, Series;
    EntryIndexFinds(market, s);
    TruncatedCandles(market, s.timeframe, t);
    SoundSeries(market, s.timeframe);
    KnownInRange(market, s.timeframe, t);
    var candles, m := CandlesOf(market, s.timeframe), Known(market, s.timeframe, t);
    if i + 1 < m {
      WalkKnown(s, LevelsOf(s, p), p, candles, m, i + 1, FRESH, t);
    } else {
      assert candles[i + 1].ts > t;
      ExitsLater(s, LevelsOf(s, p), p, candles, i + 1, FRESH);
    }
  }

  // ---- two simulations side by side ----

  ghost predicate InTime(signals: seq<EntrySignal>) {
    forall i, j :: 0 <= i < j < |signals| ==> signals[i].ts <= signals[j].ts
  }

  /** The signal is taken by the full run and overruns `t`, so that it blocks what follows. */
  predicate Overruns(p: Profile, market: Market, signals: seq<EntrySignal>, r: nat, t: int)
    requires SoundMarket(market) && Tradable(signals) && r < |signals|
  {
    !Blocked(Simulate(p, market, signals, r), signals[r]) && RunsPast(p, market, signals[r], t)
  }

  /** The signal is free when signal `r` is, and its own trade closes by `t`. */
  predicate SlipsIn(p: Profile, market: Market, signals: seq<EntrySignal>, r: nat, k: nat, t: int)
    requires SoundMarket(market) && Tradable(signals) && r < |signals| && k < |signals|
  {
    !Blocked(Simulate(p, market, signals, r), signals[k]) && Closes(p, market, signals[k], t)
  }

  /** No signal known by `t` would slip in behind a trade that the full run has open at `t`. */
  ghost predicate TradesDecided(p: Profile, market: Market, signals: seq<EntrySignal>, t: int)
    requires SoundMarket(market) && Tradable(signals)
  {
    forall r, k :: 0 <= r < k < |signals| && signals[k].ts <= t && Overruns(p, market, signals, r, t) ==>
      !SlipsIn(p, market, signals, r, k, t)
  }

  /** Equal settled trades and equal availability. */
  predicate Alike(full: Book, known: Book, t: int) {
    SettledBy(full.trades, t) == SettledBy(known.trades, t) && full.nextAvailable == known.nextAvailable
  }

  lemma SettledAppend(trades: seq<Trade>, x: Trade, t: int)
    ensures SettledBy(trades + [x], t) == if Settled(x, t) then SettledBy(trades, t) + [x] else SettledBy(trades, t)
  {
    FilterConcat(trades, [x], (y: Trade) => Settled(y, t));
    FilterCons(x, [], (y: Trade) => Settled(y, t));
    assert [x] + [] == [x];
  }

  lemma EnterSettles(b: Book, own: Option<Trade>, t: int)
    ensures var after := Enter(b, own);
      SettledBy(after.trades, t)
      == if own.Some? && Settled(own.value, t) then SettledBy(b.trades, t) + [own.value] else SettledBy(b.trades, t)
  {
    if own.Some? {
      SettledAppend(b.trades, own.value, t);
    }
  }

  /** A known signal that does not overrun `t` keeps the books alike. */
  lemma TakeAlike(full: Book, known: Book, p: Profile, market: Market, s: EntrySignal, t: int)
    requires SoundMarket(market) && SoundMarket(TruncateMarket(market, t)) && s.entry > 0.0 && s.ts <= t
    requires Alike(full, known, t) && (Blocked(full, s) || !RunsPast(p, market, s, t))
    ensures Alike(Take(full, p, market, s), Take(known, p, TruncateMarket(market, t), s), t)
  {
    OwnKnown(p, market, s, t);
    TakeIs(full, p, market, s);
    TakeIs(known, p, TruncateMarket(market, t), s);
    hide Take, OwnTrade, TruncateMarket, SoundMarket, SettledBy;
    EnterSettles(full, OwnTrade(p, market, s), t);
    EnterSettles(known, OwnTrade(p, TruncateMarket(market, t), s), t);
  }

  /**
   The books are equal up to the first signal whose trade is not closed by `t`:
   a trade that the known data leave open, or an entry on the last known candle.
   */
  lemma {:induction false} BooksAgree(p: Profile, market: Market, signals: seq<EntrySignal>, n: nat, t: int)
    requires SoundMarket(market) && SoundMarket(TruncateMarket(market, t)) && Tradable(signals) && n <= |signals|
    requires forall k :: 0 <= k < n ==>
      && signals[k].ts <= t
      && (|| Blocked(Simulate(p, market, signals, k), signals[k])
          || OwnTrade(p, market, signals[k]) == None
          || Closes(p, market, signals[k], t))
    ensures Simulate(p, TruncateMarket(market, t), signals, n) == Simulate(p, market, signals, n)
  {
    hide Take, OwnTrade, TruncateMarket, SoundMarket, Closes;
    if n > 0 {
      BooksAgree(p, market, signals, n - 1, t);
      var s, b := signals[n - 1], Simulate(p, market, signals, n - 1);
      OwnKnown(p, market, s, t);
      TakeIs(b, p, market, s);
      TakeIs(b, p, TruncateMarket(market, t), s);
    }
  }

  /** The books stay alike as long as nothing overruns `t`. */
  lemma {:induction false} BooksAlike(p: Profile, market: Market, signals: seq<EntrySignal>, n: nat, t: int)
    requires SoundMarket(market) && SoundMarket(TruncateMarket(market, t)) && Tradable(signals) && n <= |signals|
    requires forall k :: 0 <= k < n ==> signals[k].ts <= t && !Overruns(p, market, signals, k, t)
    ensures Alike(Simulate(p, market, signals, n), Simulate(p, TruncateMarket(market, t), signals, n), t)
  {
    hide Take, RunsPast, TruncateMarket, SoundMarket, Alike;
    if n == 0 {
      EmptyBooksAlike(t);
    } else {
      BooksAlike(p, market, signals, n - 1, t);
      assert !Overruns(p, market, signals, n - 1, t);
      TakeAlike(Simulate(p, market, signals, n - 1), Simulate(p, TruncateMarket(market, t), signals, n - 1), p, market,
                signals[n - 1], t);
    }
  }

  lemma EmptyBooksAlike(t: int)
    ensures Alike(Book([], None), Book([], None), t)
  {
  }

  /** Settled trades are never lost again. */
  lemma {:induction false} SettledGrow(p: Profile, market: Market, signals: seq<EntrySignal>, m: nat, n: nat, t: int)
    requires SoundMarket(market) && Tradable(signals) && m <= n <= |signals|
    ensures |SettledBy(Simulate(p, market, signals, m).trades, t)|
         <= |SettledBy(Simulate(p, market, signals, n).trades, t)|
    decreases n - m
  {
    hide Take, OwnTrade, SoundMarket, SettledBy;
    if m < n {
      SettledGrow(p, market, signals, m, n - 1, t);
      var b, s := Simulate(p, market, signals, n - 1), signals[n - 1];
      TakeIs(b, p, market, s);
      EnterSettles(b, OwnTrade(p, market, s), t);
    }
  }

  lemma ClosesIs(p: Profile, market: Market, s: EntrySignal, t: int)
    requires SoundMarket(market) && s.entry > 0.0
    ensures Closes(p, market, s, t) <==> OwnTrade(p, market, s).Some? && Settled(OwnTrade(p, market, s).value, t)
  {
  }

  /** A trade exits after its signal. */
  lemma LaterExit(p: Profile, market: Market, s: EntrySignal)
    requires SoundMarket(market) && s.entry > 0.0
    ensures OwnTrade(p, market, s).Some? ==> OwnTrade(p, market, s).value.outcome.exitTime > s.ts
  {
    if EntryIndex(market, s).Some? {
      EntryIndexFinds(market, s);
      SoundSeries(market, s.timeframe);
      var i, candles := EntryIndex(market, s).value, CandlesOf(market, s.timeframe);
      ExitsLater(s, LevelsOf(s, p), p, candles, i + 1, FRESH);
      assert candles[i].ts < candles[i + 1].ts;
      hide Walk, LevelsOf, EntryIndex, SoundMarket, CandlesOf;
    }
  }

  /** A signal after `t` settles nothing by `t`. */
  lemma LaterSettlesNothing(p: Profile, market: Market, s: EntrySignal, t: int)
    requires SoundMarket(market) && s.entry > 0.0 && s.ts >= t
    ensures !Closes(p, market, s, t)
  {
    hide OwnTrade, SoundMarket;
    LaterExit(p, market, s);
  }

  /** Once a trade is open at `t`, the full run settles nothing more by `t`. */
  lemma {:induction false} FullStands(p: Profile, market: Market, signals: seq<EntrySignal>, r: nat, n: nat, t: int)
    requires SoundMarket(market) && Tradable(signals) && r < n <= |signals| && Overruns(p, market, signals, r, t)
    ensures var b := Simulate(p, market, signals, n);
      && SettledBy(b.trades, t) == SettledBy(Simulate(p, market, signals, r).trades, t)
      && b.nextAvailable.Some? && b.nextAvailable.value > t
    decreases n - r
  {
    hide Take, OwnTrade, SoundMarket, SettledBy, Closes;
    var b, s := Simulate(p, market, signals, n - 1), signals[n - 1];
    TakeIs(b, p, market, s);
    EnterSettles(b, OwnTrade(p, market, s), t);
    if n > r + 1 {
      FullStands(p, market, signals, r, n - 1, t);
      if !Blocked(b, s) {
        LaterSettlesNothing(p, market, s, t);
        LaterExit(p, market, s);
        ClosesIs(p, market, s, t);
      }
    }
  }

  /** Behind an open trade the known book stands too, until a signal slips in. */
  lemma {:induction false} KnownStands(p: Profile, market: Market, signals: seq<EntrySignal>, r: nat, n: nat, t: int)
    requires SoundMarket(market) && SoundMarket(TruncateMarket(market, t)) && Tradable(signals) && r < n <= |signals|
    requires forall k :: 0 <= k < n ==> signals[k].ts <= t
    requires Overruns(p, market, signals, r, t)
    requires Alike(Simulate(p, market, signals, r), Simulate(p, TruncateMarket(market, t), signals, r), t)
    requires forall k :: r < k < n ==> !SlipsIn(p, market, signals, r, k, t)
    ensures Alike(Simulate(p, market, signals, r), Simulate(p, TruncateMarket(market, t), signals, n), t)
    decreases n - r
  {
    hide Take, OwnTrade, TruncateMarket, SoundMarket, SettledBy, Closes;
    var known := TruncateMarket(market, t);
    var b, s := Simulate(p, known, signals, n - 1), signals[n - 1];
    OwnKnown(p, market, s, t);
    ClosesIs(p, market, s, t);
    TakeIs(b, p, known, s);
    EnterSettles(b, OwnTrade(p, known, s), t);
    if n > r + 1 {
      KnownStands(p, market, signals, r, n - 1, t);
      assert !SlipsIn(p, market, signals, r, n - 1, t);
    }
  }

  /** A signal that slips in settles a trade that the full run does not have. */
  lemma SlipSettles(p: Profile, market: Market, signals: seq<EntrySignal>, r: nat, k: nat, t: int)
    requires SoundMarket(market) && SoundMarket(TruncateMarket(market, t)) && Tradable(signals) && r < k < |signals|
    requires signals[k].ts <= t && SlipsIn(p, market, signals, r, k, t)
    requires Alike(Simulate(p, market, signals, r), Simulate(p, TruncateMarket(market, t), signals, k), t)
    ensures |SettledBy(Simulate(p, TruncateMarket(market, t), signals, k + 1).trades, t)|
         == |SettledBy(Simulate(p, market, signals, r).trades, t)| + 1
  {
    hide Take, OwnTrade, TruncateMarket, SoundMarket, SettledBy, Closes;
    var known := TruncateMarket(market, t);
    var b, s := Simulate(p, known, signals, k), signals[k];
    OwnKnown(p, market, s, t);
    ClosesIs(p, market, s, t);
    TakeIs(b, p, known, s);
    EnterSettles(b, OwnTrade(p, known, s), t);
  }

  /** The first signal after `r` that slips in, if any of the first `n` does. */
  lemma {:induction false} FirstSlip(p: Profile, market: Market, signals: seq<EntrySignal>, r: nat, n: nat, t: int)
    returns (k: nat)
    requires SoundMarket(market) && Tradable(signals) && r < n <= |signals|
    ensures r < k <= n && forall j :: r < j < k ==> !SlipsIn(p, market, signals, r, j, t)
    ensures k < n ==> SlipsIn(p, market, signals, r, k, t)
    decreases n - r
  {
    hide SlipsIn;
    if n == r + 1 {
      k := n;
    } else {
      k := FirstSlip(p, market, signals, r, n - 1, t);
      if k == n - 1 && !SlipsIn(p, market, signals, r, k, t) {
        k := n;
      }
    }
  }

  /** The first of the first `n` signals that overruns `t`, if there is one. */
  lemma {:induction false} FirstOverrun(p: Profile, market: Market, signals: seq<EntrySignal>, n: nat, t: int)
    returns (r: nat)
    requires SoundMarket(market) && Tradable(signals) && n <= |signals|
    ensures r <= n && forall j :: 0 <= j < r ==> !Overruns(p, market, signals, j, t)
    ensures r < n ==> Overruns(p, market, signals, r, t)
  {
    hide Overruns;
    if n == 0 {
      r := 0;
    } else {
      r := FirstOverrun(p, market, signals, n - 1, t);
      if r == n - 1 && !Overruns(p, market, signals, r, t) {
        r := n;
      }
    }
  }

  /** Once one trade is open at `t`, no other known signal overruns it. */
  lemma OneOverrun(p: Profile, market: Market, signals: seq<EntrySignal>, r: nat, k: nat, t: int)
    requires SoundMarket(market) && Tradable(signals) && r < k < |signals| && signals[k].ts <= t
    requires Overruns(p, market, signals, r, t)
    ensures !Overruns(p, market, signals, k, t)
  {
    FullStands(p, market, signals, r, k, t);
    hide SettledBy, RunsPast, Simulate;
  }

  // ---- exactly when the settled trades stay ----

  /** The first `q` signals are those known by `t`. */
  ghost predicate KnownSignals(signals: seq<EntrySignal>, q: nat, t: int) {
    q <= |signals| && forall i :: 0 <= i < |signals| ==> (signals[i].ts <= t <==> i < q)
  }

  lemma {:induction false} SimulatePrefix(p: Profile, market: Market, signals: seq<EntrySignal>, q: nat, n: nat)
    requires SoundMarket(market) && Tradable(signals) && n <= q <= |signals|
    ensures Tradable(signals[..q]) && Simulate(p, market, signals[..q], n) == Simulate(p, market, signals, n)
  {
    hide Take, SoundMarket;
    if n > 0 {
      SimulatePrefix(p, market, signals, q, n - 1);
    }
  }

  /** Signals after `t` settle nothing by `t`. */
  lemma {:induction false} TailSettlesNothing(p: Profile, market: Market, signals: seq<EntrySignal>, q: nat,
                                              n: nat, t: int)
    requires SoundMarket(market) && Tradable(signals) && KnownSignals(signals, q, t) && q <= n <= |signals|
    ensures SettledBy(Simulate(p, market, signals, n).trades, t) == SettledBy(Simulate(p, market, signals, q).trades, t)
    decreases n - q
  {
    hide Take, OwnTrade, SoundMarket, SettledBy, Closes;
    if q < n {
      TailSettlesNothing(p, market, signals, q, n - 1, t);
      var b, s := Simulate(p, market, signals, n - 1), signals[n - 1];
      TakeIs(b, p, market, s);
      EnterSettles(b, OwnTrade(p, market, s), t);
      LaterSettlesNothing(p, market, s, t);
      ClosesIs(p, market, s, t);
    }
  }

  /** Without an open trade at `t` the settled trades agree, and the cut is decided. */
  lemma NothingOpen(p: Profile, market: Market, signals: seq<EntrySignal>, q: nat, t: int)
    requires SoundMarket(market) && SoundMarket(TruncateMarket(market, t)) && Tradable(signals)
    requires KnownSignals(signals, q, t) && forall k :: 0 <= k < q ==> !Overruns(p, market, signals, k, t)
    ensures TradesDecided(p, market, signals, t)
    ensures SettledBy(Simulate(p, TruncateMarket(market, t), signals, q).trades, t)
         == SettledBy(Simulate(p, market, signals, |signals|).trades, t)
  {
    hide SettledBy, Simulate, TruncateMarket, SoundMarket, Overruns, SlipsIn;
    BooksAlike(p, market, signals, q, t);
    TailSettlesNothing(p, market, signals, q, |signals|, t);
  }

  /** With a trade open at `t` they agree exactly when no known signal slips in behind it. */
  lemma OneOpen(p: Profile, market: Market, signals: seq<EntrySignal>, q: nat, r: nat, t: int)
    requires SoundMarket(market) && SoundMarket(TruncateMarket(market, t)) && Tradable(signals)
    requires KnownSignals(signals, q, t) && r < q && Overruns(p, market, signals, r, t)
    requires forall k :: 0 <= k < r ==> !Overruns(p, market, signals, k, t)
    ensures TradesDecided(p, market, signals, t)
       <==> SettledBy(Simulate(p, TruncateMarket(market, t), signals, q).trades, t)
            == SettledBy(Simulate(p, market, signals, |signals|).trades, t)
  {
    hide SettledBy, Simulate, TruncateMarket, SoundMarket, Overruns, SlipsIn;
    BooksAlike(p, market, signals, r, t);
    FullStands(p, market, signals, r, |signals|, t);
    var k := FirstSlip(p, market, signals, r, q, t);
    KnownStands(p, market, signals, r, k, t);
    if k < q {
      SlipSettles(p, market, signals, r, k, t);
      SettledGrow(p, TruncateMarket(market, t), signals, k + 1, q, t);
      assert Overruns(p, market, signals, r, t) && SlipsIn(p, market, signals, r, k, t);
    } else {
      forall first, later | 0 <= first < later < |signals| && signals[later].ts <= t
                            && Overruns(p, market, signals, first, t)
        ensures !SlipsIn(p, market, signals, first, later, t)
      {
        if first > r {
          OneOverrun(p, market, signals, r, first, t);
        }
      }
    }
  }

  /**
   No repainting of trades: the trades that the known data report as closed by `t`
   are exactly those of the full run, if and only if no known signal would slip in
   behind a trade that the full run has open at `t`.
   */
  lemma TradesDoNotRepaint(p: Profile, market: Market, signals: seq<EntrySignal>, q: nat, t: int)
    requires SoundMarket(market) && SoundMarket(TruncateMarket(market, t)) && Tradable(signals)
    requires KnownSignals(signals, q, t)
    ensures Tradable(signals[..q])
    ensures TradesDecided(p, market, signals, t)
       <==> SettledBy(TradesOf(p, TruncateMarket(market, t), signals[..q]), t)
            == SettledBy(TradesOf(p, market, signals), t)
  {
    hide SettledBy, Simulate, TruncateMarket, SoundMarket, Overruns, TradesDecided;
    SimulatePrefix(p, TruncateMarket(market, t), signals, q, q);
    var r := FirstOverrun(p, market, signals, q, t);
    if r == q {
      NothingOpen(p, market, signals, q, t);
    } else {
      OneOpen(p, market, signals, q, r, t);
    }
  }

  // ---- through the whole pipeline ----

  function RunSignals(p: Profile, market: Market): seq<EntrySignal>
    requires p.atrPeriod > 0 && RegimesOf(p, market) != []
  {
    SignalsOf(p, market, RegimesOf(p, market))
  }

  /** The signals of a run can be traded and come in time order. */
  lemma SignalsInOrder(p: Profile, market: Market)
    requires SoundMarket(market) && p.atrPeriod > 0 && RegimesOf(p, market) != []
    ensures Tradable(RunSignals(p, market)) && InTime(RunSignals(p, market))
  {
    hide ScanAll, RegimesOf, SoundMarket;
    SignalsAreSound(p, market, RegimesOf(p, market));
    SignalLeOrders();
    SortSorts(ScanAll(p, market, RegimesOf(p, market), |p.entryTimeframes|).signals, SignalLe);
  }

  lemma KnownSignalsAre(signals: seq<EntrySignal>, t: int) returns (q: nat)
    requires InTime(signals)
    ensures KnownSignals(signals, q, t) && SignalsBy(signals, t) == signals[..q]
  {
    q := Leading(signals, (s: EntrySignal) => s.ts <= t);
    FilterPrefix(signals, (s: EntrySignal) => s.ts <= t, q);
  }

  /**
   The whole pipeline with its trades. When pivots, regime and signals stay, so do
   the closed trades, exactly when no known signal slips in behind an open trade.
   */
  lemma PipelineTradesStay(p: Profile, market: Market, t: int)
    requires SoundMarket(market) && p.atrPeriod > 0 && Known(market, H4, t) >= 1
    requires RegimesOf(p, market) != [] && PipelineDecided(p, market, t)
    ensures SoundMarket(TruncateMarket(market, t)) && RegimesOf(p, TruncateMarket(market, t)) != []
    ensures Tradable(RunSignals(p, market)) && Tradable(RunSignals(p, TruncateMarket(market, t)))
    ensures TradesDecided(p, market, RunSignals(p, market), t)
       <==> SettledBy(TradesOf(p, TruncateMarket(market, t), RunSignals(p, TruncateMarket(market, t))), t)
            == SettledBy(TradesOf(p, market, RunSignals(p, market)), t)
  {
    SoundTruncation(market, t);
    RegimesNonempty(p, market, t);
    hide PipelineDecided, RegimesOf, SignalsOf, TruncateMarket, SoundMarket, TradesDecided, TradesOf, PivotsStay,
         RegimesStay, SettledBy;
    PipelineDoesNotRepaint(p, market, t);
    SignalsInOrder(p, market);
    var q := KnownSignalsAre(RunSignals(p, market), t);
    TradesDoNotRepaint(p, market, RunSignals(p, market), q, t);
  }

  // ---- a market whose trades do repaint ----

  const QUIET := Candle(3, 101.0, 101.0, 101.0, 101.0)
  const CRASH := Candle(5, 50.0, 50.0, 50.0, 50.0)

  /**
   One 4h candle and two entry timeframes. Both signal on their second candle; the
   first trade is stopped at 100, the second, known at 4, already at 5.
   */
  function SlippingMarket(a: Timeframe, b: Timeframe): Market {
    map[H4 := [FOUR_HOURS],
        a := [FALL, ENGULFING, QUIET, CRASH.(ts := 100)],
        b := [FALL.(ts := 3), ENGULFING.(ts := 4), CRASH]]
  }

  function SlippingSignal(tf: Timeframe, ts: int): EntrySignal {
    EntrySignal(tf, ts, Long, 102.0, Flat, FlatContext(tf, 0), 97.0, 103.0, None, 0, None)
  }

  lemma SlippingMarketIs(a: Timeframe, b: Timeframe)
    requires a != H4 && b != H4 && a != b
    ensures SoundMarket(SlippingMarket(a, b)) && CandlesOf(SlippingMarket(a, b), H4) == [FOUR_HOURS]
    ensures CandlesOf(SlippingMarket(a, b), a) == [FALL, ENGULFING, QUIET, CRASH.(ts := 100)]
    ensures CandlesOf(SlippingMarket(a, b), b) == [FALL.(ts := 3), ENGULFING.(ts := 4), CRASH]
    ensures Known(SlippingMarket(a, b), H4, 5) == 1
    ensures Known(SlippingMarket(a, b), a, 5) == Known(SlippingMarket(a, b), b, 5) == 3
  {
    var market := SlippingMarket(a, b);
    assert CandlesOf(market, a)[2].ts == 3 && CandlesOf(market, a)[3].ts == 100 && CandlesOf(market, b)[2].ts == 5;
  }

  /** A falling and an engulfing candle at the start of a series signal in a flat regime. */
  lemma SecondSignals(p: Profile, tf: Timeframe, candles: seq<Candle>, regime: Snapshot, ts: int)
    requires Normalized(p) && |candles| >= 2 && regime.state == Flat && regime.sequenceId == 0
    requires regime.confirmedWave == None
    requires candles[0] == FALL.(ts := ts - 1) && candles[1] == ENGULFING.(ts := ts)
    ensures Candidate(p, tf, candles, 1, regime) == Some(SlippingSignal(tf, ts))
  {
    var window := candles[..2];
    assert window == [candles[0], candles[1]];
    FilterAll(window, (c: Candle) => c.ts >= ts - p.flatLookbackHours * HOUR);
    assert Window(candles, 1, p.flatLookbackHours) == window;
    FirstLowestIsLowest(window, 0, 2);
    FirstHighestIsHighest(window, 0, 2);
  }

  /** Nothing engulfs after the second candle. */
  lemma NothingElseSignals(p: Profile, tf: Timeframe, candles: seq<Candle>, i: nat, regime: Snapshot)
    requires 2 <= i < |candles| && regime.state == Flat && candles[i].open == candles[i].close
    ensures Candidate(p, tf, candles, i, regime) == None
  {
  }

  lemma SlippingSignalsAre(p: Profile, a: Timeframe, b: Timeframe, regimes: seq<Snapshot>)
    requires Normalized(p) && p.entryTimeframes == [a, b] && a != H4 && b != H4 && a != b
    requires |regimes| == 1 && regimes[0].state == Flat
    requires regimes[0].sequenceId == 0 && regimes[0].confirmedWave == None
    ensures SignalsOf(p, SlippingMarket(a, b), regimes) == [SlippingSignal(a, 2), SlippingSignal(b, 4)]
  {
    var market := SlippingMarket(a, b);
    SlippingMarketIs(a, b);
    hide SlippingMarket, Candidate, StableSort;
    var first, second := CandlesOf(market, a), CandlesOf(market, b);
    SecondSignals(p, a, first, regimes[0], 2);
    NothingElseSignals(p, a, first, 2, regimes[0]);
    NothingElseSignals(p, a, first, 3, regimes[0]);
    SecondSignals(p, b, second, regimes[0], 4);
    NothingElseSignals(p, b, second, 2, regimes[0]);
    var x, y := SlippingSignal(a, 2), SlippingSignal(b, 4);
    var one := Found([x], {x.context});
    assert Scan(p, market, regimes, a, 1, Found([], {})) == Found([], {});
    assert Scan(p, market, regimes, a, 2, Found([], {})) == one;
    assert Scan(p, market, regimes, a, 3, Found([], {})) == one;
    assert Scan(p, market, regimes, a, 4, Found([], {})) == one;
    assert ScanAll(p, market, regimes, 1) == one;
    assert Scan(p, market, regimes, b, 2, one).signals == [x, y];
    assert Scan(p, market, regimes, b, 3, one).signals == [x, y];
    assert ScanAll(p, market, regimes, 2).signals == [x, y];
    SortIdentity([x, y], SignalLe);
  }

  lemma SlippingLevels(p: Profile, tf: Timeframe, ts: int)
    requires Normalized(p)
    ensures var s := SlippingSignal(tf, ts); 97.0 < StopPrice(s, p) < 101.0 && Tp1Price(s, p) >= 102.0
  {
  }

  /** The first trade stands still at 3 and is stopped at 100. */
  lemma SlowTrade(p: Profile, a: Timeframe, b: Timeframe)
    requires Normalized(p) && a != H4 && b != H4 && a != b
    ensures SoundMarket(SlippingMarket(a, b)) && RunsPast(p, SlippingMarket(a, b), SlippingSignal(a, 2), 5)
  {
    SlippingMarketIs(a, b);
    SlippingLevels(p, a, 2);
    var market, s := SlippingMarket(a, b), SlippingSignal(a, 2);
    var candles, lv := CandlesOf(market, a), LevelsOf(s, p);
    hide SlippingMarket, StopPrice, Tp1Price, TargetPrice, ProfitRatio;
    IndexIs(candles, 2);
    assert candles[1].ts == 2;
    var seen := Excursion(s, FRESH, candles[2]);
    assert TakeTargets(s, lv, seen, candles[2]) == seen;
    assert Walk(s, lv, p, candles, 3, seen).exitTime == 100 && Walk(s, lv, p, candles, 3, seen).reason == StopLoss;
    assert Walk(s, lv, p, candles, 2, FRESH) == Walk(s, lv, p, candles, 3, seen);
  }

  /** The second trade would be stopped at 5. */
  lemma QuickTrade(p: Profile, a: Timeframe, b: Timeframe)
    requires Normalized(p) && a != H4 && b != H4 && a != b
    ensures SoundMarket(SlippingMarket(a, b)) && Closes(p, SlippingMarket(a, b), SlippingSignal(b, 4), 5)
  {
    SlippingMarketIs(a, b);
    SlippingLevels(p, b, 4);
    var market, s := SlippingMarket(a, b), SlippingSignal(b, 4);
    var candles, lv := CandlesOf(market, b), LevelsOf(s, p);
    hide SlippingMarket, StopPrice, Tp1Price, TargetPrice, ProfitRatio;
    IndexIs(candles, 4);
    assert candles[1].ts == 4;
    assert Walk(s, lv, p, candles, 2, FRESH).exitTime == 5 && Walk(s, lv, p, candles, 2, FRESH).reason == StopLoss;
  }

  /** With two entry timeframes pivots, regime and signals can stay while the closed trades do not. */
  lemma TradesCanRepaint(p: Profile, a: Timeframe, b: Timeframe)
    requires Normalized(p) && p.entryTimeframes == [a, b] && a != H4 && b != H4 && a != b
    ensures var market := SlippingMarket(a, b);
      && SoundMarket(market) && Known(market, H4, 5) >= 1 && RegimesOf(p, market) != []
      && PipelineDecided(p, market, 5)
      && SoundMarket(TruncateMarket(market, 5)) && RegimesOf(p, TruncateMarket(market, 5)) != []
      && Tradable(RunSignals(p, market)) && Tradable(RunSignals(p, TruncateMarket(market, 5)))
      && SettledBy(TradesOf(p, TruncateMarket(market, 5), RunSignals(p, TruncateMarket(market, 5))), 5)
         != SettledBy(TradesOf(p, market, RunSignals(p, market)), 5)
  {
    var market := SlippingMarket(a, b);
    SlippingMarketIs(a, b);
    RegimesNonempty(p, market, 5);
    FirstSnapshotIsFlat([FOUR_HOURS], p, p.breakBasis);
    SlippingSignalsAre(p, a, b, RegimesOf(p, market));
    assert PipelineDecided(p, market, 5);
    SlowTrade(p, a, b);
    QuickTrade(p, a, b);
    hide SlippingMarket, PipelineDecided, RegimesOf, SignalsOf, TruncateMarket, SoundMarket, TradesOf, RunsPast, Closes,
         SettledBy;
    PipelineTradesStay(p, market, 5);
    var signals := RunSignals(p, market);
    assert Simulate(p, market, signals, 0) == Book([], None);
    assert Overruns(p, market, signals, 0, 5) && SlipsIn(p, market, signals, 0, 1, 5);
    assert !TradesDecided(p, market, signals, 5);
  }
}
