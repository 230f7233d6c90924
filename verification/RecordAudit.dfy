/**
 The trade records of the canonical backtest as its books: what every position
 holds and has earned follows from its records, and every record's profit from the
 price and the quantity it sold.
 */
module RecordAudit {
  import opened Prelude
  import opened Candles
  import opened Timeline
  import opened CanonicalBacktest

  // ---- the account of a position ----

  /** What the records say about a position. */
  datatype Account = Account(side: Side, entry: real, size: real, held: real, earned: real, sold: real)

  /** What a unit earns when it is sold at a price. */
  function GainAt(a: Account, price: real): real {
    match a.side case Long => price - a.entry case Short => a.entry - price
  }

  /** The quantity that a record sells: all that is held where the record was written too late to show it. */
  function SoldBy(a: Account, r: Record): real {
    match r.reason
    case TpAllDone => a.held
    case BacktestEnd => a.held
    case _ => r.size
  }

  function Post(a: Account, r: Record): Account {
    var qty := SoldBy(a, r);
    a.(held := if a.held > qty then a.held - qty else 0.0, earned := a.earned + GainAt(a, r.price) * qty,
       sold := a.sold + qty)
  }

  /** The account of position `k`: opened by its first record, moved by all later ones. */
  function AccountOf(trades: seq<Record>, k: nat): Option<Account> {
    if trades == [] then None
    else
      var before, r := AccountOf(trades[..|trades| - 1], k), trades[|trades| - 1];
      if r.position != k then before
      else if before == None then Some(Account(r.side, r.price, r.size, r.size, 0.0, 0.0))
      else Some(Post(before.value, r))
  }

  /** A whole number of cents, at most half a cent from the exact profit. */
  predicate InCents(pnl: real, exact: real) {
    (pnl * 100.0).Floor as real == pnl * 100.0 && exact - 0.005 < pnl <= exact + 0.005
  }

  /** A record is written for a position that has an account, or opens one; its profit is that of what it sells. */
  predicate Booked(a: Option<Account>, r: Record) {
    if a == None then r.action == Opening && r.pnl == 0.0
    else r.action != Opening && r.side == a.value.side
         && InCents(r.pnl, GainAt(a.value, r.price) * SoldBy(a.value, r))
  }

  ghost predicate AllBooked(trades: seq<Record>) {
    forall i :: 0 <= i < |trades| ==> Booked(AccountOf(trades[..i], trades[i].position), trades[i])
  }

  /** The account shows the position as it is. */
  predicate Shows(a: Option<Account>, p: Position) {
    && a.Some? && a.value.side == p.side && a.value.entry == p.entry && a.value.size == p.size
    && a.value.held == p.remaining && a.value.earned == p.realized
  }

  /** The records alone tell what every position holds and has earned. */
  ghost predicate Replays(s: Sim) {
    && AllBooked(s.trades)
    && (forall k :: 0 <= k < |s.positions| ==> Shows(AccountOf(s.trades, k), s.positions[k]))
    && (forall k: nat :: |s.positions| <= k ==> AccountOf(s.trades, k) == None)
  }

  lemma AccountNext(trades: seq<Record>, r: Record, k: nat)
    ensures AccountOf(trades + [r], k)
         == if r.position != k then AccountOf(trades, k)
            else if AccountOf(trades, k) == None then Some(Account(r.side, r.price, r.size, r.size, 0.0, 0.0))
            else Some(Post(AccountOf(trades, k).value, r))
  {
    assert (trades + [r])[..|trades|] == trades;
  }

  lemma BookedNext(trades: seq<Record>, r: Record)
    requires AllBooked(trades) && Booked(AccountOf(trades, r.position), r)
    ensures AllBooked(trades + [r])
  {
    var all := trades + [r];
    forall i | 0 <= i < |all| ensures Booked(AccountOf(all[..i], all[i].position), all[i]) {
      assert all[..i] == trades[..i];
      assert i == |trades| ==> trades[..i] == trades;
    }
    hide Booked;
  }

  lemma RoundedIsInCents(v: real)
    ensures InCents(RoundPnl(v), v)
  {
    var n := (v * CENTS + 0.5).Floor;
    assert n as real <= v * 100.0 + 0.5 < n as real + 1.0;
    assert RoundPnl(v) * 100.0 == n as real;
  }

  // ---- every step keeps the books ----

  lemma SellReplays(s: Sim, k: nat, price: real, qty: real, size: real, action: Action, reason: Reason, ts: int)
    requires k < |s.positions| && Replays(s) && action != Opening
    requires qty == if reason == TpAllDone || reason == BacktestEnd then s.positions[k].remaining else size
    ensures Replays(Sell(s, k, price, qty, size, action, reason, ts))
  {
    var p, t := s.positions[k], Sell(s, k, price, qty, size, action, reason, ts);
    var r := t.trades[|s.trades|];
    assert Shows(AccountOf(s.trades, k), p);
    RoundedIsInCents(Profit(p.side, p.entry, price, qty));
    hide RoundPnl, InCents, Bump, AccountOf;
    BookedNext(s.trades, r);
    forall j: nat ensures if j < |s.positions| then Shows(AccountOf(t.trades, j), t.positions[j])
                          else AccountOf(t.trades, j) == None
    {
      AccountNext(s.trades, r, j);
    }
    hide AllBooked;
  }

  lemma MarkReplays(s: Sim, k: nat, p: Position)
    requires k < |s.positions| && Replays(s)
    requires p.side == s.positions[k].side && p.entry == s.positions[k].entry && p.size == s.positions[k].size
    requires p.remaining == s.positions[k].remaining && p.realized == s.positions[k].realized
    ensures Replays(Update(s, k, p))
  {
    hide AllBooked, AccountOf;
  }

  lemma RestReplays(s: Sim, t: Sim)
    requires Replays(s) && t.positions == s.positions && t.trades == s.trades
    ensures Replays(t)
  {
    hide AllBooked, AccountOf;
  }

  lemma ShutReplays(s: Sim, k: nat, ts: int, reason: Option<Reason>)
    requires k < |s.positions| && Replays(s)
    ensures Replays(Shut(s, k, ts, reason))
  {
    hide Replays;
    MarkReplays(s, k, Shut(s, k, ts, reason).positions[k]);
  }

  lemma PushReplays(s: Sim)
    requires Replays(s)
    ensures Replays(Push(s))
  {
    hide Replays;
    RestReplays(s, Push(s));
  }

  lemma SellAllReplays(s: Sim, k: nat, price: real, size: real, reason: Reason, ts: int)
    requires k < |s.positions| && Replays(s)
    requires reason == TpAllDone || reason == BacktestEnd || size == s.positions[k].remaining
    ensures Replays(SellAll(s, k, price, size, reason, ts))
  {
    hide Replays, Sell;
    SellReplays(s, k, price, s.positions[k].remaining, size, Closing, reason, ts);
    ShutReplays(Sell(s, k, price, s.positions[k].remaining, size, Closing, reason, ts), k, ts, Some(reason));
  }

  lemma TakeFirstReplays(s: Sim, k: nat, price: real, ts: int)
    requires k < |s.positions| && Replays(s)
    ensures Replays(TakeFirst(s, k, price, ts))
  {
    hide Replays, Sell, TargetQty, RoundTo, TargetReached;
    var p, qty := s.positions[k], TargetQty(s.positions[k], 0);
    SellReplays(s, k, price, qty, qty, Partial, Tp1Partial, ts);
    var sold := Sell(s, k, price, qty, qty, Partial, Tp1Partial, ts);
    MarkReplays(sold, k, sold.positions[k].(tp1Done := true, stop := RoundTo(p.entry, TICKS)));
  }

  lemma TakeSecondReplays(s: Sim, k: nat, price: real, ts: int)
    requires k < |s.positions| && Replays(s)
    ensures Replays(TakeSecond(s, k, price, ts))
  {
    hide Replays, Sell, TargetQty, TargetReached;
    var qty := Min(TargetQty(s.positions[k], 1), s.positions[k].remaining);
    SellReplays(s, k, price, qty, qty, Partial, Tp2Partial, ts);
    var sold := Sell(s, k, price, qty, qty, Partial, Tp2Partial, ts);
    MarkReplays(sold, k, sold.positions[k].(tp2Done := true));
  }

  lemma TakeThirdReplays(s: Sim, k: nat, price: real, ts: int)
    requires k < |s.positions| && Replays(s)
    ensures Replays(TakeThird(s, k, price, ts))
  {
    hide Replays, SellAll;
    SellAllReplays(s, k, price, s.positions[k].remaining, Tp3Full, ts);
    var closed := SellAll(s, k, price, s.positions[k].remaining, Tp3Full, ts);
    MarkReplays(closed, k, closed.positions[k].(tp3Done := true));
  }

  lemma SellEmergencyReplays(s: Sim, k: nat, price: real, qty: real, ts: int, tf: Frame, rules: Rules)
    requires k < |s.positions| && Replays(s)
    ensures Replays(SellEmergency(s, k, price, qty, ts, tf, rules))
  {
    hide Replays, Sell, RoundTo, Empties;
    SellReplays(s, k, price, qty, qty, Closing, EmergencyExit(tf), ts);
    ShutReplays(Sell(s, k, price, qty, qty, Closing, EmergencyExit(tf), ts), k, ts, Some(EmergencyExit(tf)));
    SellReplays(s, k, price, qty, qty, Partial, EmergencyExit(tf), ts);
    var sold := Sell(s, k, price, qty, qty, Partial, EmergencyExit(tf), ts);
    MarkReplays(sold, k, sold.positions[k].(stop := RoundTo(s.positions[k].entry, TICKS)));
  }

  lemma EmergencyReplays(s: Sim, k: nat, ts: int, tf: Frame, w: Sight, rules: Rules, evals: Evaluators)
    requires k < |s.positions| && w.own != [] && Replays(s)
    ensures Replays(Emergency(s, k, ts, tf, w, rules, evals))
  {
    hide Replays, SellEmergency, EmergencyQty;
    var bar := w.own[|w.own| - 1];
    var signal := evals.engulfing(w.own, tf);
    if signal.Some? {
      var fired := s.(exitFired := s.exitFired[ExitKey(tf, signal.value) := bar.ts]);
      RestReplays(s, fired);
      SellEmergencyReplays(fired, k, bar.close, EmergencyQty(s.positions[k], rules), ts, tf, rules);
    }
  }

  lemma SettleReplays(t: Sim, k: nat, ts: int, tf: Frame, w: Sight, rules: Rules, evals: Evaluators)
    requires k < |t.positions| && w.own != [] && Replays(t)
    ensures Replays(Settle(t, k, ts, tf, w, rules, evals))
  {
    hide Replays, TakeThird, SellAll, Emergency, TargetReached, TimedOut, AllDone, Shut;
    var q, price := t.positions[k], w.own[|w.own| - 1].close;
    TakeThirdReplays(t, k, price, ts);
    SellAllReplays(t, k, price, 0.0, TpAllDone, ts);
    ShutReplays(t, k, ts, Some(TpAllDone));
    SellAllReplays(t, k, price, q.remaining, TimeStop, ts);
    EmergencyReplays(t, k, ts, tf, w, rules, evals);
  }

  lemma TickReplays(s: Sim, k: nat, ts: int, tf: Frame, w: Sight, rules: Rules, evals: Evaluators)
    requires k < |s.positions| && w.own != [] && Replays(s)
    ensures Replays(Tick(s, k, ts, tf, w, rules, evals))
  {
    hide Replays, TakeFirst, TakeSecond, Settle, SellAll, Shut, StopReached, Push;
    var p, price := s.positions[k], w.own[|w.own| - 1].close;
    ShutReplays(s, k, ts, None);
    SellAllReplays(s, k, price, p.remaining, SlHit, ts);
    PushReplays(SellAll(s, k, price, p.remaining, SlHit, ts));
    var one := TakeFirst(s, k, price, ts);
    var two := TakeSecond(one, k, price, ts);
    TakeFirstReplays(s, k, price, ts);
    TakeSecondReplays(one, k, price, ts);
    SettleReplays(two, k, ts, tf, w, rules, evals);
    PushReplays(Settle(two, k, ts, tf, w, rules, evals));
  }

  lemma EnterReplays(s: Sim, side: Side, tf: Frame, reason: Reason, price: real, ts: int, entryCandles: seq<Candle>,
                     triple: Option<Triple>, w: Sight, rules: Rules, evals: Evaluators)
    requires Replays(s) && (reason.EngulfingEntry? || reason.FvgEntry?)
    ensures Replays(Enter(s, side, tf, reason, price, ts, entryCandles, triple, w, rules, evals))
  {
    var t := Enter(s, side, tf, reason, price, ts, entryCandles, triple, w, rules, evals);
    hide ComputeSize, StopFor, TargetsFor, AccountOf;
    if |t.trades| > |s.trades| {
      var r := t.trades[|s.trades|];
      BookedNext(s.trades, r);
      forall j: nat ensures if j < |t.positions| then Shows(AccountOf(t.trades, j), t.positions[j])
                            else AccountOf(t.trades, j) == None
      {
        AccountNext(s.trades, r, j);
      }
    }
    hide AllBooked;
  }

  lemma LookForEngulfingReplays(s: Sim, ts: int, tf: Frame, w: Sight, rules: Rules, evals: Evaluators)
    requires w.own != [] && Replays(s)
    ensures Replays(LookForEngulfing(s, ts, tf, w, rules, evals).s)
  {
    hide Replays, Enter;
    RestReplays(s, Reject(s));
    var signal := evals.engulfing(w.own, tf);
    if signal.Some? {
      var fired := s.(entryFired := s.entryFired[EngulfingKey(tf, signal.value) := ts]);
      RestReplays(s, fired);
      EnterReplays(fired, signal.value, tf, EngulfingEntry(tf), w.own[|w.own| - 1].close, ts, w.own, None, w, rules,
                   evals);
    }
  }

  lemma LookForFvgReplays(s: Sim, fvgTf: Frame, ts: int, w: Sight, rules: Rules, evals: Evaluators)
    requires w.own != [] && Replays(s)
    ensures Replays(LookForFvg(s, fvgTf, ts, w, rules, evals).s)
  {
    hide Replays, Enter;
    RestReplays(s, Reject(s));
    var candles, price := Of(w.known, fvgTf), w.own[|w.own| - 1].close;
    var signal := evals.fvg(fvgTf, price, ts, w.known);
    if signal.Some? {
      var side := signal.value.side;
      var fired := s.(entryFired := s.entryFired[FvgKey(fvgTf, side) := ts]);
      RestReplays(s, fired);
      EnterReplays(fired, side, fvgTf, FvgEntry(fvgTf), price, ts, candles,
                   TripleOf(candles, signal.value.completion), w, rules, evals);
    }
  }

  lemma {:induction false} LookForFvgsReplays(s: Sim, frames: seq<Frame>, ts: int, w: Sight, rules: Rules,
                                              evals: Evaluators)
    requires w.own != [] && Replays(s)
    ensures Replays(LookForFvgs(s, frames, ts, w, rules, evals))
    decreases |frames|
  {
    if frames != [] {
      hide Replays, LookForFvg;
      LookForFvgReplays(s, frames[0], ts, w, rules, evals);
      LookForFvgsReplays(LookForFvg(s, frames[0], ts, w, rules, evals).s, frames[1..], ts, w, rules, evals);
    }
  }

  lemma StepReplays(s: Sim, ts: int, tf: Frame, w: Sight, rules: Rules, evals: Evaluators)
    requires Replays(s)
    ensures Replays(Step(s, ts, tf, w, rules, evals))
  {
    hide Replays, Tick, LookForEngulfing, LookForFvgs, FindOpen, Push;
    if |w.own| >= 3 {
      match FindOpen(s.positions, 0)
      case Some(k) => TickReplays(s, k, ts, tf, w, rules, evals);
      case None =>
        var looked := LookForEngulfing(s, ts, tf, w, rules, evals);
        LookForEngulfingReplays(s, ts, tf, w, rules, evals);
        LookForFvgsReplays(looked.s, FVG_FRAMES, ts, w, rules, evals);
        PushReplays(looked.s);
        PushReplays(LookForFvgs(looked.s, FVG_FRAMES, ts, w, rules, evals));
    }
  }

  lemma FinishReplays(s: Sim, events: seq<Event>, end: int)
    requires Replays(s)
    ensures Replays(Finish(s, events, end))
  {
    hide Replays, SellAll, Push;
    if FindOpen(s.positions, 0).Some? {
      var k := FindOpen(s.positions, 0).value;
      var price := if events != [] then events[|events| - 1].price else s.positions[k].entry;
      SellAllReplays(s, k, price, 0.0, BacktestEnd, end);
      PushReplays(SellAll(s, k, price, 0.0, BacktestEnd, end));
    }
  }

  /**
   Over every run the records are complete books: they alone tell what each position
   holds and has earned, and each recorded profit is the exact one in whole cents.
   */
  lemma {:induction false} RunReplays(sets: seq<CandleSet>, events: seq<Event>, deposit: real, rules: Rules,
                                      evals: Evaluators, n: nat)
    requires n <= |events| && AllEventsOf(sets, events)
    ensures Replays(After(sets, events, deposit, rules, evals, n))
  {
    hide Replays, Step, AllEventsOf, After, SightAt, CandlesOf;
    if n == 0 {
      AfterStarts(sets, events, deposit, rules, evals);
      StartReplays(deposit);
    } else {
      RunReplays(sets, events, deposit, rules, evals, n - 1);
      AfterUnfolds(sets, events, deposit, rules, evals, n);
      var e := events[n - 1];
      StepReplays(After(sets, events, deposit, rules, evals, n - 1), e.ts, e.tf, SightAt(sets, e), rules, evals);
    }
  }

  lemma StartReplays(deposit: real)
    ensures Replays(Start(deposit))
  {
  }

  /** So are the records of a complete run, with its force-close. */
  lemma ResultReplays(sets: seq<CandleSet>, from: int, to: int, deposit: real, rules: Rules, evals: Evaluators)
    ensures Replays(Result(sets, from, to, deposit, rules, evals))
  {
    hide After, TimelineOf, Finish, AllEventsOf, Replays;
    var events := TimelineOf(sets, from, to);
    TimelineInRange(sets, from, to);
    RunReplays(sets, events, deposit, rules, evals, |events|);
    FinishReplays(After(sets, events, deposit, rules, evals, |events|), events, to);
  }

  // ---- who wins ----

  /** Every sale of position `k` is at this price. */
  ghost predicate SoldAt(trades: seq<Record>, k: nat, price: real) {
    forall i :: 0 <= i < |trades| && trades[i].position == k && trades[i].action != Opening ==> trades[i].price == price
  }

  lemma {:induction false} OnePrice(trades: seq<Record>, k: nat, price: real)
    requires AllBooked(trades) && SoldAt(trades, k, price) && AccountOf(trades, k).Some?
    ensures var a := AccountOf(trades, k).value;
      a.earned == GainAt(a, price) * a.sold && a.held >= a.size - a.sold
  {
    var n := |trades| - 1;
    var before, r := AccountOf(trades[..n], k), trades[n];
    assert Booked(AccountOf(trades[..n], r.position), r);
    assert AllBooked(trades[..n]) by { PrefixBooked(trades, n); }
    if before.Some? {
      OnePrice(trades[..n], k, price);
      if r.position == k {
        Distribute(GainAt(before.value, price), before.value.sold, SoldBy(before.value, r));
      }
    }
    hide InCents;
  }

  lemma PrefixBooked(trades: seq<Record>, n: nat)
    requires n <= |trades| && AllBooked(trades)
    ensures AllBooked(trades[..n])
  {
    forall i | 0 <= i < n ensures Booked(AccountOf(trades[..n][..i], trades[..n][i].position), trades[..n][i]) {
      assert trades[..n][..i] == trades[..i];
    }
    hide Booked;
  }

  lemma Distribute(g: real, a: real, b: real)
    ensures g * (a + b) == g * a + g * b
  {
  }

  lemma SameSign(g: real, qty: real)
    requires qty > 0.0
    ensures g * qty > 0.0 <==> g > 0.0
  {
    if g > 0.0 {
      assert g * qty > 0.0;
    } else {
      assert -g * qty >= 0.0;
    }
  }

  /**
   A closed position all of whose sales were at one price counts as a win exactly
   when that price lies above the entry of a long or below the entry of a short.
   */
  lemma WinsExactly(s: Sim, k: nat, price: real)
    requires Replays(s) && k < |s.positions| && SoldAt(s.trades, k, price)
    requires s.positions[k].size > 0.0 && s.positions[k].remaining == 0.0
    ensures s.positions[k].realized > 0.0
       <==> match s.positions[k].side
            case Long => price > s.positions[k].entry
            case Short => price < s.positions[k].entry
  {
    assert Shows(AccountOf(s.trades, k), s.positions[k]);
    OnePrice(s.trades, k, price);
    var a := AccountOf(s.trades, k).value;
    SameSign(GainAt(a, price), a.sold);
    hide AccountOf, AllBooked;
  }

  lemma FinishManages(s: Sim, events: seq<Event>, end: int, rules: Rules)
    requires AllManaged(s, rules)
    ensures AllManaged(Finish(s, events, end), rules)
  {
    if FindOpen(s.positions, 0).Some? {
      var k := FindOpen(s.positions, 0).value;
      var price := if events != [] then events[|events| - 1].price else s.positions[k].entry;
      SellAllManages(s, k, price, 0.0, BacktestEnd, end, rules);
    }
    hide Managed, RoundPnl, Bump, Profit;
  }

  /** Over every complete run, so is every position whose sales were at one price. */
  lemma ResultWinsExactly(sets: seq<CandleSet>, from: int, to: int, deposit: real, rules: Rules, evals: Evaluators,
                          k: nat, price: real)
    requires k < |Result(sets, from, to, deposit, rules, evals).positions|
    requires SoldAt(Result(sets, from, to, deposit, rules, evals).trades, k, price)
    ensures var p := Result(sets, from, to, deposit, rules, evals).positions[k];
      p.realized > 0.0 <==> match p.side case Long => price > p.entry case Short => price < p.entry
  {
    hide After, TimelineOf, Finish, AllEventsOf, Replays, AllManaged, Sound, SoldAt;
    var events := TimelineOf(sets, from, to);
    TimelineInRange(sets, from, to);
    var s := After(sets, events, deposit, rules, evals, |events|);
    RunIsSound(sets, events, deposit, rules, evals, |events|);
    FinishKeepsSound(s, events, to, deposit);
    RunIsManaged(sets, events, deposit, rules, evals, |events|);
    FinishManages(s, events, to, rules);
    ManagedAt(Finish(s, events, to), k, rules);
    ResultReplays(sets, from, to, deposit, rules, evals);
    hide TargetsFor, StopFor, RoundTo;
    WinsExactly(Result(sets, from, to, deposit, rules, evals), k, price);
  }
}
