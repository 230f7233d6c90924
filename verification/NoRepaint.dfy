/** Causality of the whole wave pipeline: later data never changes what was known earlier. */
module NoRepaint {
  import opened Prelude
  import opened Sorting
  import opened Candles
  import opened Pivots
  import opened Regime
  import opened Signals

  /** Keeping the first `q` snapshots keeps every snapshot taken by `t`, and at least one. */
  ghost predicate CoversRegimes(regimes: seq<Snapshot>, q: nat, t: int) {
    && 1 <= q <= |regimes|
    && forall k :: q <= k < |regimes| ==> regimes[k].ts > t
  }

  lemma {:induction false} RegimeIndexPrefix(regimes: seq<Snapshot>, q: nat, t: int, ts: int, from: nat)
    requires CoversRegimes(regimes, q, t) && ts <= t && from < q
    ensures RegimeIndex(regimes[..q], ts, from) == RegimeIndex(regimes, ts, from)
    decreases q - from
  {
    if from + 1 < |regimes| && regimes[from + 1].ts <= ts {
      RegimeIndexPrefix(regimes, q, t, ts, from + 1);
    }
  }

  function Known(market: Market, tf: Timeframe, t: int): nat {
    CountUpTo(CandlesOf(market, tf), t)
  }

  lemma TruncatedCandles(market: Market, tf: Timeframe, t: int)
    requires SoundMarket(market)
    ensures CandlesOf(TruncateMarket(market, t), tf) == CandlesOf(market, tf)[..Known(market, tf, t)]
    ensures forall i :: 0 <= i < |CandlesOf(market, tf)| ==>
      (CandlesOf(market, tf)[i].ts <= t <==> i < Known(market, tf, t))
  {
    TruncateIsPrefix(CandlesOf(market, tf), t);
  }

  lemma CandidateAtPrefix(p: Profile, market: Market, regimes: seq<Snapshot>, q: nat, t: int, tf: Timeframe, i: nat)
    requires SoundMarket(market) && CoversRegimes(regimes, q, t) && 1 <= i < Known(market, tf, t)
    ensures i < |CandlesOf(TruncateMarket(market, t), tf)|
    ensures CandidateAt(p, TruncateMarket(market, t), regimes[..q], tf, i) == CandidateAt(p, market, regimes, tf, i)
  {
    hide Candidate, TruncateMarket, RegimeIndex;
    TruncatedCandles(market, tf, t);
    var candles := CandlesOf(market, tf);
    RegimeIndexPrefix(regimes, q, t, candles[i].ts, 0);
    CandidatePrefix(p, tf, candles, Known(market, tf, t), i, regimes[RegimeIndex(regimes, candles[i].ts, 0)]);
  }

  lemma CandidateLabels(p: Profile, market: Market, regimes: seq<Snapshot>, tf: Timeframe, i: nat)
    requires regimes != [] && 1 <= i < |CandlesOf(market, tf)|
    ensures var c := CandidateAt(p, market, regimes, tf, i);
      c.Some? ==>
        && c.value.ts == CandlesOf(market, tf)[i].ts
        && c.value.timeframe == tf
        && c.value.context.timeframe == tf
  {
    hide Window, ExtremeContext, SegmentStart;
  }

  // ---- two scans side by side ----

  function SignalsBy(signals: seq<EntrySignal>, t: int): seq<EntrySignal> {
    Filter(signals, (s: EntrySignal) => s.ts <= t)
  }

  /** A context offered by time `t` is spent in both scans or in neither. */
  ghost predicate SameContexts(p: Profile, market: Market, regimes: seq<Snapshot>, t: int, f: Found, g: Found)
    requires regimes != []
  {
    forall tf, i :: 1 <= i < Known(market, tf, t) && CandidateAt(p, market, regimes, tf, i).Some? ==>
      (var c := CandidateAt(p, market, regimes, tf, i).value.context; c in f.used <==> c in g.used)
  }

  ghost predicate Agree(p: Profile, market: Market, regimes: seq<Snapshot>, t: int, f: Found, g: Found)
    requires regimes != []
  {
    SignalsBy(f.signals, t) == g.signals && SameContexts(p, market, regimes, t, f, g)
  }

  lemma AppendSignal(signals: seq<EntrySignal>, s: EntrySignal, t: int)
    ensures SignalsBy(signals + [s], t) == if s.ts <= t then SignalsBy(signals, t) + [s] else SignalsBy(signals, t)
  {
    FilterConcat(signals, [s], (x: EntrySignal) => x.ts <= t);
    FilterCons(s, [], (x: EntrySignal) => x.ts <= t);
    assert [s] + [] == [s];
  }

  /** Every context offered by the first `n` candles of a timeframe is spent. */
  ghost predicate Spent(p: Profile, market: Market, regimes: seq<Snapshot>, tf: Timeframe, n: nat, f: Found)
    requires regimes != [] && n <= |CandlesOf(market, tf)|
  {
    forall i :: 1 <= i < n && CandidateAt(p, market, regimes, tf, i).Some? ==>
      CandidateAt(p, market, regimes, tf, i).value.context in f.used
  }

  lemma {:induction false} ScanSpends(p: Profile, market: Market, regimes: seq<Snapshot>, tf: Timeframe, n: nat,
                                      start: Found)
    requires regimes != [] && 1 <= n <= |CandlesOf(market, tf)|
    ensures Spent(p, market, regimes, tf, n, Scan(p, market, regimes, tf, n, start))
  {
    hide CandidateAt, Scan, CandlesOf;
    if n > 1 {
      ScanSpends(p, market, regimes, tf, n - 1, start);
      ScanUnfolds(p, market, regimes, tf, n, start);
    }
  }

  lemma ScanStarts(p: Profile, market: Market, regimes: seq<Snapshot>, tf: Timeframe, start: Found)
    requires regimes != [] && 1 <= |CandlesOf(market, tf)|
    ensures Scan(p, market, regimes, tf, 1, start) == start
  {
  }

  lemma KnownInRange(market: Market, tf: Timeframe, t: int)
    ensures Known(market, tf, t) <= |CandlesOf(market, tf)|
  {
  }

  lemma ScanUnfolds(p: Profile, market: Market, regimes: seq<Snapshot>, tf: Timeframe, n: nat, start: Found)
    requires regimes != [] && 2 <= n <= |CandlesOf(market, tf)|
    ensures Scan(p, market, regimes, tf, n, start)
         == Offer(Scan(p, market, regimes, tf, n - 1, start), CandidateAt(p, market, regimes, tf, n - 1))
  {
  }

  lemma OfferKnown(p: Profile, market: Market, regimes: seq<Snapshot>, t: int, f: Found, g: Found, tf: Timeframe,
                   i: nat)
    requires regimes != [] && SoundMarket(market) && Agree(p, market, regimes, t, f, g) && 1 <= i < Known(market, tf, t)
    ensures var c := CandidateAt(p, market, regimes, tf, i); Agree(p, market, regimes, t, Offer(f, c), Offer(g, c))
  {
    CandidateLabels(p, market, regimes, tf, i);
    TruncatedCandles(market, tf, t);
    hide CandidateAt, TruncateMarket;
    var c := CandidateAt(p, market, regimes, tf, i);
    if c.Some? {
      AppendSignal(f.signals, c.value, t);
    }
  }

  lemma OfferLater(p: Profile, market: Market, regimes: seq<Snapshot>, t: int, f: Found, g: Found, tf: Timeframe,
                   i: nat)
    requires regimes != [] && SoundMarket(market) && Agree(p, market, regimes, t, f, g)
    requires Known(market, tf, t) <= i < |CandlesOf(market, tf)| && 1 <= i
    requires Spent(p, market, regimes, tf, i, f)
    ensures Agree(p, market, regimes, t, Offer(f, CandidateAt(p, market, regimes, tf, i)), g)
  {
    hide CandidateAt, TruncateMarket, SoundMarket, SignalsBy;
    CandidateLabels(p, market, regimes, tf, i);
    TruncatedCandles(market, tf, t);
    var c := CandidateAt(p, market, regimes, tf, i);
    if c.Some? && c.value.context !in f.used {
      AppendSignal(f.signals, c.value, t);
      forall other, j | 1 <= j < Known(market, other, t) && CandidateAt(p, market, regimes, other, j).Some?
        ensures CandidateAt(p, market, regimes, other, j).value.context != c.value.context
      {
        CandidateLabels(p, market, regimes, other, j);
      }
    }
  }

  lemma {:induction false} ScanKnown(p: Profile, market: Market, regimes: seq<Snapshot>, q: nat, t: int, tf: Timeframe,
                                     n: nat, f: Found, g: Found)
    requires SoundMarket(market) && CoversRegimes(regimes, q, t) && 1 <= n <= Known(market, tf, t)
    requires Agree(p, market, regimes, t, f, g)
    ensures n <= |CandlesOf(TruncateMarket(market, t), tf)|
    ensures Agree(p, market, regimes, t, Scan(p, market, regimes, tf, n, f),
                  Scan(p, TruncateMarket(market, t), regimes[..q], tf, n, g))
  {
    hide CandidateAt, TruncateMarket, Agree, Offer, Known, CandlesOf, SoundMarket, Scan;
    TruncatedCandles(market, tf, t);
    KnownInRange(market, tf, t);
    if n == 1 {
      ScanStarts(p, market, regimes, tf, f);
      ScanStarts(p, TruncateMarket(market, t), regimes[..q], tf, g);
    } else {
      ScanUnfolds(p, market, regimes, tf, n, f);
      ScanUnfolds(p, TruncateMarket(market, t), regimes[..q], tf, n, g);
      ScanKnown(p, market, regimes, q, t, tf, n - 1, f, g);
      CandidateAtPrefix(p, market, regimes, q, t, tf, n - 1);
      OfferKnown(p, market, regimes, t, Scan(p, market, regimes, tf, n - 1, f),
                 Scan(p, TruncateMarket(market, t), regimes[..q], tf, n - 1, g), tf, n - 1);
    }
  }

  lemma {:induction false} ScanLater(p: Profile, market: Market, regimes: seq<Snapshot>, t: int, tf: Timeframe, k: nat,
                                     n: nat, f: Found, g: Found)
    requires SoundMarket(market) && regimes != []
    requires 1 <= k <= n <= |CandlesOf(market, tf)| && Known(market, tf, t) <= k
    requires Agree(p, market, regimes, t, Scan(p, market, regimes, tf, k, f), g)
    ensures Agree(p, market, regimes, t, Scan(p, market, regimes, tf, n, f), g)
  {
    hide CandidateAt, Agree, Offer, Spent, Scan, SoundMarket, CandlesOf;
    if k < n {
      ScanLater(p, market, regimes, t, tf, k, n - 1, f, g);
      ScanUnfolds(p, market, regimes, tf, n, f);
      ScanSpends(p, market, regimes, tf, n - 1, f);
      OfferLater(p, market, regimes, t, Scan(p, market, regimes, tf, n - 1, f), g, tf, n - 1);
    }
  }

  /**
   Truncation is harmless for a timeframe unless it leaves exactly two candles
   of a longer series and the second of them offers a signal: scanning wants three.
   */
  predicate TimeframeDecided(p: Profile, market: Market, regimes: seq<Snapshot>, t: int, tf: Timeframe)
    requires regimes != []
  {
    |CandlesOf(market, tf)| < 3 || Known(market, tf, t) != 2 || CandidateAt(p, market, regimes, tf, 1) == None
  }

  lemma TimeframeAgrees(p: Profile, market: Market, regimes: seq<Snapshot>, q: nat, t: int, tf: Timeframe, f: Found,
                        g: Found)
    requires SoundMarket(market) && CoversRegimes(regimes, q, t) && TimeframeDecided(p, market, regimes, t, tf)
    requires Agree(p, market, regimes, t, f, g)
    ensures Agree(p, market, regimes, t, ScanTimeframe(p, market, regimes, tf, f),
                  ScanTimeframe(p, TruncateMarket(market, t), regimes[..q], tf, g))
  {
    TruncatedCandles(market, tf, t);
    hide CandidateAt, TruncateMarket, Agree, Offer, CandlesOf;
    var n, m := |CandlesOf(market, tf)|, Known(market, tf, t);
    if n >= 3 {
      if m >= 3 {
        ScanKnown(p, market, regimes, q, t, tf, m, f, g);
        ScanLater(p, market, regimes, t, tf, m, n, f, ScanTimeframe(p, TruncateMarket(market, t), regimes[..q], tf, g));
      } else if m == 2 {
        SecondOffersNothing(p, market, regimes, tf, f);
        ScanLater(p, market, regimes, t, tf, 2, n, f, g);
      } else {
        ScanLater(p, market, regimes, t, tf, 1, n, f, g);
      }
    }
  }

  lemma SecondOffersNothing(p: Profile, market: Market, regimes: seq<Snapshot>, tf: Timeframe, f: Found)
    requires regimes != [] && |CandlesOf(market, tf)| >= 3 && CandidateAt(p, market, regimes, tf, 1) == None
    ensures Scan(p, market, regimes, tf, 2, f) == f
  {
    hide CandidateAt;
    assert Scan(p, market, regimes, tf, 1, f) == f;
  }

  lemma {:induction false} AllAgree(p: Profile, market: Market, regimes: seq<Snapshot>, q: nat, t: int, k: nat)
    requires SoundMarket(market) && CoversRegimes(regimes, q, t) && k <= |p.entryTimeframes|
    requires forall tf :: tf in p.entryTimeframes ==> TimeframeDecided(p, market, regimes, t, tf)
    ensures Agree(p, market, regimes, t, ScanAll(p, market, regimes, k),
                  ScanAll(p, TruncateMarket(market, t), regimes[..q], k))
  {
    if k > 0 {
      hide TimeframeDecided, ScanTimeframe, TruncateMarket, Agree;
      AllAgree(p, market, regimes, q, t, k - 1);
      TimeframeAgrees(p, market, regimes, q, t, p.entryTimeframes[k - 1],
                      ScanAll(p, market, regimes, k - 1), ScanAll(p, TruncateMarket(market, t), regimes[..q], k - 1));
    }
  }

  lemma SignalLeOrders()
    ensures TotalPreorder(SignalLe)
  {
  }

  // ---- the converse: an undecided timeframe does repaint ----

  lemma {:induction false} ScanTimeframes(p: Profile, market: Market, regimes: seq<Snapshot>, tf: Timeframe, n: nat,
                                          f: Found)
    requires regimes != [] && 1 <= n <= |CandlesOf(market, tf)|
    ensures var g := Scan(p, market, regimes, tf, n, f);
      && (forall s :: s in g.signals ==> s in f.signals || s.timeframe == tf)
      && (forall s :: s in f.signals ==> s in g.signals)
      && (forall c :: c in g.used ==> c in f.used || c.timeframe == tf)
  {
    if n > 1 {
      ScanTimeframes(p, market, regimes, tf, n - 1, f);
      CandidateLabels(p, market, regimes, tf, n - 1);
      hide CandidateAt;
    }
  }

  lemma {:induction false} OnlyLongTimeframesSignal(p: Profile, market: Market, regimes: seq<Snapshot>, k: nat)
    requires regimes != [] && k <= |p.entryTimeframes|
    ensures var f := ScanAll(p, market, regimes, k);
      && (forall s :: s in f.signals ==> |CandlesOf(market, s.timeframe)| >= 3)
      && (forall c :: c in f.used ==> c.timeframe in p.entryTimeframes[..k])
  {
    if k > 0 {
      OnlyLongTimeframesSignal(p, market, regimes, k - 1);
      var tf := p.entryTimeframes[k - 1];
      if |CandlesOf(market, tf)| >= 3 {
        ScanTimeframes(p, market, regimes, tf, |CandlesOf(market, tf)|, ScanAll(p, market, regimes, k - 1));
      }
      hide Scan, CandlesOf;
      assert p.entryTimeframes[..k] == p.entryTimeframes[..k - 1] + [tf];
    }
  }

  lemma {:induction false} ScanGrows(p: Profile, market: Market, regimes: seq<Snapshot>, tf: Timeframe, k: nat, n: nat,
                                     f: Found)
    requires regimes != [] && 1 <= k <= n <= |CandlesOf(market, tf)|
    ensures forall s :: s in Scan(p, market, regimes, tf, k, f).signals ==>
      s in Scan(p, market, regimes, tf, n, f).signals
  {
    if k < n {
      hide CandidateAt;
      ScanGrows(p, market, regimes, tf, k, n - 1, f);
    }
  }

  lemma FirstPassFires(p: Profile, market: Market, regimes: seq<Snapshot>, tf: Timeframe, f: Found)
    requires regimes != [] && |CandlesOf(market, tf)| >= 3 && CandidateAt(p, market, regimes, tf, 1).Some?
    requires forall c :: c in f.used ==> c.timeframe != tf
    ensures CandidateAt(p, market, regimes, tf, 1).value in ScanTimeframe(p, market, regimes, tf, f).signals
  {
    CandidateLabels(p, market, regimes, tf, 1);
    ScanGrows(p, market, regimes, tf, 2, |CandlesOf(market, tf)|, f);
    hide CandidateAt, CandlesOf;
    ScanUnfolds(p, market, regimes, tf, 2, f);
    assert Scan(p, market, regimes, tf, 1, f) == f;
  }

  lemma TimeframeKeeps(p: Profile, market: Market, regimes: seq<Snapshot>, tf: Timeframe, f: Found)
    requires regimes != []
    ensures forall s :: s in f.signals ==> s in ScanTimeframe(p, market, regimes, tf, f).signals
  {
    hide Scan, CandlesOf;
    if |CandlesOf(market, tf)| >= 3 {
      ScanTimeframes(p, market, regimes, tf, |CandlesOf(market, tf)|, f);
    }
  }

  /** The full run does fire the signal offered by the second candle of a timeframe. */
  lemma {:induction false} SecondCandleSignals(p: Profile, market: Market, regimes: seq<Snapshot>, tf: Timeframe,
                                               k: nat)
    requires regimes != [] && k <= |p.entryTimeframes| && tf in p.entryTimeframes[..k]
    requires |CandlesOf(market, tf)| >= 3 && CandidateAt(p, market, regimes, tf, 1).Some?
    ensures CandidateAt(p, market, regimes, tf, 1).value in ScanAll(p, market, regimes, k).signals
  {
    hide CandidateAt, CandlesOf, Scan, ScanTimeframe;
    var last, before := p.entryTimeframes[k - 1], ScanAll(p, market, regimes, k - 1);
    assert p.entryTimeframes[..k] == p.entryTimeframes[..k - 1] + [last];
    if tf in p.entryTimeframes[..k - 1] {
      SecondCandleSignals(p, market, regimes, tf, k - 1);
      TimeframeKeeps(p, market, regimes, last, before);
    } else {
      OnlyLongTimeframesSignal(p, market, regimes, k - 1);
      FirstPassFires(p, market, regimes, tf, before);
    }
  }

  lemma DecidedSignalsStay(p: Profile, market: Market, regimes: seq<Snapshot>, q: nat, t: int)
    requires SoundMarket(market) && CoversRegimes(regimes, q, t)
    requires forall tf :: tf in p.entryTimeframes ==> TimeframeDecided(p, market, regimes, t, tf)
    ensures SignalsOf(p, TruncateMarket(market, t), regimes[..q]) == SignalsBy(SignalsOf(p, market, regimes), t)
  {
    hide TimeframeDecided, TruncateMarket, ScanAll, SoundMarket;
    SignalLeOrders();
    SortFilter(ScanAll(p, market, regimes, |p.entryTimeframes|).signals, SignalLe, (s: EntrySignal) => s.ts <= t);
    AllAgree(p, market, regimes, q, t, |p.entryTimeframes|);
  }

  lemma UndecidedSignalRepaints(p: Profile, market: Market, regimes: seq<Snapshot>, q: nat, t: int, tf: Timeframe)
    requires SoundMarket(market) && CoversRegimes(regimes, q, t)
    requires tf in p.entryTimeframes && !TimeframeDecided(p, market, regimes, t, tf)
    ensures SignalsOf(p, TruncateMarket(market, t), regimes[..q]) != SignalsBy(SignalsOf(p, market, regimes), t)
  {
    var n := |p.entryTimeframes|;
    var full, known := ScanAll(p, market, regimes, n), ScanAll(p, TruncateMarket(market, t), regimes[..q], n);
    var s := CandidateAt(p, market, regimes, tf, 1).value;
    assert s in full.signals by {
      assert p.entryTimeframes[..n] == p.entryTimeframes;
      SecondCandleSignals(p, market, regimes, tf, n);
    }
    CandidateLabels(p, market, regimes, tf, 1);
    TruncatedCandles(market, tf, t);
    assert s !in known.signals by {
      OnlyLongTimeframesSignal(p, TruncateMarket(market, t), regimes[..q], n);
    }
    hide CandidateAt, TruncateMarket, ScanAll, CoversRegimes;
    SortMember(full.signals, SignalLe, s);
    SortMember(known.signals, SignalLe, s);
    FilterMember(StableSort(full.signals, SignalLe), (x: EntrySignal) => x.ts <= t);
  }

  /**
   No repainting of signals, for every truncation: the signals of the data known
   at `t` are the full run's signals up to `t` - if and only if no entry
   timeframe is cut down to a signalling second candle.
   */
  lemma SignalsDoNotRepaint(p: Profile, market: Market, regimes: seq<Snapshot>, q: nat, t: int)
    requires SoundMarket(market) && CoversRegimes(regimes, q, t)
    ensures (forall tf :: tf in p.entryTimeframes ==> TimeframeDecided(p, market, regimes, t, tf))
       <==> SignalsOf(p, TruncateMarket(market, t), regimes[..q]) == SignalsBy(SignalsOf(p, market, regimes), t)
  {
    assert regimes != [];
    hide TimeframeDecided, TruncateMarket, SignalsOf, SoundMarket, CoversRegimes;
    if tf :| tf in p.entryTimeframes && !TimeframeDecided(p, market, regimes, t, tf) {
      UndecidedSignalRepaints(p, market, regimes, q, t, tf);
    } else {
      DecidedSignalsStay(p, market, regimes, q, t);
    }
  }

  // ---- the whole pipeline ----

  function RegimesOf(p: Profile, market: Market): seq<Snapshot>
    requires p.atrPeriod > 0
  {
    var candles := CandlesOf(market, H4);
    SnapshotsOf(candles, PivotsOf(candles, p), p.breakBasis)
  }

  ghost predicate PivotsStay(p: Profile, market: Market, t: int)
    requires p.atrPeriod > 0
  {
    PivotsOf(CandlesOf(TruncateMarket(market, t), H4), p)
      == Filter(PivotsOf(CandlesOf(market, H4), p), (v: Pivot) => v.ts <= t)
  }

  ghost predicate RegimesStay(p: Profile, market: Market, t: int)
    requires p.atrPeriod > 0
  {
    RegimesOf(p, TruncateMarket(market, t)) == Filter(RegimesOf(p, market), (s: Snapshot) => s.ts <= t)
  }

  ghost predicate SignalsStay(p: Profile, market: Market, t: int)
    requires p.atrPeriod > 0 && RegimesOf(p, market) != [] && RegimesOf(p, TruncateMarket(market, t)) != []
  {
    SignalsOf(p, TruncateMarket(market, t), RegimesOf(p, TruncateMarket(market, t)))
      == SignalsBy(SignalsOf(p, market, RegimesOf(p, market)), t)
  }

  /** No cut leaves exactly two candles of a longer series with something to report on the second. */
  predicate PipelineDecided(p: Profile, market: Market, t: int)
    requires p.atrPeriod > 0 && RegimesOf(p, market) != []
  {
    && PivotsDecided(CandlesOf(market, H4), p, t)
    && forall tf :: tf in p.entryTimeframes ==> TimeframeDecided(p, market, RegimesOf(p, market), t, tf)
  }

  lemma RegimesNonempty(p: Profile, market: Market, t: int)
    requires SoundMarket(market) && p.atrPeriod > 0 && Known(market, H4, t) >= 1
    ensures RegimesOf(p, market) != [] && RegimesOf(p, TruncateMarket(market, t)) != []
  {
    RegimesCovered(p, market, t);
    TruncatedCandles(market, H4, t);
    hide PivotsOf, RegimeAfter, TruncateMarket;
  }

  /**
   No repainting through pivots, regime and signals at once: with at least one
   known 4h candle all three agree with the full run exactly when the cut is
   decided for the pivots and for every entry timeframe.
   */
  lemma PipelineDoesNotRepaint(p: Profile, market: Market, t: int)
    requires SoundMarket(market) && p.atrPeriod > 0 && Known(market, H4, t) >= 1
    ensures RegimesOf(p, market) != [] && RegimesOf(p, TruncateMarket(market, t)) != []
    ensures PipelineDecided(p, market, t)
       <==> PivotsStay(p, market, t) && RegimesStay(p, market, t) && SignalsStay(p, market, t)
  {
    RegimesNonempty(p, market, t);
    var candles, q := CandlesOf(market, H4), Known(market, H4, t);
    PivotsDoNotRepaint(candles, p, t);
    TruncateIsPrefix(candles, t);
    RegimesCovered(p, market, t);
    hide PivotsDecided, PivotsOf, TimeframeDecided, SnapshotsOf, SignalsOf;
    if PivotsDecided(candles, p, t) {
      SnapshotsDoNotRepaint(candles, p, p.breakBasis, t);
      assert RegimesOf(p, TruncateMarket(market, t)) == RegimesOf(p, market)[..q];
      SignalsDoNotRepaint(p, market, RegimesOf(p, market), q, t);
    }
  }

  lemma RegimesCovered(p: Profile, market: Market, t: int)
    requires SoundMarket(market) && p.atrPeriod > 0 && Known(market, H4, t) >= 1
    ensures CoversRegimes(RegimesOf(p, market), Known(market, H4, t), t)
  {
    hide PivotsOf, RegimeAfter;
    TruncateIsPrefix(CandlesOf(market, H4), t);
  }

  /** The plain reading: with three known candles on every timeframe in use nothing repaints. */
  lemma ThreeCandlesSuffice(p: Profile, market: Market, t: int)
    requires SoundMarket(market) && p.atrPeriod > 0
    requires Known(market, H4, t) >= 3 && forall tf :: tf in p.entryTimeframes ==> Known(market, tf, t) >= 3
    ensures RegimesOf(p, market) != [] && RegimesOf(p, TruncateMarket(market, t)) != []
    ensures PivotsStay(p, market, t) && RegimesStay(p, market, t) && SignalsStay(p, market, t)
  {
    RegimesNonempty(p, market, t);
    assert PipelineDecided(p, market, t);
    hide PipelineDecided, PivotsStay, RegimesStay, SignalsStay, RegimesOf, TruncateMarket;
    PipelineDoesNotRepaint(p, market, t);
  }

  // ---- a market whose signals do repaint ----

  const FALL := Candle(1, 100.0, 101.0, 98.0, 99.0)
  const ENGULFING := Candle(2, 98.5, 103.0, 97.0, 102.0)
  const FOUR_HOURS := Candle(0, 100.0, 100.0, 100.0, 100.0)

  /** One 4h candle, and an entry timeframe whose second candle engulfs the first at the low. */
  function EngulfingMarket(tf: Timeframe): Market {
    map[H4 := [FOUR_HOURS], tf := [FALL, ENGULFING, ENGULFING.(ts := 3)]]
  }

  lemma EngulfingMarketIs(tf: Timeframe)
    requires tf != H4
    ensures SoundMarket(EngulfingMarket(tf))
    ensures Known(EngulfingMarket(tf), H4, 2) == 1 && Known(EngulfingMarket(tf), tf, 2) == 2
  {
    assert CandlesOf(EngulfingMarket(tf), H4) == [FOUR_HOURS] && CandlesOf(EngulfingMarket(tf), tf)[2].ts == 3;
  }

  lemma EngulfingSignals(p: Profile, tf: Timeframe, regimes: seq<Snapshot>)
    requires Normalized(p) && tf != H4 && |regimes| == 1 && regimes[0].state == Flat
    ensures CandidateAt(p, EngulfingMarket(tf), regimes, tf, 1).Some?
  {
    var candles := CandlesOf(EngulfingMarket(tf), tf);
    assert candles[..2] == [FALL, ENGULFING];
    FilterAll(candles[..2], (c: Candle) => c.ts >= 2 - p.flatLookbackHours * HOUR);
    assert Window(candles, 1, p.flatLookbackHours) == [FALL, ENGULFING];
    FirstLowestIsLowest([FALL, ENGULFING], 0, 2);
  }

  /** Every entry timeframe below 4h can repaint: pivots and regime stay, and the signals do not. */
  lemma SignalsCanRepaint(p: Profile, tf: Timeframe)
    requires Normalized(p) && tf in p.entryTimeframes && tf != H4
    ensures var market := EngulfingMarket(tf);
      && SoundMarket(market) && Known(market, H4, 2) >= 1
      && RegimesOf(p, market) != [] && RegimesOf(p, TruncateMarket(market, 2)) != []
      && PivotsStay(p, market, 2) && RegimesStay(p, market, 2) && !SignalsStay(p, market, 2)
  {
    var market := EngulfingMarket(tf);
    EngulfingMarketIs(tf);
    RegimesNonempty(p, market, 2);
    assert CandlesOf(market, H4) == [FOUR_HOURS];
    FirstSnapshotIsFlat([FOUR_HOURS], p, p.breakBasis);
    EngulfingSignals(p, tf, RegimesOf(p, market));
    PivotsDoNotRepaint([FOUR_HOURS], p, 2);
    SnapshotsDoNotRepaint([FOUR_HOURS], p, p.breakBasis, 2);
    TruncateIsPrefix([FOUR_HOURS], 2);
    hide PivotsOf, SnapshotsOf, CandidateAt, SignalsOf;
    PipelineDoesNotRepaint(p, market, 2);
  }
}
