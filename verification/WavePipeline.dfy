/** A research run of the wave engine: pivots, regime, signals and trades in one pass. */
module WavePipeline {
  import opened Candles
  import opened Pivots
  import opened Regime
  import opened Signals
  import opened NoRepaint
  import opened Trades
  import PivotAudit
  import RegimeBreaks
  import SignalAudit
  import TradeAudit

  lemma SoundSignalsTrade(signals: seq<EntrySignal>)
    requires forall s :: s in signals ==> SoundGeometry(s)
    ensures Tradable(signals)
  {
  }

  /**
   The whole engine, told from the market and the profile: where the zigzag turns,
   which candles break which pivots, which candles offer the signals, which signals
   become trades, and where every trade stands and ends. No trade loses more than
   the stop cap or makes more than the full payoff, and none enters before an
   earlier one is out.
   */
  method RunResearch(p: Profile, market: Market)
    returns (pivots: seq<Pivot>, regimes: seq<Snapshot>, signals: seq<EntrySignal>, trades: seq<Trade>)
    requires SoundMarket(market) && Normalized(p) && CandlesOf(market, H4) != []
    ensures pivots == PivotsOf(CandlesOf(market, H4), p)
    ensures regimes == RegimesOf(p, market) && regimes != []
    ensures signals == SignalsOf(p, market, regimes)
    ensures Tradable(signals) && trades == TradesOf(p, market, signals)
    ensures PivotAudit.TurnsTold(CandlesOf(market, H4), p, pivots)
    ensures RegimeBreaks.Declared(regimes, CandlesOf(market, H4), pivots, p.breakBasis)
    ensures SignalAudit.SignalsTold(p, market, regimes, signals)
    ensures exists picks :: TradeAudit.Chosen(trades, picks, market, signals, |signals|)
    ensures TradeAudit.AllAudited(trades, p, market)
    ensures AllInEnvelope(p, trades)
    ensures forall i, j :: 0 <= i < j < |trades| && trades[i].outcome.reason != DatasetEnd ==>
      trades[i].outcome.exitTime <= trades[j].signal.ts
  {
    SoundSeries(market, H4);
    var candles := CandlesOf(market, H4);
    hide Series, SoundMarket, PivotsOf, AllInEnvelope, SoundGeometry, Simulate, SignalsOf, Tradable, Ordered,
         PivotAudit.TurnsTold, RegimeBreaks.Declared, SignalAudit.SignalsTold, TradeAudit.Chosen, TradeAudit.AllAudited;
    pivots := DetectPivots(candles, p);
    PivotAudit.PivotsAreTold(candles, p);
    regimes := BuildRegime(candles, pivots, p.breakBasis);
    PivotStructure(candles, p);
    RegimeBreaks.SnapshotsAreDeclared(candles, pivots, p.breakBasis);
    signals := GenerateEntrySignals(p, market, regimes);
    SnapshotsAreOrdered(candles, pivots, p.breakBasis);
    SignalAudit.SignalsAreTold(p, market, regimes);
    SignalsAreSound(p, market, regimes);
    SoundSignalsTrade(signals);
    trades := SimulateTrades(p, market, signals);
    ghost var picks := TradeAudit.SimulationIsAudited(p, market, signals, |signals|);
    TradesInEnvelope(p, market, signals, |signals|);
    TradesDoNotOverlap(p, market, signals, |signals|);
  }
}
