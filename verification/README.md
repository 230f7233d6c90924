# Verified model of the trading core

This project models the parts of the repository that decide when to trade, how
a trade is simulated and how the surrounding machinery keeps its promises, and
proves properties of them that span whole runs. Prices and money are exact
`real` numbers, candles come as sequences, and library calls, clocks, fetches
and executors appear as parameters or as events of a state machine.

Run `dafny verify dfyconfig.toml` to check everything.

| module | models |
|---|---|
| `Prelude`, `Sorting`, `Candles` | shared values, the stable library sort and filters, candle series and their truncation |
| `Pivots`, `Regime`, `Signals`, `NoRepaint`, `Trades`, `TradesNoRepaint`, `WavePipeline` | the wave engine: ZigZag pivots, the regime state machine, entry signals, the trade simulator |
| `Replay` | the second trade simulator, inside the replay exporter |
| `PivotAudit`, `RegimeBreaks`, `SignalAudit`, `TradeAudit`, `ReplayAudit` | what the wave engine and the exporter report, told from candles, prices and the profile |
| `InfoSteps`, `InfoInvariants`, `InfoProtocol`, `InfoQueue`, `InfoResults`, `InfoClient` | the info-request coordinator, as a state machine over the steps between awaits and as the class whose methods take those steps |
| `RiskBacktest`, `RiskAudit` | the bar-by-bar risk backtest, and what every bar does |
| `Timeline`, `CanonicalBacktest`, `BacktestEngine`, `TimelineAudit`, `RecordAudit`, `EventAudit` | the canonical backtest: event timeline, positions, ledger, report, the engine as a class over the variables of a run, and what its events and records tell |
| `Indicators`, `SignalQuality`, `Scaling`, `SeriesAudit`, `GateAudit` | EMA, ATR, ADX and the signal-quality gate, both in other price units, and both told by their recurrences and inequalities |
| `Decide`, `ActionLogs`, `Act`, `Idempotence`, `RuleEngine`, `DecideAudit`, `ActAudit` | evaluation, preemption, cooldowns, idempotent execution |
| `TrialRetention`, `TrialAudit` | the optimizer's bounded store of trials |

Each loop of the source is a method with the loop's variables, proved equal to
a specification function; the properties are lemmas about those functions or
invariants of the classes. The modules that tell results from inputs do without
those functions: what they say of every run is written in prices, times, records
and numerals, so that a specification function that computed anything else would
fail there. Fields described as history are read by no code; they exist so that
a property about the past can be stated.

## Main results

- **Results told from inputs.** Every operation is characterised without its own
  specification: where pivots turn, which candle breaks which pivot, which
  candles signal and which signals trade, and where, why and with what each trade
  ends (`PivotAudit.PivotsAreTold`, `RegimeBreaks.SnapshotsAreDeclared`,
  `SignalAudit.SignalsAreTold`, `TradeAudit.SimulationIsAudited`,
  `ReplayAudit.RowsAreAudited`, all together in `WavePipeline.RunResearch`); what a
  task ends with and what its callers get (`InfoResults.ResultsAreTold`,
  `InfoResults.CallerGetsBody`); what every event and every bar of the two
  backtests does and what their records add up to (`EventAudit.RunIsTold`,
  `RecordAudit.RunReplays`, `RiskAudit.RunIsTold`); the recurrences of the
  indicators and the deserved verdict of the gate (`SeriesAudit.EmaIsTold`,
  `GateAudit.VerdictIsDeserved`); decisions, executions and the kept trials
  (`DecideAudit.PhaseIsTold`, `ActAudit.PhaseIsTold`, `TrialAudit.SearchIsTold`).
- **No repainting.** Pivots, regime snapshots and signals of the data known at
  a time are exactly those of the full run up to that time, if and only if no
  cut leaves two candles of a longer series with something to report on the
  second one: the guards that want three candles then delay it
  (`NoRepaint.PipelineDoesNotRepaint`, `Pivots.PivotsDoNotRepaint`,
  `NoRepaint.SignalsDoNotRepaint`). Pivots can repaint under exactly two kinds of
  settings, and signals on every entry timeframe, with the markets that show it
  (`Pivots.PivotsCanRepaint`, `NoRepaint.SignalsCanRepaint`). The trades closed by
  that time agree exactly when no known signal slips in behind a trade that the
  full run still has open, which with two entry timeframes can happen while all
  else stays (`TradesNoRepaint.PipelineTradesStay`,
  `TradesNoRepaint.TradesCanRepaint`).
- **Payoff envelope.** No trade of any run loses more than the stop cap; it
  makes at most the weighted payoff of its targets, for every continuation of
  the market, exactly when the first target is no farther than the mean of the
  other two or, on a short, lies at or below zero while that payoff is at least
  the whole entry (`WavePipeline.RunResearch`, `Trades.UpperEnvelopeExact`).
- **Two simulators, one behaviour.** The replay exporter selects the same trades
  with the same exits as the engine (`Replay.SimulatorsAgree`).
- **Every interleaving of the request coordinator** keeps its slots exact, its
  flights single, its turns apart, its cache fresh and its queue in order
  (`InfoProtocol.SlotProtocol`, `InfoProtocol.RequestProtocol`,
  `InfoQueue.NoOvertaking`); apart from requests and the clock it takes a bounded
  number of steps, none of its states is a deadlock, and from each of them all
  tasks can finish (`InfoProtocol.RunUsesWork`, `InfoProtocol.NoDeadlock`,
  `InfoProtocol.EveryTaskCanFinish`).
- **Loss bounds and conservation** of the risk backtest after every bar of every
  run, for all fractions of the targets: no loss after the first target when the
  targets in use pay the round trip, and fills in strictly increasing order when
  their R multiples do not fall (`RiskBacktest.RunIsSound`,
  `RiskBacktest.NoLossAfterFirstTarget`).
- **No look-ahead and half-a-cent drift** of the canonical backtest
  (`CanonicalBacktest.NoLookAhead`, `CanonicalBacktest.RunIsSound`,
  `CanonicalBacktest.ReportMatchesEquity`), with every position managed as its
  rules say (`CanonicalBacktest.RunIsManaged`).
- **Affine invariance** of the whole signal-quality gate: it gives the same
  answer and reward-to-risk in every price unit and at every price level, and the
  mirrored answer when prices are turned over and sides switched
  (`Scaling.GateIsAffine`, `SignalQuality.GateMirrors`).
- **Decisions declared.** A rule fires exactly when the evaluations and the
  cooldown state say so, whatever the input order (`Decide.DecisionsAreVerdicts`,
  `Decide.OrderIndependent`), and over any runs fires keep their cooldowns
  (`RuleEngine.RuleEngine.CooldownsHold`).
- **Executions, exactly.** Over any runs a key is blocked exactly while a
  reported execution of it is within the time to live
  (`RuleEngine.RuleEngine.BlocksExactly`, `Idempotence.DedupedExactly`). A failure
  with an empty message is not reported and blocks nothing, so one list of
  decisions can execute a key twice at once; executions of a key keep the time to
  live, whatever is decided, if and only if no call can fail for good with an
  empty message (`Idempotence.EmptyMessageExecutesTwice`,
  `Idempotence.IdempotentExactly`).
- **The best trial is never lost** by the bounded store, and the experiment ends
  pointing at it exactly when no other completed trial of the run with the same
  objective is stored in front of it (`TrialRetention.Search.Run`,
  `TrialRetention.PickIsKept`).

## Where the code differs from its own description

- The comment at `coinmaster/freqtrade/wave_engine/engine.py:273-276` says that
  later logic cannot see an unconfirmed pivot. That holds, but with exactly two
  candles the detector reports nothing although the full run confirms a pivot on
  the second one.
- `coinmaster/freqtrade/wave_engine/engine.py:289-310` also looks for a low as the
  first pivot. On sound candles none can be confirmed there: every zigzag opens
  with a high (`PivotAudit.HighComesFirst`).
- `coinmaster/src/core/signalQualityContext.ts:71-73` speaks of `2*period` empty
  ADX values; the first value is at index `2*period - 1`, as lines 121-123 say.
- `coinmaster/src/core/signalQualityContext.ts:261-262` asks the range of the
  three candles to cover the threshold; lines 273-280 compare the body, from the
  first open to the last close. On sound candles a body that qualifies implies a
  range that does, and at every threshold a standing impulse shows that the range
  is not enough (`SignalQuality.BodyImpliesRange`, `SignalQuality.RangeIsNotEnough`).
- `coinmaster/src/engine/act.ts:158` treats an error with an empty message like
  a success that was never recorded: the fire leaves no outcome and no log entry,
  and the next fire of its key is executed again at once. Fires and outcomes
  correspond for every list of decisions exactly when that cannot happen
  (`Idempotence.ReportsExactly`).
- `coinmaster/src/engine/ruleEngine.ts:116-122` offers a decision without a run,
  but it writes the cooldown state like a run does.
- `coinmaster/src/core/optimizerWorker.ts:720-724` may point the experiment at
  another trial than the best one kept in full when two objectives tie: the first
  stored trial with the best objective is picked, and samples are stored in front.
- `coinmaster/src/core/backtestEngine.ts:377-383` sells the first target's share of
  the original size even when an emergency exit has left less: more is booked than
  is held exactly when that share exceeds what remains
  (`CanonicalBacktest.FirstTargetOversells`, `CanonicalBacktest.SellsMoreThanHeld`).
- `coinmaster/freqtrade/wave_engine/export_replay.py:459-460` prints a profit
  that omits the open rest of a trade that ran to the end of the data.

The model follows the code in each case.

## Model

| member | source | states |
|---|---|---|
| `Pivots.ComputeAtr` | coinmaster/freqtrade/wave_engine/engine.py:236-247 | the loop returns at every candle the mean of the last `period` true ranges, and nothing before |
| `Pivots.DetectPivots` | coinmaster/freqtrade/wave_engine/engine.py:256-321 | the whole detector, with its final sort and dedupe, returns what the ZigZag recurrence built: both passes are the identity |
| `Pivots.DedupePivots` | coinmaster/freqtrade/wave_engine/engine.py:311-321 | a list in strict time order comes back unchanged; neighbours of the result never share time and kind |
| `Pivots.PivotStructure` | coinmaster/freqtrade/wave_engine/engine.py:256-310 | pivots alternate high and low, lie at least the earlier threshold apart, and each after the first is the exact extreme between the two confirmations |
| `Pivots.PivotsDoNotRepaint` | coinmaster/freqtrade/wave_engine/engine.py:256-321 | truncating the data at `t` gives exactly the pivots up to `t`, if and only if the cut does not leave two candles whose second confirms a pivot |
| `Pivots.PivotsCanRepaint` | coinmaster/freqtrade/wave_engine/engine.py:249-310 | under a normalised profile some truncation of some series gives other pivots than the full run had by then, if and only if the engine is the percentage zigzag or averages two candles with a multiplier of at most 2 |
| `Pivots.PivotsOnlyAppend` | coinmaster/freqtrade/wave_engine/engine.py:265-310 | more candles only append pivots, each confirmed on a later candle |
| `Regime.BuildRegime` | coinmaster/freqtrade/wave_engine/engine.py:324-394 | the loop over candles and pivots returns one snapshot per candle, each the state of the break recurrence, told in prices by `RegimeBreaks.SnapshotsAreDeclared` |
| `Regime.TwoBreaksMakeATrend` | coinmaster/freqtrade/wave_engine/engine.py:362-379 | long (short) exactly when the two most recent break events are both up (down), over whole runs |
| `Regime.BreaksConsumePivots` | coinmaster/freqtrade/wave_engine/engine.py:338-379 | each break consumes a pivot of its own, so the sequence number never exceeds the pivots seen |
| `Regime.BreaksComeLater` | coinmaster/freqtrade/wave_engine/engine.py:277-294 | no pivot is broken on the candle that confirmed it |
| `Regime.FirstSnapshotIsFlat` | coinmaster/freqtrade/wave_engine/engine.py:324-394 | the first snapshot is always flat with sequence number 0 |
| `Regime.SnapshotsDoNotRepaint` | coinmaster/freqtrade/wave_engine/engine.py:338-394 | the snapshots of the truncated data are the snapshots up to `t` of the full run |
| `Signals.GenerateEntrySignals` | coinmaster/freqtrade/wave_engine/engine.py:455-571 | the nested loops with the set of used contexts return the scan of all timeframes, sorted by time and timeframe name |
| `Signals.RegimeIsLatest` | coinmaster/freqtrade/wave_engine/engine.py:473-475 | on snapshots in time order the pointer stops at the last one taken by the candle |
| `Signals.SnapshotsAreOrdered` | coinmaster/freqtrade/wave_engine/engine.py:338-394 | the snapshots of a candle series are strictly in time order |
| `Signals.RegimeIndexResumes` | coinmaster/freqtrade/wave_engine/engine.py:469-475 | resuming from the snapshot of an earlier candle finds the same snapshot as searching from the start |
| `Signals.AdvanceRegime` | coinmaster/freqtrade/wave_engine/engine.py:473-475 | the pointer loop, resumed from the snapshot of any earlier candle, ends at the snapshot of this one, the last one taken by then |
| `Signals.FirstHighestIsHighest` | coinmaster/freqtrade/wave_engine/engine.py:434-446 | the key search returns the first index of the maximum high of the range |
| `Signals.FirstLowestIsLowest` | coinmaster/freqtrade/wave_engine/engine.py:435-446 | the key search returns the first index of the minimum low of the range |
| `Signals.CandidateGeometry` | coinmaster/freqtrade/wave_engine/engine.py:481-569 | every candidate starts its impulse on the losing side of the entry; for trend entries this follows from the 0.8 pullback cap |
| `Signals.SignalsAreSound` | coinmaster/freqtrade/wave_engine/engine.py:455-571 | every signal of every run has a positive entry and an impulse start strictly beyond it |
| `Signals.CandidatePrefix` | coinmaster/freqtrade/wave_engine/engine.py:481-569 | whether a candle signals depends only on the candles up to it |
| `NoRepaint.SignalsDoNotRepaint` | coinmaster/freqtrade/wave_engine/engine.py:465-571 | the signals of the data known at `t` are the signals up to `t` of the full run, if and only if no entry timeframe is cut down to a signalling second candle |
| `NoRepaint.PipelineDoesNotRepaint` | coinmaster/freqtrade/wave_engine/engine.py:256-571 | with at least one known 4h candle, pivots, snapshots and signals of the truncated data all agree with the full run up to `t`, if and only if the cut is decided for the pivots and for every entry timeframe |
| `NoRepaint.SignalsCanRepaint` | coinmaster/freqtrade/wave_engine/engine.py:465-466 | on every entry timeframe a concrete market, one 4h candle and an engulfing second candle, whose pivots and snapshots stay and whose signals do not |
| `NoRepaint.ThreeCandlesSuffice` | coinmaster/freqtrade/wave_engine/engine.py:256-571 | with three known candles on every timeframe in use nothing repaints |
| `Trades.RunTrade` | coinmaster/freqtrade/wave_engine/engine.py:623-712 | the bar loop of one trade, both sides written out, ends with the outcome of the walk specification |
| `Trades.SimulateTrades` | coinmaster/freqtrade/wave_engine/engine.py:600-739 | the loop over signals produces the trades of the book specification, told in prices by `TradeAudit.SimulationIsAudited` |
| `Trades.LevelsEnvelope` | coinmaster/freqtrade/wave_engine/engine.py:574-591 | for every sound signal `entry*(1-maxSl) <= stop < entry <= tp1`, mirrored for shorts |
| `Trades.WalkEnvelope` | coinmaster/freqtrade/wave_engine/engine.py:637-712 | whatever the candles do, the unrounded result of a trade is at least the capped loss, and at most the weighted payoff of the three targets when the first is no farther than the mean of the other two |
| `Trades.TradesInEnvelope` | coinmaster/freqtrade/wave_engine/engine.py:600-739 | every trade of a simulation on sound signals lies in the envelope, with the exact condition for its upper half |
| `Trades.TradePaysWithin` | coinmaster/freqtrade/wave_engine/engine.py:623-712 | a whole trade ends at or above the capped loss, and at or below the weighted payoff when it is capped |
| `Trades.UnreachableTarget` | coinmaster/freqtrade/wave_engine/engine.py:583-591 | a short whose first target lies at or below zero takes no target and ends below a return of 1 |
| `Trades.UpperEnvelopeExact` | coinmaster/freqtrade/wave_engine/engine.py:652-697 | the upper bound holds for every market that goes on after the entry candle if and only if `2*r1 <= tp2 + tp3`, or the first target is at or below zero and the weighted payoff is at least 1 |
| `Trades.FarFirstTarget` | coinmaster/freqtrade/wave_engine/engine.py:652-697 | otherwise a concrete quiet bar after an entry candle closing at the entry price beats the weighted payoff |
| `Trades.TradesDoNotOverlap` | coinmaster/freqtrade/wave_engine/engine.py:611-713 | no trade enters before the exit of an earlier trade that closed before the end of the data |
| `TradesNoRepaint.WalkKnown` | coinmaster/freqtrade/wave_engine/engine.py:637-712 | on known data a trade ends as it does in full when that is by `t`, and otherwise runs to the end of the data |
| `TradesNoRepaint.BooksAgree` | coinmaster/freqtrade/wave_engine/engine.py:600-739 | the book of the known data equals the full one up to the first signal whose trade is not closed by `t` |
| `TradesNoRepaint.TradesDoNotRepaint` | coinmaster/freqtrade/wave_engine/engine.py:600-739 | the trades that the known data report as closed by `t` are those of the full run, if and only if no known signal that was free when a trade still open at `t` was entered would itself close by `t` |
| `TradesNoRepaint.PipelineTradesStay` | coinmaster/freqtrade/wave_engine/engine.py:871-876 | the same through pivots, regime and signals of the whole pipeline |
| `TradesNoRepaint.TradesCanRepaint` | coinmaster/freqtrade/wave_engine/engine.py:708-713 | a concrete market on any two entry timeframes whose pivots, regime and signals stay and whose closed trades do not |
| `Replay.ReplayTrade` | coinmaster/freqtrade/wave_engine/export_replay.py:236-427 | the exporter's bar loop ends with the exit of its walk specification |
| `Replay.DetailedTradeReplay` | coinmaster/freqtrade/wave_engine/export_replay.py:177-486 | the exporter's loop over signals produces the rows of its specification |
| `Replay.WalksInStep` | coinmaster/freqtrade/wave_engine/export_replay.py:217-427 | bar by bar both simulators end a trade with equal reason, price, time and hits; the events name the targets hit in order; realized figures agree except for the open rest at the end of the data |
| `Replay.SimulatorsAgree` | coinmaster/freqtrade/wave_engine/export_replay.py:186-486 | on the same signals and candles both programs select the same trades in order, with equal entries, exits and levels |
| `WavePipeline.RunResearch` | coinmaster/freqtrade/wave_engine/engine.py:871-876 | one pass of the engine: pivots, snapshots, signals and trades are what the market and the profile tell, the trades stay in the envelope and do not overlap |
| `InfoInvariants.StepKeepsSlots` | coinmaster/src/exchange/hyperliquidInfoClient.ts:156-184 | every step keeps: the slot holders are counted, capped, and a waiting queue means all slots are taken |
| `InfoProtocol.SlotProtocol` | coinmaster/src/exchange/hyperliquidInfoClient.ts:156-184 | in every reachable state of every interleaving the slot count is exact and capped, a queue implies it is full, and a release never clamps at zero |
| `InfoInvariants.StepKeepsSingleFlight` | coinmaster/src/exchange/hyperliquidInfoClient.ts:128-142 | every step keeps at most one unfinished task per payload key |
| `InfoInvariants.StepKeepsBounded` | coinmaster/src/exchange/hyperliquidInfoClient.ts:219-270 | every step keeps each task within `maxRetries + 1` fetches |
| `InfoInvariants.StepKeepsPace` | coinmaster/src/exchange/hyperliquidInfoClient.ts:192-204 | every step keeps the pacing chain and the spacing of granted turns |
| `InfoProtocol.StepKeepsCache` | coinmaster/src/exchange/hyperliquidInfoClient.ts:119-126 | every step keeps the cache in agreement with the latest success of each key |
| `InfoProtocol.LookupIsFreshest` | coinmaster/src/exchange/hyperliquidInfoClient.ts:119-126 | a cache hit is exactly the latest successful response of its key while younger than the time to live |
| `InfoProtocol.PruningIsInvisible` | coinmaster/src/exchange/hyperliquidInfoClient.ts:211-216 | pruning changes no answer, now or at any later time |
| `InfoProtocol.ReachableStatesAreSound` | coinmaster/src/exchange/hyperliquidInfoClient.ts:86-271 | the whole invariant holds in every reachable state |
| `InfoProtocol.RequestProtocol` | coinmaster/src/exchange/hyperliquidInfoClient.ts:115-270 | in every reachable state: single flight, bounded fetches, fresh cache hits, turns `minIntervalMs` apart, and requests = cached + deduped + tasks started |
| `InfoProtocol.RequestIsServed` | coinmaster/src/exchange/hyperliquidInfoClient.ts:115-143 | a request gets the freshest response, a task under way for its key, or a new task, and a new one only when all earlier ones of the key are done |
| `InfoQueue.UrgentGoesNext` | coinmaster/src/exchange/hyperliquidInfoClient.ts:165-184 | an urgent request that has to wait goes before all others and gets the next slot that is released |
| `InfoQueue.NoOvertaking` | coinmaster/src/exchange/hyperliquidInfoClient.ts:165-184 | over any run a task leaves the queue only after every task that waited ahead of it |
| `InfoProtocol.StepUsesWork` | coinmaster/src/exchange/hyperliquidInfoClient.ts:206-270 | every step except requests and the clock uses up work |
| `InfoProtocol.RunUsesWork` | coinmaster/src/exchange/hyperliquidInfoClient.ts:96-270 | in every run the steps that are neither requests nor the clock number at most the work there was plus a fixed amount per started task, and requests start at most one task each |
| `InfoProtocol.EveryTaskCanFinish` | coinmaster/src/exchange/hyperliquidInfoClient.ts:128-270 | from every sound state some run without requests finishes all tasks |
| `InfoProtocol.NoDeadlock` | coinmaster/src/exchange/hyperliquidInfoClient.ts:156-204 | while a task is not done some task can take a step, at the latest when the pacing sleep is over |
| `InfoClient.HyperliquidInfoClient.constructor` | coinmaster/src/exchange/hyperliquidInfoClient.ts:104-113 | the four clamped options and the empty fields form a sound start state |
| `InfoClient.HyperliquidInfoClient.Request` | coinmaster/src/exchange/hyperliquidInfoClient.ts:115-143 | the method updates counters, cache and registry as the request step does and answers accordingly |
| `InfoClient.HyperliquidInfoClient.AcquireSlot` | coinmaster/src/exchange/hyperliquidInfoClient.ts:165-178 | takes a free slot or queues, urgent ones in front |
| `InfoClient.HyperliquidInfoClient.ReleaseSlot` | coinmaster/src/exchange/hyperliquidInfoClient.ts:180-184 | frees the slot and hands it to the head of the queue, keeping the invariant |
| `InfoClient.HyperliquidInfoClient.ReserveUpstreamTurn` | coinmaster/src/exchange/hyperliquidInfoClient.ts:192-204 | joins the pacing chain |
| `InfoClient.HyperliquidInfoClient.TakeTurn` | coinmaster/src/exchange/hyperliquidInfoClient.ts:195-200 | grants the turn and moves the next start, keeping turns apart |
| `InfoClient.HyperliquidInfoClient.AttemptFailed` | coinmaster/src/exchange/hyperliquidInfoClient.ts:231-269 | counts a retry and sleeps, or gives up at the limit |
| `InfoClient.HyperliquidInfoClient.Succeeded` | coinmaster/src/exchange/hyperliquidInfoClient.ts:247-251 | remembers the response and fulfils the task with it |
| `InfoClient.HyperliquidInfoClient.RememberResponse` | coinmaster/src/exchange/hyperliquidInfoClient.ts:206-217 | stores the response and prunes in a loop exactly the expired entries of a large cache |
| `InfoClient.HyperliquidInfoClient.UnregisterTask` | coinmaster/src/exchange/hyperliquidInfoClient.ts:137-141 | removes the registry entry of a settled task |
| `RiskBacktest.SizingRisksTheAmount` | backtest_v1/risk.py:14-24 | the stop distance is positive and distance times quantity is the risk amount |
| `RiskBacktest.CloseKeepsSound` | backtest_v1/engine.py:127-132 | selling part of a position no worse than the initial stop keeps quantity, profit and loss accounted for by its fills |
| `RiskBacktest.TakeTargetKeepsSound` | backtest_v1/engine.py:121-150 | a target fill with its stop move keeps the position sound and never loosens the stop |
| `RiskBacktest.TakeTargetInOrder` | backtest_v1/engine.py:121-150 | when the R multiples of the targets in use do not fall, fills are at targets in use with strictly increasing numbers and pass over none; targets with a fraction of zero are skipped |
| `RiskBacktest.TakeTargetKeepsSafe` | backtest_v1/engine.py:121-150 | when every target in use pays the round trip, no fill banks a loss and after TP1 the stop covers the costs |
| `RiskBacktest.StopExitSound` | backtest_v1/engine.py:99-118 | a stopped trade loses at most the risk amount plus the round trip, and nothing if TP1 filled on an earlier bar and every target in use pays the costs |
| `RiskBacktest.FullExitSound` | backtest_v1/engine.py:152-179 | the same bounds for a reversal, a timeout and a fully taken position |
| `RiskBacktest.StopOnlyRatchets` | backtest_v1/engine.py:94-179 | while a position stays open its stop moves only in its favour |
| `RiskBacktest.HardStopKeepsSound` | backtest_v1/engine.py:65-92 | the daily reset and hard stop keep the book sound |
| `RiskBacktest.EnterKeepsSound` | backtest_v1/engine.py:181-210 | a new position starts within its risk |
| `RiskBacktest.BarKeepsSound` | backtest_v1/engine.py:63-212 | one bar keeps conservation, the loss bounds and the order of targets |
| `RiskBacktest.RunIsSound` | backtest_v1/engine.py:63-212 | after every bar of every run: equity is the initial equity plus recorded profits plus what the open position banked, every record keeps its loss bound, its guarantee after the first target, its ledger and the order of its fills, targets with a fraction of zero included |
| `RiskBacktest.NoLossAfterFirstTarget` | backtest_v1/engine.py:94-179 | a trade that filled TP1 on an earlier bar ends without a loss, outside the hard stop, when the first R multiple is the least and pays the round trip, whatever the fractions are |
| `RiskBacktest.RunConserves` | backtest_v1/engine.py:40-214 | equity is the initial equity plus recorded profits plus what the open position banked after every bar, whatever the bars and the configuration are |
| `RiskBacktest.CurveIsConserved` | backtest_v1/engine.py:40-214 | every point of the equity curve is accounted for to the last coin |
| `RiskBacktest.TargetLoop` | backtest_v1/engine.py:121-150 | the loop over targets with its stop moves equals the target specification |
| `RiskBacktest.WatchTheDay` | backtest_v1/engine.py:63-92 | day change and hard stop as specified |
| `RiskBacktest.ManageOpen` | backtest_v1/engine.py:94-179 | stop, targets, full exit and recording as specified |
| `RiskBacktest.StructureStop` | backtest_v1/engine.py:185-189 | the scan over the lookback returns the lowest low for a long and the highest high for a short |
| `RiskBacktest.TryEnter` | backtest_v1/engine.py:181-210 | the entry with its signed arithmetic opens the specified position, or none |
| `RiskBacktest.RunBacktest` | backtest_v1/engine.py:40-214 | the bar loop returns the trades and curve of the specification, and on sound bars with plausible settings every trade meets its guarantees |
| `Timeline.UpperBound` | coinmaster/src/core/backtestEngine.ts:205-214 | the binary search splits a sorted list at the target |
| `Timeline.ClosedCandlesAtTime` | coinmaster/src/core/backtestEngine.ts:216-220 | the result is exactly the filter "close time at or before the event" |
| `Timeline.Organize` | coinmaster/src/core/backtestEngine.ts:229-234 | candles by timeframe, sorted, a later set replacing an earlier one |
| `Timeline.BuildTimeline` | coinmaster/src/core/backtestEngine.ts:273-288 | the nested loops and the sort build the timeline of the specification |
| `Timeline.TimelineIsExact` | coinmaster/src/core/backtestEngine.ts:264-288 | the timeline is in order and holds exactly the candle closes within the run |
| `Timeline.SameTimeline` | coinmaster/src/core/backtestEngine.ts:264-288 | inputs that agree on the candles closing by `t` have the same events up to `t` |
| `Timeline.SameSight` | coinmaster/src/core/backtestEngine.ts:335-339 | and at each of those events the same candles are visible |
| `CanonicalBacktest.SizeRespectsCaps` | coinmaster/src/core/backtestEngine.ts:119-155 | a size never exceeds the leveraged deposit, the allocation or the gross cap, and a stop-out costs at most the risk share of the deposit |
| `CanonicalBacktest.SellKeepsLedger` | coinmaster/src/core/backtestEngine.ts:306-311 | closing a quantity adds its rounded profit to equity and records and its exact profit to the position, within half a cent |
| `CanonicalBacktest.TickKeepsSound` | coinmaster/src/core/backtestEngine.ts:342-494 | an event with an open position keeps the ledger and the positions sound, whichever exits fire |
| `CanonicalBacktest.LookKeepsSound` | coinmaster/src/core/backtestEngine.ts:496-665 | so does the search for entries, with every rejection and debounce path |
| `CanonicalBacktest.StepKeepsSound` | coinmaster/src/core/backtestEngine.ts:330-666 | every event keeps ledger and positions, only adds to the history, and marks the equity exactly once when it has three candles |
| `CanonicalBacktest.RunIsSound` | coinmaster/src/core/backtestEngine.ts:330-666 | after every event: equity is deposit plus recorded profits, strays from the exact profits by at most half a cent per closing record, at most the newest position is open and an open one has something left |
| `CanonicalBacktest.RunIsManaged` | coinmaster/src/core/backtestEngine.ts:342-494 | after every event of every run: targets never change, the stop is the initial one or at the entry and at the entry once the first target was reached, without emergency exits an open position holds its size less the shares of its targets, a closed one holds nothing |
| `CanonicalBacktest.FirstTargetOversells` | coinmaster/src/core/backtestEngine.ts:372-385 | the first target books the profit of its whole share, and more than leaves the position exactly when the share exceeds what remains |
| `CanonicalBacktest.SellsMoreThanHeld` | coinmaster/src/core/backtestEngine.ts:372-490 | an emergency exit of 80 units and then the first target sell 114 of 100 |
| `CanonicalBacktest.StopComesFirst` | coinmaster/src/core/backtestEngine.ts:351-366 | a position is stopped out exactly when the price has reached its stop, before any target is looked at, and then in full |
| `CanonicalBacktest.EntriesAreSpaced` | coinmaster/src/core/backtestEngine.ts:508-599 | over every run, entries of one kind, timeframe and side are at least one candle length apart |
| `CanonicalBacktest.NoLookAhead` | coinmaster/src/core/backtestEngine.ts:205-666 | two inputs that agree on candles closing by `t` reach the same state after all events up to `t`, and both complete runs extend it |
| `CanonicalBacktest.HistoryIsKept` | coinmaster/src/core/backtestEngine.ts:330-666 | records and curve of an earlier state stay at the front of every later one |
| `CanonicalBacktest.FinishKeepsSound` | coinmaster/src/core/backtestEngine.ts:668-679 | after the force-close every position ever opened is closed and the ledger still holds |
| `CanonicalBacktest.ReportMatchesEquity` | coinmaster/src/core/backtestEngine.ts:681-713 | wins and losses count every position, and the reported profit is the change in equity up to half a cent per closing record and its own rounding |
| `BacktestEngine.Engine.constructor` | coinmaster/src/core/backtestEngine.ts:290-304 | a run starts with the deposit and empty records |
| `BacktestEngine.CloseChunk` | coinmaster/src/core/backtestEngine.ts:306-311 | the position books the exact profit and loses the quantity, the caller gets the rounded profit; `RecordAudit.RunReplays` writes the profit out |
| `BacktestEngine.Engine.StopOut` | coinmaster/src/core/backtestEngine.ts:351-366 | closes the position exactly when the stop is reached, with its record, count and equity mark |
| `BacktestEngine.Engine.TakeTp1` | coinmaster/src/core/backtestEngine.ts:372-385 | the share sold at the first target and the stop moved to the entry, as specified |
| `BacktestEngine.Engine.TakeTp2` | coinmaster/src/core/backtestEngine.ts:387-400 | the share sold at the second target, as specified |
| `BacktestEngine.Engine.TakeTp3` | coinmaster/src/core/backtestEngine.ts:402-419 | the third target sells and closes, as specified |
| `BacktestEngine.Engine.CloseFinished` | coinmaster/src/core/backtestEngine.ts:421-433 | closes exactly the positions whose targets are done; the record carries the quantity left after the sale |
| `BacktestEngine.Engine.CloseOnTime` | coinmaster/src/core/backtestEngine.ts:435-452 | closes exactly the positions that reached no target within the configured bars |
| `BacktestEngine.Engine.CheckEmergency` | coinmaster/src/core/backtestEngine.ts:454-490 | the exit on a reverse signal with its debounce, its quantity and its stop move, as specified |
| `BacktestEngine.Engine.ManageOpen` | coinmaster/src/core/backtestEngine.ts:342-494 | the statements for an open position, in their order, have exactly the effect of the specified tick |
| `BacktestEngine.Engine.OpenPosition` | coinmaster/src/core/backtestEngine.ts:514-563 | the checks of an entry in their order reject or open as specified |
| `BacktestEngine.Engine.SearchEngulfing` | coinmaster/src/core/backtestEngine.ts:497-566 | the engulfing entry with its bias and debounce, as specified |
| `BacktestEngine.Engine.SearchGap` | coinmaster/src/core/backtestEngine.ts:571-662 | one timeframe of the gap search with its rejections, as specified |
| `BacktestEngine.Engine.SearchGaps` | coinmaster/src/core/backtestEngine.ts:568-663 | the loop over gap timeframes stops at the first that opens a position |
| `BacktestEngine.Engine.ProcessEvent` | coinmaster/src/core/backtestEngine.ts:330-666 | one event, seeing only the candles closed by then, has the effect of the specified step |
| `BacktestEngine.Engine.ForceClose` | coinmaster/src/core/backtestEngine.ts:668-679 | the position still open at the end is closed at the last close |
| `BacktestEngine.RunBacktestEngine` | coinmaster/src/core/backtestEngine.ts:224-721 | the engine ends in the specified result, with a sound ledger and no open position; `EventAudit.RunIsTold` tells its events |
| `Indicators.ComputeEma` | coinmaster/src/core/signalQualityContext.ts:30-41 | the loops return the moving average series, without values before the seed; `SeriesAudit.EmaIsTold` writes out its recurrence |
| `Indicators.ComputeAtr` | coinmaster/src/core/signalQualityContext.ts:54-68 | the loops return Wilder's average true range |
| `Indicators.ComputeAdx` | coinmaster/src/core/signalQualityContext.ts:75-132 | the loops return the directional index, whose first value is at `2*period - 1` |
| `Indicators.EmaReflects` | coinmaster/src/core/signalQualityContext.ts:30-41 | reflecting prices `p -> c - p` reflects the moving average |
| `Indicators.AtrReflects` | coinmaster/src/core/signalQualityContext.ts:43-68 | reflection leaves the ATR as it is |
| `Indicators.AdxReflects` | coinmaster/src/core/signalQualityContext.ts:75-132 | reflection leaves the ADX as it is: it swaps the two directional movements |
| `Indicators.EmaBetween` | coinmaster/src/core/signalQualityContext.ts:30-41 | a moving average stays within the range of its values |
| `Indicators.AdxBetween` | coinmaster/src/core/signalQualityContext.ts:75-132 | the ADX is a percentage |
| `SignalQuality.AssessRegime` | coinmaster/src/core/signalQualityContext.ts:155-217 | the regime with its period clamps and data checks as specified |
| `SignalQuality.RegimeMirrors` | coinmaster/src/core/signalQualityContext.ts:155-217 | reflected candles have the opposite regime, with reflected averages and equal ADX and ATR |
| `SignalQuality.EnoughIsStrong` | coinmaster/src/core/signalQualityContext.ts:170-206 | when there is enough data, and exactly when a direction is called |
| `SignalQuality.DisplacementMirrors` | coinmaster/src/core/signalQualityContext.ts:237-258 | a reflected candle for the other side has the same body and verdicts and the complementary close position |
| `SignalQuality.ImpulseMirrors` | coinmaster/src/core/signalQualityContext.ts:264-284 | the same for a three-candle impulse |
| `SignalQuality.ExpectedRewardToRisk` | coinmaster/src/core/signalQualityContext.ts:292-315 | the loop returns the mean positive reward over the risk, and 0 for degenerate plans |
| `SignalQuality.RewardToRiskMirrors` | coinmaster/src/core/signalQualityContext.ts:292-315 | a reflected plan for the other side has the same reward-to-risk |
| `SignalQuality.EvaluateSignalQuality` | coinmaster/src/core/signalQualityContext.ts:372-488 | the gate in its order returns the specified verdict, which `GateAudit.VerdictIsDeserved` tells from the input |
| `SignalQuality.GateMirrors` | coinmaster/src/core/signalQualityContext.ts:372-488 | reflecting all prices and switching the side mirrors the verdict: `ok` is the same and only the two blocking codes change places |
| `SignalQuality.GateIgnoresTheLevel` | coinmaster/src/core/signalQualityContext.ts:372-488 | moving all prices by the same amount changes neither the answer nor its reason |
| `SignalQuality.AcceptedExactly` | coinmaster/src/core/signalQualityContext.ts:372-488 | a signal passes if and only if it is not locked out, there are more than 55 regime candles whose index reaches the minimum, the fast average leads and the slow one does not turn against the side, body and close qualify, and the reward suffices |
| `SignalQuality.BodyImpliesRange` | coinmaster/src/core/signalQualityContext.ts:260-284 | on sound candles a qualifying body implies a range that covers the threshold |
| `SignalQuality.RangeIsNotEnough` | coinmaster/src/core/signalQualityContext.ts:260-284 | at every threshold an impulse covers the range without a body, and the gate rejects every input with it |
| `Scaling.EmaScales` | coinmaster/src/core/signalQualityContext.ts:30-41 | the average of prices in another unit is the average in that unit |
| `Scaling.AtrScales` | coinmaster/src/core/signalQualityContext.ts:43-68 | so is the ATR |
| `Scaling.AdxKeeps` | coinmaster/src/core/signalQualityContext.ts:75-132 | the ADX does not depend on the unit |
| `Scaling.RegimeScales` | coinmaster/src/core/signalQualityContext.ts:155-217 | the regime keeps its direction and strength in every unit |
| `Scaling.DisplacementScales` | coinmaster/src/core/signalQualityContext.ts:237-258 | so do the verdicts on a candle |
| `Scaling.ImpulseScales` | coinmaster/src/core/signalQualityContext.ts:264-284 | and on a three-candle impulse |
| `Scaling.RewardToRiskKeeps` | coinmaster/src/core/signalQualityContext.ts:292-315 | the reward-to-risk does not depend on the unit |
| `Scaling.GateScales` | coinmaster/src/core/signalQualityContext.ts:372-488 | in another unit the whole verdict is the same, with reported prices in that unit |
| `Scaling.GateIsAffine` | coinmaster/src/core/signalQualityContext.ts:372-488 | under every change of prices `a*p + b` with `a` not zero, acceptance and reward-to-risk stay and so does the reason, except that a negative `a`, which also switches the side, exchanges the two blocking codes |
| `Decide.EvaluatedRules` | coinmaster/src/engine/evaluate.ts:18-38 | exactly the enabled rules that accept the source are evaluated |
| `Decide.DecideRules` | coinmaster/src/engine/decide.ts:36-132 | the decision loop with its block and its map returns the specified decisions and cooldown state, one per evaluated rule |
| `Decide.DecisionsAreVerdicts` | coinmaster/src/engine/decide.ts:36-132 | with distinct ids the decisions are exactly the declared verdicts of the rules, in order, fires first |
| `Decide.FiresExactly` | coinmaster/src/engine/decide.ts:67-119 | a rule fires if and only if it is met, not cooling down, and no met rule of tier 300 (200) that is not cooling down outranks a tier below 300 (200) |
| `Decide.CooldownsExactly` | coinmaster/src/engine/decide.ts:107-109 | the new cooldown state is now for the rules that fire and unchanged for all others |
| `Decide.OrderIndependent` | coinmaster/src/engine/decide.ts:36-132 | with distinct ids any order of the input gives the same decisions and cooldown state |
| `Decide.OneDecisionEach` | coinmaster/src/engine/decide.ts:44-131 | every evaluated rule gets exactly one decision, even when ids repeat |
| `Decide.PreemptionHolds` | coinmaster/src/engine/decide.ts:67-119 | a fire of tier 300 (200) or more excludes every fire below 300 (200), even when ids repeat |
| `Decide.ConsiderAllKeepsGaps` | coinmaster/src/engine/decide.ts:83-109 | the loop keeps the cooldown map equal to the latest fire of each rule and every fire its cooldown after the one before |
| `Decide.FiresAreApart` | coinmaster/src/engine/decide.ts:83-109 | over any history two fires of a rule are at least its cooldown apart, with no assumption on the clock |
| `ActionLogs.ActionLog.constructor` | coinmaster/src/engine/actionLog.ts:9-12 | an empty log with its time to live |
| `ActionLogs.ActionLog.Has` | coinmaster/src/engine/actionLog.ts:14-24 | answers as a log that never forgets would, deleting at most the expired entry asked for |
| `ActionLogs.ActionLog.Get` | coinmaster/src/engine/actionLog.ts:26-29 | returns the entry exactly while it is alive |
| `ActionLogs.ActionLog.Set` | coinmaster/src/engine/actionLog.ts:31-33 | stores the entry |
| `ActionLogs.ActionLog.Gc` | coinmaster/src/engine/actionLog.ts:35-41 | the loop deletes exactly the expired entries, which no later question can observe |
| `Act.Execute` | coinmaster/src/engine/act.ts:120-169 | the retry loop calls at most the allowed number of times; successes and failures with a message are logged at their end and reported |
| `Act.ActOnDecisions` | coinmaster/src/engine/act.ts:77-173 | outcomes and log are those of the specification over a log that never deletes |
| `Act.OutcomePerFire` | coinmaster/src/engine/act.ts:88-170 | fires and outcomes correspond one to one, in order, if and only if no execution ends in a failure with an empty message |
| `Act.EveryFireReports` | coinmaster/src/engine/act.ts:88-170 | they correspond whenever no call can fail for good with an empty message, whatever is decided and logged |
| `Act.MessagesSuffice` | coinmaster/src/engine/act.ts:120-169 | that is so when no executor throws an error with an empty message |
| `Act.EmptyMessageVanishes` | coinmaster/src/engine/act.ts:158-169 | a concrete fire that leaves neither an outcome nor a log entry |
| `Act.OutcomesAreFaithful` | coinmaster/src/engine/act.ts:88-170 | each outcome states the truth about its attempts: none when deduplicated or skipped, never more than allowed |
| `Idempotence.ReportsExactly` | coinmaster/src/engine/act.ts:88-170 | fires and outcomes correspond for every list of decisions if and only if no call can fail for good with an empty message |
| `Idempotence.ActOnAllKeepsApart` | coinmaster/src/engine/act.ts:94-169 | a phase keeps the log equal to the reported executions, and each of them waits out the time to live of its key |
| `Idempotence.RememberedExactly` | coinmaster/src/engine/act.ts:94-104 | the log blocks a key exactly when a reported execution of it, or an entry the log started with, is within the time to live |
| `Idempotence.DedupedExactly` | coinmaster/src/engine/act.ts:88-169 | from an empty log a fire is deduplicated if and only if a reported execution of its key ended within the time to live, else skipped without an executor and executed with one |
| `Idempotence.SilentBlocksNothing` | coinmaster/src/engine/act.ts:158-169 | an execution that fails with an empty message changes no blocking |
| `Idempotence.SilentRunsAgain` | coinmaster/src/engine/act.ts:94-169 | after such an execution the next fire of the key is executed in the same run |
| `Idempotence.EmptyMessageExecutesTwice` | coinmaster/src/engine/act.ts:94-169 | a concrete list that executes one key twice at the same time, within a minute of time to live |
| `Idempotence.IdempotentExactly` | coinmaster/src/engine/act.ts:88-169 | from an empty log executions of a key are more than the time to live apart, whatever is decided, if and only if no call can fail for good with an empty message |
| `RuleEngine.DecisionHistory` | coinmaster/src/engine/ruleEngine.ts:64-73 | a decision phase extends the history by its own fires and keeps all cooldowns |
| `RuleEngine.RuleEngine.constructor` | coinmaster/src/engine/ruleEngine.ts:40-54 | a new engine has no fires and no executions |
| `RuleEngine.RuleEngine.SetRules` | coinmaster/src/engine/ruleEngine.ts:56-58 | replaces the rules and keeps cooldowns and log |
| `RuleEngine.RuleEngine.RegisterExecutor` | coinmaster/src/engine/ruleEngine.ts:60-62 | adds an executor |
| `RuleEngine.RuleEngine.DecideOnly` | coinmaster/src/engine/ruleEngine.ts:116-122 | a decision phase on its own, which writes the cooldown state too |
| `RuleEngine.RuleEngine.Run` | coinmaster/src/engine/ruleEngine.ts:64-102 | evaluates, decides and acts as specified and keeps, over all runs, fires a cooldown apart and the log equal to the reported executions, each followed by its time to live; without quiet failures every fire is reported |
| `RuleEngine.RuleEngine.CooldownsHold` | coinmaster/src/engine/ruleEngine.ts:64-102 | any two fires of a rule over any runs are at least its cooldown apart |
| `RuleEngine.RuleEngine.BlocksExactly` | coinmaster/src/engine/ruleEngine.ts:64-102 | over any runs a key is blocked exactly while a reported execution of it, or an entry of the log given to the engine, is within the time to live |
| `RuleEngine.RuleEngine.ExecutionsAreIdempotent` | coinmaster/src/engine/ruleEngine.ts:64-102 | over runs without executions that failed with an empty message, any two executions of a key are more than the time to live apart |
| `TrialRetention.PinnedStay` | coinmaster/src/core/optimizerWorker.ts:343-360 | compaction never drops the best or the candidate trial |
| `TrialRetention.OldestGo` | coinmaster/src/core/optimizerWorker.ts:347-360 | a dropped trial is no newer than any kept one that is not pinned |
| `TrialRetention.CompactFits` | coinmaster/src/core/optimizerWorker.ts:338-363 | after compaction the run keeps at most its cap of trials |
| `TrialRetention.UnrelatedStay` | coinmaster/src/core/optimizerWorker.ts:358-360 | trials of other runs stay, in their order |
| `TrialRetention.BestIsMaximum` | coinmaster/src/core/optimizerWorker.ts:637-643 | the running best is the maximum objective over the completed candidates |
| `TrialRetention.PickIsMaximal` | coinmaster/src/core/experimentGovernance.ts:507-511 | the picked trial is completed, has an objective, and none beats it |
| `TrialRetention.PickMeetsBest` | coinmaster/src/core/optimizerWorker.ts:720-724 | the trial picked among the stored ones has exactly the best objective of the search |
| `TrialRetention.PickIsFirst` | coinmaster/src/core/optimizerWorker.ts:720-724 | the pick is the first stored trial of the run with the best objective |
| `TrialRetention.PickIsKept` | coinmaster/src/core/optimizerWorker.ts:720-724 | the pick is the trial kept as best if and only if no completed trial of the run with its objective is stored in front of it |
| `TrialRetention.TiedSearch` | coinmaster/src/core/optimizerWorker.ts:524-725 | a search over two candidates with equal objectives, after which the first is kept as best and the experiment points at the second |
| `TrialRetention.StoreKeepsIndex` | coinmaster/src/core/optimizerWorker.ts:365-380 | the id list of the run names exactly its stored trials |
| `TrialRetention.FillUp` | coinmaster/src/core/optimizerWorker.ts:353-356 | the loop adds the newest ids until the cap is reached |
| `TrialRetention.Search.constructor` | coinmaster/src/core/optimizerWorker.ts:506-522 | a fresh search over a store that holds trials of other runs only, sampling at least every candidate |
| `TrialRetention.Search.Compact` | coinmaster/src/core/optimizerWorker.ts:338-363 | rows and both id lists after compaction |
| `TrialRetention.Search.Persist` | coinmaster/src/core/optimizerWorker.ts:365-380 | replaces or prepends the row, lists its id and compacts |
| `TrialRetention.Search.Record` | coinmaster/src/core/optimizerWorker.ts:524-672 | one candidate is kept as specified, and keeps: best objective the maximum so far, its trial stored in full, the cap, other runs untouched, the id list exact |
| `TrialRetention.Search.Conclude` | coinmaster/src/core/optimizerWorker.ts:720-725 | the candidate of the experiment is the first stored trial with the best objective, and the kept best exactly when no trial with that objective is stored in front of it |
| `TrialRetention.Search.Run` | coinmaster/src/core/optimizerWorker.ts:524-725 | the same throughout and at the end of a whole search, which keeps what `TrialAudit.SearchIsTold` tells, with the exact condition for its candidate |
| `PivotAudit.PivotsAreTold` | coinmaster/freqtrade/wave_engine/engine.py:236-310 | for every candle after the first: a pivot is confirmed on it if and only if its far end lies the reversal away from the extreme of the leg, with extreme and reversal (a share of the extreme, or the multiple of the mean true range) written out in prices |
| `PivotAudit.HighComesFirst` | coinmaster/freqtrade/wave_engine/engine.py:271-303 | the zigzag always opens with a high |
| `RegimeBreaks.SnapshotsAreDeclared` | coinmaster/freqtrade/wave_engine/engine.py:338-394 | every snapshot, told from the candles and pivots: a candle breaks upwards if and only if its high (its close, on that basis) exceeds the latest high pivot no earlier break met, and no lower low by more; mirrored downwards; and the state that follows |
| `SignalAudit.OfferIsTold` | coinmaster/freqtrade/wave_engine/engine.py:481-569 | what a candle offers, in prices and times written out, and nothing else: the engulfing at the extreme of the lookback in a flat regime, the measured pullback of the impulse in a trend |
| `SignalAudit.SignalsAreTold` | coinmaster/freqtrade/wave_engine/engine.py:455-571 | the signals are exactly the first offers of their contexts under the snapshot in force, one per context, by time and then by timeframe name |
| `TradeAudit.LevelsAreStated` | coinmaster/freqtrade/wave_engine/engine.py:574-591 | stop and targets written out: the stop is the nearer of the buffered impulse start and the cap, the first target is the one signalled when it lies between entry and cap |
| `TradeAudit.WalkEnds` | coinmaster/freqtrade/wave_engine/engine.py:637-712 | the bar on which a trade ends, and why, at which price, with which targets hit, what it earned and its excursions, told from the candles |
| `TradeAudit.TradeIsAudited` | coinmaster/freqtrade/wave_engine/engine.py:623-712 | every trade has the stated levels and ends on the declared bar |
| `TradeAudit.SimulationIsAudited` | coinmaster/freqtrade/wave_engine/engine.py:600-739 | a signal becomes a trade if and only if its candle has a successor and every earlier trade that closed inside the data is out; all trades are audited |
| `ReplayAudit.ReplayEnds` | coinmaster/freqtrade/wave_engine/export_replay.py:217-427 | the exporter's walk ends with events, prices and a printed figure told from the candles |
| `ReplayAudit.RowsAreAudited` | coinmaster/freqtrade/wave_engine/export_replay.py:177-486 | so does every exported row |
| `InfoResults.ResultsAreTold` | coinmaster/src/exchange/hyperliquidInfoClient.ts:219-270 | in every run a task is fulfilled with a value exactly when that value was parsed for it, and rejected exactly when its body could not be read, it was refused for good or it failed once more than there are retries |
| `InfoResults.ResultsLast` | coinmaster/src/exchange/hyperliquidInfoClient.ts:219-270 | a task keeps its key, and its result once it has one |
| `InfoResults.CallerGetsBody` | coinmaster/src/exchange/hyperliquidInfoClient.ts:128-143 | a caller not served from the cache waits for a task of its own key, which delivers exactly the body parsed for it |
| `InfoResults.AnswersAreTold` | coinmaster/src/exchange/hyperliquidInfoClient.ts:115-126 | in every run a hit is the latest body parsed for the key, within the time to live of its arrival |
| `InfoResults.StoreIsTold` | coinmaster/src/exchange/hyperliquidInfoClient.ts:206-217 | what every step does to the stored responses: a body is stored, and beyond 512 responses only those that live on stay |
| `InfoResults.CountersAreTold` | coinmaster/src/exchange/hyperliquidInfoClient.ts:115-270 | the counters of every run are what its events add up to |
| `InfoResults.TurnsAreTimely` | coinmaster/src/exchange/hyperliquidInfoClient.ts:192-204 | a turn is granted from exactly an interval after the last one on |
| `InfoResults.NewcomersWait` | coinmaster/src/exchange/hyperliquidInfoClient.ts:165-178 | a request that starts a task takes a free slot or waits behind all others |
| `TimelineAudit.CandlesAreTold` | coinmaster/src/core/backtestEngine.ts:229-234 | the candles of a timeframe are those of its last set in time order |
| `TimelineAudit.TimelineIsTold` | coinmaster/src/core/backtestEngine.ts:264-288 | the timeline holds exactly the closes within the run, with their prices and the lengths of the timeframes in milliseconds, by time and then by name |
| `TimelineAudit.SightIsTold` | coinmaster/src/core/backtestEngine.ts:335-339 | an event knows of every timeframe exactly the leading candles that are closed by then |
| `RecordAudit.RunReplays` | coinmaster/src/core/backtestEngine.ts:306-311 | over every run the records alone tell what each position holds and has earned; each recorded profit is the exact difference of prices times the quantity, for the side, in whole cents |
| `RecordAudit.ResultReplays` | coinmaster/src/core/backtestEngine.ts:224-721 | so do the records of a complete run |
| `RecordAudit.WinsExactly` | coinmaster/src/core/backtestEngine.ts:681-713 | a position sold at one price wins if and only if that price lies above the entry of a long or below the entry of a short |
| `RecordAudit.ResultWinsExactly` | coinmaster/src/core/backtestEngine.ts:681-713 | so does every position of a complete run |
| `EventAudit.SizeIsTold` | coinmaster/src/core/backtestEngine.ts:119-155 | a size is the largest number of millionths that the notional pays for, the notional written out in percentages, or nothing when a check fails |
| `EventAudit.LevelsAreTold` | coinmaster/src/core/backtestEngine.ts:97-117 | stop and targets are the stated percentages away from the price, rounded to the eighth decimal |
| `EventAudit.AttemptIsTold` | coinmaster/src/core/backtestEngine.ts:514-563 | an attempt to enter is rejected or opens the stated position with its record |
| `EventAudit.TickIsTold` | coinmaster/src/core/backtestEngine.ts:342-494 | what an event does to an open position, told from the price and the rules: which records it appends with which quantities, and what becomes of the position |
| `EventAudit.LookIsTold` | coinmaster/src/core/backtestEngine.ts:496-665 | what an event does without one: which signal is barred, spaced out or tried, in which order |
| `EventAudit.RunIsTold` | coinmaster/src/core/backtestEngine.ts:330-666 | every event of every run does one or the other, on the candles it may see |
| `EventAudit.FinishIsTold` | coinmaster/src/core/backtestEngine.ts:668-679 | the end of a run sells what is open at the last price of the timeline |
| `EventAudit.ReportIsTold` | coinmaster/src/core/backtestEngine.ts:681-713 | the report counts the positions that earned something and rounds what all of them earned |
| `SeriesAudit.EmaIsTold` | coinmaster/src/core/signalQualityContext.ts:30-41 | on the series that `Indicators.ComputeEma` returns: `period` times the first value is the sum of the first `period` values, and `(period+1)*out[i] = 2*values[i] + (period-1)*out[i-1]` from there on |
| `SeriesAudit.AtrIsTold` | coinmaster/src/core/signalQualityContext.ts:43-68 | the same for the ATR: `period` times the value is the true range plus `period-1` times the value before |
| `SeriesAudit.AdxIsTold` | coinmaster/src/core/signalQualityContext.ts:75-132 | the same for the ADX, through the directional movements, their rolling sums and their quotients |
| `GateAudit.RegimeIsTold` | coinmaster/src/core/signalQualityContext.ts:155-217 | the regime reports the averages and the index of those recurrences on the last candle, for the clamped periods, and its direction follows from them |
| `GateAudit.DisplacementIsTold` | coinmaster/src/core/signalQualityContext.ts:237-284 | the scores of the candle or triple, by the inequalities they stand for |
| `GateAudit.RewardIsTold` | coinmaster/src/core/signalQualityContext.ts:292-315 | risk times the number of winning targets times the ratio is the sum of their rewards |
| `GateAudit.VerdictIsDeserved` | coinmaster/src/core/signalQualityContext.ts:372-488 | every verdict and everything it reports is the deserved one, through all checks and their order |
| `RiskAudit.MorningIsTold` | backtest_v1/engine.py:63-92 | the day in seconds, its opening equity, and when the hard stop sells |
| `RiskAudit.TargetIsTold` | backtest_v1/engine.py:121-150 | a touched target sells its fraction or what remains, and moves the stop to the entry plus costs or to 1.2 average ranges behind the close |
| `RiskAudit.ManagedIsTold` | backtest_v1/engine.py:94-179 | stop, three targets, reverse signal, age and dust, each with its price, its profit after costs and its record |
| `RiskAudit.EntryIsTold` | backtest_v1/engine.py:181-210 | an entry at the close, the stop at the buffered and capped distance from the extreme of the last bars, the quantity that risks the share of equity |
| `RiskAudit.RunIsTold` | backtest_v1/engine.py:40-214 | every bar of every run does exactly that, from the initial equity on |
| `DecideAudit.PhaseIsTold` | coinmaster/src/engine/decide.ts:36-132 | from the rules themselves: every rule that takes part gets one decision, whose verdict follows from its conditions, its cooldown and the standing rules of higher tiers; the cooldown state keeps exactly the fires |
| `DecideAudit.OrderIsTold` | coinmaster/src/engine/decide.ts:55-131 | fires first, then higher tiers, then more important sources, then smaller ids |
| `ActAudit.PhaseIsTold` | coinmaster/src/engine/act.ts:88-170 | what every decision does to log, outcomes and executions, told from the log, the allowed number of attempts and the calls |
| `TrialAudit.CompactionIsTold` | coinmaster/src/core/optimizerWorker.ts:338-363 | beyond the limit of at least 25 exactly as many ids survive: the pinned ones, and of the run's others those that are newer, or as new and stored in front |
| `TrialAudit.CandidateIsTold` | coinmaster/src/core/optimizerWorker.ts:524-672 | what the search keeps of a candidate: stored in full when it beats the best, as a sample on every `sampleEvery`-th and the last, and what the store drops for it |
| `TrialAudit.SearchIsTold` | coinmaster/src/core/optimizerWorker.ts:524-672 | so over whole searches, whose best is the first completed candidate that no other beats |

## Left out

- Trades.TradesDoNotOverlap: says nothing about trades after one that ran to the end of the data, because that exit does not move the next available time.
- Replay.WalksInStep: the realized figure of a trade that ran to the end of the data agrees only up to its open rest, which the exporter does not add.
- RiskBacktest.RunIsSound: is stated for bars with `0 < low <= close <= high`, fees and R multiples of at least zero; the loss bound and the no-loss guarantee exclude exits of the daily hard stop, which sell at any close. Conservation needs none of this.
- CanonicalBacktest.RunIsManaged: accounts for quantities only without emergency exits; after one the first target can sell more than is held, as `CanonicalBacktest.FirstTargetOversells` says exactly.
- CanonicalBacktest.NoLookAhead: asks both inputs to bring the same timeframes in the same order; the evaluators are arbitrary pure functions of the candles they are shown.
- Idempotence.ActOnAllKeepsApart: needs a time to live of at least zero and calls that end no earlier than the time of their run.
- RuleEngine.RuleEngine.Run: covers runs that follow one another on a clock that does not go back; overlapping runs can execute a key twice, since the check and the log entry are separated by awaits.
- TrialRetention.Search.Run: covers a fresh search with fresh trial ids and no earlier trials of its own; a resumed search inherits whatever was stored.
- InfoClient.HyperliquidInfoClient.Request: the methods are the steps between awaits; that the runtime orders them in one of the modelled interleavings is taken from the event loop.
- Rounding of the wave engine's reported figures, and floating-point error everywhere; the explicit rounding of the canonical backtest to cents, lots and ticks is modelled.
- NaN and infinite numbers, except that an indicator value that needs more data is `None`; fractional or NaN configuration values.
- Which response statuses the request coordinator retries and how long its backoff sleeps; both are arbitrary in the model.
- Network, timers, databases, logging, process handling, JSON and CSV export, and the text of markers, reasons and errors.
- Identifiers: positions are named by their place, rules by their rank in locale order, timeframe names by the rank of their names; equal ids from the id generator and distinct ids that compare equal are not modelled.
- The rendering of idempotency keys and of payload keys; both are arbitrary functions.
- Simulated positions of the canonical backtest are values in a sequence of the engine, not shared objects; the risk backtest, the wave engine and the trade simulators keep their state in local variables as the source does.
- The risk backtest's signals are sides or nothing instead of the integers 1, -1 and 0; days are whole days of UTC timestamps.
- `evaluateTimeframe` and `evaluateFvg`, the maximum drawdown and the percentages of the canonical report.
- Metrics, matrix search and profile parsing of the wave engine; candidate generation, window evaluation and early pruning of the optimizer, of which only the result per candidate is modelled; champion acceptance and promotion; audit entries of the rule engine.
- `backtest_v1/signals.py`, Alpha Radar scoring, feeds, connectors and order placement: heuristics and plumbing.
