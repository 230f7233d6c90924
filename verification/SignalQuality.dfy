/** The signal-quality gate: regime, displacement and reward-to-risk checks, and their mirror symmetry. */
module SignalQuality {
  import opened Prelude
  import opened Candles
  import opened Indicators

  // ---- regime ----

  datatype Direction = Up | Down | Neutral

  datatype Regime = Regime(
    direction: Direction,
    fast: Option<real>,
    slow: Option<real>,
    slope: Option<real>,
    adx: Option<real>,
    atr: Option<real>,
    enough: bool)

  const NO_REGIME := Regime(Neutral, None, None, None, None, None, false)

  datatype Periods = Periods(fast: int, slow: int, adx: int)

  function AtLeast(floor: int, v: int): int { if v >= floor then v else floor }

  function Clamped(p: Periods): Periods {
    var fast := AtLeast(2, p.fast);
    Periods(fast, AtLeast(fast + 1, p.slow), AtLeast(2, p.adx))
  }

  function Closes(candles: seq<Candle>): seq<real> {
    seq(|candles|, i requires 0 <= i < |candles| => candles[i].close)
  }

  /** The direction that the averages and the slope call, given enough strength. */
  function Call(fast: real, slow: real, slope: real, adx: real, adxMin: real): Direction {
    if adx < adxMin then Neutral
    else if fast > slow && slope >= 0.0 then Up
    else if fast < slow && slope <= 0.0 then Down
    else Neutral
  }

  /** The change of the slow average; without an earlier value it counts as flat. */
  function SlopeOf(slow: Option<real>, slowPrev: Option<real>): Option<real> {
    if slowPrev == None then Some(0.0) else if slow == None then None else Some(slow.value - slowPrev.value)
  }

  function Read(fast: Option<real>, slow: Option<real>, slowPrev: Option<real>, adx: Option<real>, atr: Option<real>,
                adxMin: real): Regime {
    var slope := SlopeOf(slow, slowPrev);
    if fast == None || slow == None || adx == None || slope == None then
      Regime(Neutral, fast, slow, slope, adx, atr, false)
    else Regime(Call(fast.value, slow.value, slope.value, adx.value, adxMin), fast, slow, slope, adx, atr, true)
  }

  function RegimeOf(candles: seq<Candle>, periods: Periods, adxMin: real): Regime {
    var p, last := Clamped(periods), |candles| - 1;
    if last < p.slow || last < p.adx * 2 - 1 then NO_REGIME
    else
      ReadAt(candles, p, last, adxMin)
  }

  function ReadAt(candles: seq<Candle>, p: Periods, last: nat, adxMin: real): Regime
    requires last < |candles|
  {
    var closes := Closes(candles);
    Read(EmaOr(closes, p.fast, last), EmaOr(closes, p.slow, last),
         EmaOr(closes, p.slow, if last >= 3 then last - 3 else 0),
         AdxOr(candles, p.adx, last), AtrOr(candles, p.adx, last), adxMin)
  }

  method AssessRegime(candles: seq<Candle>, periods: Periods, adxMin: real) returns (r: Regime)
    ensures r == RegimeOf(candles, periods, adxMin)
  {
    var p := Clamped(periods);
    var closes := Closes(candles);
    var emaFast := ComputeEma(closes, p.fast);
    var emaSlow := ComputeEma(closes, p.slow);
    var adx := ComputeAdx(candles, p.adx);
    var atr := ComputeAtr(candles, p.adx);
    var last := |candles| - 1;
    if last < p.slow || last < p.adx * 2 - 1 {
      return NO_REGIME;
    }
    r := Read(emaFast[last], emaSlow[last], emaSlow[if last >= 3 then last - 3 else 0], adx[last], atr[last], adxMin);
  }

  // ---- displacement ----

  datatype Displacement = Displacement(
    body: real,
    range: real,
    bodyAtrRatio: real,
    closePosition: real,
    meetsBody: bool,
    meetsClose: bool)

  function SafeAtr(atr: Option<real>): (a: real)
    ensures a >= 0.0
  {
    if atr.Some? && atr.value > 0.0 then atr.value else 0.0
  }

  function Ratio(part: real, whole: real): real
    requires whole != 0.0
  {
    part / whole
  }

  function BodyRatio(body: real, atr: Option<real>): real {
    if SafeAtr(atr) > 0.0 then Ratio(body, SafeAtr(atr)) else 0.0
  }

  predicate MeetsBody(body: real, atr: Option<real>, minImpulseAtr: real) {
    SafeAtr(atr) > 0.0 ==> BodyRatio(body, atr) >= Max(0.0, minImpulseAtr)
  }

  function ClosePosition(close: real, low: real, range: real): real {
    if range > 0.0 then Ratio(close - low, range) else 0.5
  }

  function DisplacementOf(k: Candle, atr: Option<real>, side: Side, minImpulseAtr: real,
                          requireQuartile: bool): Displacement {
    var body, range := Abs(k.close - k.open), Max(0.0, k.high - k.low);
    var position := ClosePosition(k.close, k.low, range);
    Displacement(body, range, BodyRatio(body, atr), position, MeetsBody(body, atr, minImpulseAtr),
                 !requireQuartile || if side == Long then position >= 0.75 else position <= 0.25)
  }

  function Highest(t: Triple): real { Max(t.c0.high, Max(t.c1.high, t.c2.high)) }

  function Lowest(t: Triple): real { Min(t.c0.low, Min(t.c1.low, t.c2.low)) }

  function ImpulseOf(t: Triple, atr: Option<real>, side: Side, minImpulseAtr: real): Displacement {
    var body, range := Abs(t.c2.close - t.c0.open), Highest(t) - Lowest(t);
    var position := ClosePosition(t.c2.close, Lowest(t), range);
    Displacement(body, range, BodyRatio(body, atr), position, MeetsBody(body, atr, minImpulseAtr),
                 if side == Long then position >= 0.6 else position <= 0.4)
  }

  // ---- reward to risk ----

  /** The distance from `from` to `to` in the direction of the side. */
  function Distance(side: Side, from: real, to: real): real {
    if side == Long then to - from else from - to
  }

  datatype Rewards = Rewards(sum: real, count: nat)

  function RewardsOf(entry: real, targets: seq<real>, side: Side, n: nat): Rewards
    requires n <= |targets|
  {
    if n == 0 then Rewards(0.0, 0)
    else
      var r, reward := RewardsOf(entry, targets, side, n - 1), Distance(side, entry, targets[n - 1]);
      if reward <= 0.0 then r else Rewards(r.sum + reward, r.count + 1)
  }

  function RewardToRisk(entry: real, stop: real, targets: seq<real>, side: Side): real {
    var risk, r := Distance(side, stop, entry), RewardsOf(entry, targets, side, |targets|);
    if risk <= 0.0 || r.count == 0 then 0.0 else Ratio(Ratio(r.sum, r.count as real), risk)
  }

  method ExpectedRewardToRisk(entry: real, stop: real, targets: seq<real>, side: Side) returns (rr: real)
    ensures rr == RewardToRisk(entry, stop, targets, side)
  {
    var risk := if side == Long then entry - stop else stop - entry;
    if risk <= 0.0 || |targets| == 0 {
      return 0.0;
    }
    var rewardSum, count: nat := 0.0, 0;
    for i := 0 to |targets|
      invariant Rewards(rewardSum, count) == RewardsOf(entry, targets, side, i)
    {
      var reward := if side == Long then targets[i] - entry else entry - targets[i];
      if reward <= 0.0 {
        continue;
      }
      rewardSum, count := rewardSum + reward, count + 1;
    }
    if count == 0 {
      return 0.0;
    }
    rr := Ratio(Ratio(rewardSum, count as real), risk);
  }

  // ---- the gate ----

  datatype Code =
    | EventLockout | RegimeDataInsufficient | AdxBelowMin | RegimeNeutral | RegimeBlocksLong | RegimeBlocksShort
    | BodyBelowAtr | CloseOutsideQuartile | RrBelowMin

  datatype Thresholds = Thresholds(adxMin: real, minImpulseAtr: real, minExpectedRr: Option<real>,
                                   requireQuartile: Option<bool>)

  datatype Input = Input(
    side: Side,
    regimeCandles: seq<Candle>,
    entryCandles: seq<Candle>,
    triple: Option<Triple>,
    entry: real,
    stop: real,
    targets: seq<real>,
    thresholds: Thresholds,
    locked: bool)

  datatype Verdict = Verdict(ok: bool, code: Option<Code>, regime: Option<Regime>, displacement: Option<Displacement>,
                             rr: Option<real>)

  const DEFAULTS := Periods(21, 55, 14)

  function Wanted(side: Side): Direction {
    if side == Long then Up else Down
  }

  function RejectRegime(r: Regime, side: Side, adxMin: real): Option<Code> {
    if !r.enough then Some(RegimeDataInsufficient)
    else if r.adx.Some? && r.adx.value < adxMin then Some(AdxBelowMin)
    else if r.direction == Neutral then Some(RegimeNeutral)
    else if r.direction != Wanted(side) then Some(if side == Long then RegimeBlocksLong else RegimeBlocksShort)
    else None
  }

  function Displaced(input: Input): Option<Displacement> {
    var n, t := |input.entryCandles|, input.thresholds;
    var atr := if n == 0 then None else AtrOr(input.entryCandles, 14, n - 1);
    if input.triple.Some? then Some(ImpulseOf(input.triple.value, atr, input.side, t.minImpulseAtr))
    else if n >= 1 then
      Some(DisplacementOf(input.entryCandles[n - 1], atr, input.side, t.minImpulseAtr,
                          t.requireQuartile != Some(false)))
    else None
  }

  /** The later checks, once the regime agrees with the side. */
  function JudgeEntry(r: Regime, d: Option<Displacement>, rr: real, minRr: Option<real>): Verdict {
    if d.Some? && !d.value.meetsBody then Verdict(false, Some(BodyBelowAtr), Some(r), d, None)
    else if d.Some? && !d.value.meetsClose then Verdict(false, Some(CloseOutsideQuartile), Some(r), d, None)
    else if minRr.Some? && minRr.value > 0.0 && rr < minRr.value then
      Verdict(false, Some(RrBelowMin), Some(r), d, Some(rr))
    else Verdict(true, None, Some(r), d, Some(rr))
  }

  function VerdictOf(input: Input): Verdict {
    if input.locked then Verdict(false, Some(EventLockout), None, None, None)
    else
      var r := RegimeOf(input.regimeCandles, DEFAULTS, input.thresholds.adxMin);
      var code := RejectRegime(r, input.side, input.thresholds.adxMin);
      if code.Some? then Verdict(false, code, Some(r), None, None)
      else
        JudgeEntry(r, Displaced(input), RewardToRisk(input.entry, input.stop, input.targets, input.side),
                   input.thresholds.minExpectedRr)
  }

  /** The whole gate, in its order; the first failing check decides. */
  method EvaluateSignalQuality(input: Input) returns (v: Verdict)
    ensures v == VerdictOf(input)
  {
    if input.locked {
      return Verdict(false, Some(EventLockout), None, None, None);
    }
    var t := input.thresholds;
    var regime := AssessRegime(input.regimeCandles, DEFAULTS, t.adxMin);
    if !regime.enough {
      return Verdict(false, Some(RegimeDataInsufficient), Some(regime), None, None);
    }
    if regime.adx.Some? && regime.adx.value < t.adxMin {
      return Verdict(false, Some(AdxBelowMin), Some(regime), None, None);
    }
    if regime.direction == Neutral {
      return Verdict(false, Some(RegimeNeutral), Some(regime), None, None);
    }
    if input.side == Long && regime.direction != Up {
      return Verdict(false, Some(RegimeBlocksLong), Some(regime), None, None);
    }
    if input.side == Short && regime.direction != Down {
      return Verdict(false, Some(RegimeBlocksShort), Some(regime), None, None);
    }
    var displacement := Displace(input);
    if displacement.Some? && !displacement.value.meetsBody {
      return Verdict(false, Some(BodyBelowAtr), Some(regime), displacement, None);
    }
    if displacement.Some? && !displacement.value.meetsClose {
      return Verdict(false, Some(CloseOutsideQuartile), Some(regime), displacement, None);
    }
    var rr := ExpectedRewardToRisk(input.entry, input.stop, input.targets, input.side);
    if t.minExpectedRr.Some? && t.minExpectedRr.value > 0.0 && rr < t.minExpectedRr.value {
      return Verdict(false, Some(RrBelowMin), Some(regime), displacement, Some(rr));
    }
    v := Verdict(true, None, Some(regime), displacement, Some(rr));
  }

  method Displace(input: Input) returns (d: Option<Displacement>)
    ensures d == Displaced(input)
  {
    var n, t := |input.entryCandles|, input.thresholds;
    var series := ComputeAtr(input.entryCandles, 14);
    var atr := if n == 0 then None else series[n - 1];
    if input.triple.Some? {
      d := Some(ImpulseOf(input.triple.value, atr, input.side, t.minImpulseAtr));
    } else if n >= 1 {
      d := Some(DisplacementOf(input.entryCandles[n - 1], atr, input.side, t.minImpulseAtr,
                               t.requireQuartile != Some(false)));
    } else {
      d := None;
    }
  }

  // ---- the mirror ----

  function Flip(d: Direction): Direction {
    match d case Up => Down case Down => Up case Neutral => Neutral
  }

  function ReflectOption(v: Option<real>, c: real): Option<real> {
    match v case None => None case Some(x) => Some(c - x)
  }

  function MirrorRegime(r: Regime, c: real): Regime {
    Regime(Flip(r.direction), ReflectOption(r.fast, c), ReflectOption(r.slow, c), ReflectOption(r.slope, 0.0), r.adx,
           r.atr, r.enough)
  }

  function MirrorDisplacement(d: Displacement): Displacement {
    d.(closePosition := 1.0 - d.closePosition)
  }

  function MirrorTriple(t: Triple, c: real): Triple {
    Triple(Reflect(t.c0, c), Reflect(t.c1, c), Reflect(t.c2, c))
  }

  /** The same situation with every price `p` replaced by `c - p`, for the other side. */
  function MirrorInput(input: Input, c: real): Input {
    input.(side := Opposite(input.side),
           regimeCandles := ReflectAll(input.regimeCandles, c),
           entryCandles := ReflectAll(input.entryCandles, c),
           triple := if input.triple.Some? then Some(MirrorTriple(input.triple.value, c)) else None,
           entry := c - input.entry,
           stop := c - input.stop,
           targets := ReflectValues(input.targets, c))
  }

  function MirrorCode(code: Option<Code>): Option<Code> {
    match code
    case Some(RegimeBlocksLong) => Some(RegimeBlocksShort)
    case Some(RegimeBlocksShort) => Some(RegimeBlocksLong)
    case _ => code
  }

  function MirrorVerdict(v: Verdict, c: real): Verdict {
    Verdict(v.ok, MirrorCode(v.code),
            if v.regime.Some? then Some(MirrorRegime(v.regime.value, c)) else None,
            if v.displacement.Some? then Some(MirrorDisplacement(v.displacement.value)) else None,
            v.rr)
  }

  lemma ClosesReflect(candles: seq<Candle>, c: real)
    ensures Closes(ReflectAll(candles, c)) == ReflectValues(Closes(candles), c)
  {
  }

  lemma EmaOrReflects(candles: seq<Candle>, period: int, i: nat, c: real)
    requires i < |candles|
    ensures |ReflectAll(candles, c)| == |candles|
    ensures EmaOr(Closes(ReflectAll(candles, c)), period, i) == ReflectOption(EmaOr(Closes(candles), period, i), c)
  {
    ClosesReflect(candles, c);
    if 0 < period <= i + 1 {
      EmaReflects(Closes(candles), period, i, c);
    }
  }

  lemma SlopeMirrors(slow: Option<real>, slowPrev: Option<real>, c: real)
    ensures SlopeOf(ReflectOption(slow, c), ReflectOption(slowPrev, c)) == ReflectOption(SlopeOf(slow, slowPrev), 0.0)
  {
  }

  lemma ReadMirrors(fast: Option<real>, slow: Option<real>, slowPrev: Option<real>, adx: Option<real>,
                    atr: Option<real>, adxMin: real, c: real)
    ensures Read(ReflectOption(fast, c), ReflectOption(slow, c), ReflectOption(slowPrev, c), adx, atr, adxMin)
         == MirrorRegime(Read(fast, slow, slowPrev, adx, atr, adxMin), c)
  {
    hide Call, SlopeOf, Flip, ReflectOption;
    SlopeMirrors(slow, slowPrev, c);
    NeutralFlips();
    ReflectIs(fast, c);
    ReflectIs(slow, c);
    ReflectIs(SlopeOf(slow, slowPrev), 0.0);
    var slope := SlopeOf(slow, slowPrev);
    if fast.Some? && slow.Some? && adx.Some? && slope.Some? {
      CallMirrors(fast.value, slow.value, slope.value, adx.value, adxMin, c);
    }
  }

  lemma ReflectIs(v: Option<real>, c: real)
    ensures ReflectOption(v, c) == if v == None then None else Some(c - v.value)
  {
  }

  lemma NeutralFlips()
    ensures Flip(Neutral) == Neutral
  {
  }

  lemma CallMirrors(fast: real, slow: real, slope: real, adx: real, adxMin: real, c: real)
    ensures Call(c - fast, c - slow, 0.0 - slope, adx, adxMin) == Flip(Call(fast, slow, slope, adx, adxMin))
  {
  }

  /** The regime of reflected candles is the mirrored regime. */
  lemma RegimeMirrors(candles: seq<Candle>, periods: Periods, adxMin: real, c: real)
    ensures RegimeOf(ReflectAll(candles, c), periods, adxMin) == MirrorRegime(RegimeOf(candles, periods, adxMin), c)
  {
    ReflectLength(candles, c);
    var p, last := Clamped(periods), |candles| - 1;
    hide ReflectAll, ReadAt;
    if last >= p.slow && last >= p.adx * 2 - 1 && last >= 0 {
      ReadAtMirrors(candles, p, last, adxMin, c);
    }
  }

  lemma ReadAtMirrors(candles: seq<Candle>, p: Periods, last: nat, adxMin: real, c: real)
    requires last < |candles|
    ensures |ReflectAll(candles, c)| == |candles|
    ensures ReadAt(ReflectAll(candles, c), p, last, adxMin) == MirrorRegime(ReadAt(candles, p, last, adxMin), c)
  {
    hide ReflectAll, EmaOr, AdxOr, AtrOr, Closes, Read, MirrorRegime, ReflectOption;
    ReflectLength(candles, c);
    ClosesLength(candles);
    ClosesLength(ReflectAll(candles, c));
    var before := if last >= 3 then last - 3 else 0;
    EmaOrReflects(candles, p.fast, last, c);
    EmaOrReflects(candles, p.slow, last, c);
    EmaOrReflects(candles, p.slow, before, c);
    SeriesReflect(candles, p.adx, last, c);
    ReadMirrors(EmaOr(Closes(candles), p.fast, last), EmaOr(Closes(candles), p.slow, last),
                EmaOr(Closes(candles), p.slow, before),
                AdxOr(candles, p.adx, last), AtrOr(candles, p.adx, last), adxMin, c);
  }

  lemma ClosesLength(candles: seq<Candle>)
    ensures |Closes(candles)| == |candles|
  {
  }

  /** Seen from the other end, a position in a range is its complement. */
  lemma PositionMirrors(close: real, low: real, high: real, range: real, c: real)
    requires range > 0.0 ==> range == high - low
    ensures ClosePosition(c - close, c - high, range) == 1.0 - ClosePosition(close, low, range)
  {
    if range > 0.0 {
      RatiosAdd(high - close, close - low, range);
      assert (c - close) - (c - high) == high - close;
    }
  }

  lemma RatiosAdd(a: real, b: real, whole: real)
    requires whole > 0.0 && a + b == whole
    ensures Ratio(a, whole) + Ratio(b, whole) == 1.0
  {
    assert a / whole + b / whole == (a + b) / whole;
  }

  lemma DisplacementMirrors(k: Candle, atr: Option<real>, side: Side, minImpulseAtr: real, requireQuartile: bool,
                            c: real)
    ensures DisplacementOf(Reflect(k, c), atr, Opposite(side), minImpulseAtr, requireQuartile)
         == MirrorDisplacement(DisplacementOf(k, atr, side, minImpulseAtr, requireQuartile))
  {
    PositionMirrors(k.close, k.low, k.high, Max(0.0, k.high - k.low), c);
    hide BodyRatio, MeetsBody, ClosePosition;
  }

  lemma ImpulseMirrors(t: Triple, atr: Option<real>, side: Side, minImpulseAtr: real, c: real)
    ensures ImpulseOf(MirrorTriple(t, c), atr, Opposite(side), minImpulseAtr)
         == MirrorDisplacement(ImpulseOf(t, atr, side, minImpulseAtr))
  {
    assert Highest(MirrorTriple(t, c)) == c - Lowest(t) && Lowest(MirrorTriple(t, c)) == c - Highest(t);
    PositionMirrors(t.c2.close, Lowest(t), Highest(t), Highest(t) - Lowest(t), c);
    hide BodyRatio, MeetsBody, ClosePosition, Highest, Lowest;
  }

  lemma {:induction false} RewardsMirror(entry: real, targets: seq<real>, side: Side, n: nat, c: real)
    requires n <= |targets|
    ensures RewardsOf(c - entry, ReflectValues(targets, c), Opposite(side), n) == RewardsOf(entry, targets, side, n)
  {
    if n > 0 {
      RewardsMirror(entry, targets, side, n - 1, c);
    }
  }

  lemma RewardToRiskMirrors(entry: real, stop: real, targets: seq<real>, side: Side, c: real)
    ensures RewardToRisk(c - entry, c - stop, ReflectValues(targets, c), Opposite(side))
         == RewardToRisk(entry, stop, targets, side)
  {
    RewardsMirror(entry, targets, side, |targets|, c);
    hide Ratio, RewardsOf;
  }

  lemma DisplacedMirrors(input: Input, c: real)
    ensures Displaced(MirrorInput(input, c)) ==
      if Displaced(input).Some? then Some(MirrorDisplacement(Displaced(input).value)) else None
  {
    var n, t := |input.entryCandles|, input.thresholds;
    if n > 0 {
      SeriesReflect(input.entryCandles, 14, n - 1, c);
    }
    var atr := if n == 0 then None else AtrOr(input.entryCandles, 14, n - 1);
    if input.triple.Some? {
      ImpulseMirrors(input.triple.value, atr, input.side, t.minImpulseAtr, c);
    } else if n >= 1 {
      DisplacementMirrors(input.entryCandles[n - 1], atr, input.side, t.minImpulseAtr,
                          t.requireQuartile != Some(false), c);
    }
    hide AtrOr, ImpulseOf, DisplacementOf;
  }

  lemma RejectMirrors(r: Regime, side: Side, adxMin: real, c: real)
    ensures RejectRegime(MirrorRegime(r, c), Opposite(side), adxMin) == MirrorCode(RejectRegime(r, side, adxMin))
  {
  }

  /**
   The gate treats longs and shorts alike. Reflecting every price and switching
   the side gives the mirrored verdict: the same `ok`, the same code except that
   the two blocking codes change places, the opposite regime direction, reflected
   averages, equal ADX, ATR and reward-to-risk, and the complementary close position.
   */
  lemma GateMirrors(input: Input, c: real)
    ensures VerdictOf(MirrorInput(input, c)) == MirrorVerdict(VerdictOf(input), c)
  {
    var adxMin := input.thresholds.adxMin;
    RegimeMirrors(input.regimeCandles, DEFAULTS, adxMin, c);
    RejectMirrors(RegimeOf(input.regimeCandles, DEFAULTS, adxMin), input.side, adxMin, c);
    DisplacedMirrors(input, c);
    RewardToRiskMirrors(input.entry, input.stop, input.targets, input.side, c);
    hide RegimeOf, RejectRegime, Displaced, RewardToRisk, MirrorRegime, ReflectAll, ReflectValues, MirrorTriple;
  }

  // ---- shifting all prices ----

  function ShiftCandle(k: Candle, delta: real): Candle {
    Candle(k.ts, k.open + delta, k.high + delta, k.low + delta, k.close + delta)
  }

  function ShiftAll(candles: seq<Candle>, delta: real): seq<Candle> {
    seq(|candles|, i requires 0 <= i < |candles| => ShiftCandle(candles[i], delta))
  }

  function ShiftTriple(t: Triple, delta: real): Triple {
    Triple(ShiftCandle(t.c0, delta), ShiftCandle(t.c1, delta), ShiftCandle(t.c2, delta))
  }

  /** The same situation with every price moved by the same amount. */
  function ShiftInput(input: Input, delta: real): Input {
    input.(regimeCandles := ShiftAll(input.regimeCandles, delta),
           entryCandles := ShiftAll(input.entryCandles, delta),
           triple := if input.triple.Some? then Some(ShiftTriple(input.triple.value, delta)) else None,
           entry := input.entry + delta,
           stop := input.stop + delta,
           targets := seq(|input.targets|, i requires 0 <= i < |input.targets| => input.targets[i] + delta))
  }

  lemma ReflectTwice(candles: seq<Candle>, delta: real)
    ensures ReflectAll(ReflectAll(candles, 0.0), delta) == ShiftAll(candles, delta)
  {
  }

  lemma TripleTwice(t: Triple, delta: real)
    ensures MirrorTriple(MirrorTriple(t, 0.0), delta) == ShiftTriple(t, delta)
  {
  }

  /** Reflecting twice is a shift. */
  lemma ShiftIsTwoMirrors(input: Input, delta: real)
    ensures ShiftInput(input, delta) == MirrorInput(MirrorInput(input, 0.0), delta)
  {
    ReflectTwice(input.regimeCandles, delta);
    ReflectTwice(input.entryCandles, delta);
    if input.triple.Some? {
      TripleTwice(input.triple.value, delta);
    }
    assert ReflectValues(ReflectValues(input.targets, 0.0), delta) == ShiftInput(input, delta).targets;
    hide ReflectAll, ShiftAll, ReflectValues, MirrorTriple, ShiftTriple;
  }

  lemma MirrorsCancel(v: Verdict, delta: real)
    ensures var w := MirrorVerdict(MirrorVerdict(v, 0.0), delta);
      w.ok == v.ok && w.code == v.code && w.rr == v.rr && w.displacement == v.displacement
  {
  }

  /** The gate gives the same answer, for the same reason, when all prices move together. */
  lemma GateIgnoresTheLevel(input: Input, delta: real)
    ensures VerdictOf(ShiftInput(input, delta)).ok == VerdictOf(input).ok
    ensures VerdictOf(ShiftInput(input, delta)).code == VerdictOf(input).code
    ensures VerdictOf(ShiftInput(input, delta)).rr == VerdictOf(input).rr
    ensures VerdictOf(ShiftInput(input, delta)).displacement == VerdictOf(input).displacement
  {
    hide VerdictOf, MirrorInput, ShiftInput, MirrorVerdict;
    ShiftIsTwoMirrors(input, delta);
    GateMirrors(input, 0.0);
    GateMirrors(MirrorInput(input, 0.0), delta);
    MirrorsCancel(VerdictOf(input), delta);
  }

  // ---- what acceptance means ----

  /** The averages and the index of the last regime candle favour the side. */
  predicate Favours(candles: seq<Candle>, side: Side, adxMin: real)
    requires |candles| > 55
  {
    var closes, last := Closes(candles), |candles| - 1;
    && Adx(candles, 14, last) >= adxMin
    && Distance(side, Ema(closes, 55, last), Ema(closes, 21, last)) > 0.0
    && (last >= 57 ==> Distance(side, Ema(closes, 55, last - 3), Ema(closes, 55, last)) >= 0.0)
  }

  lemma FavoursExactly(candles: seq<Candle>, side: Side, adxMin: real)
    ensures var r := RegimeOf(candles, DEFAULTS, adxMin);
      r.enough && r.direction == Wanted(side) <==> |candles| > 55 && Favours(candles, side, adxMin)
  {
    hide Ema, Adx, Atr;
  }

  /**
   A signal passes exactly outside a lockout, with more than 55 regime candles whose
   index reaches the minimum, whose fast average leads and whose slow average does not
   turn against the side, with a qualifying body and close and with enough reward.
   */
  lemma AcceptedExactly(input: Input)
    ensures VerdictOf(input).ok <==>
      && !input.locked
      && |input.regimeCandles| > 55 && Favours(input.regimeCandles, input.side, input.thresholds.adxMin)
      && (Displaced(input).Some? ==> Displaced(input).value.meetsBody && Displaced(input).value.meetsClose)
      && (input.thresholds.minExpectedRr.Some? && input.thresholds.minExpectedRr.value > 0.0 ==>
            RewardToRisk(input.entry, input.stop, input.targets, input.side) >= input.thresholds.minExpectedRr.value)
  {
    EnoughIsStrong(input.regimeCandles, DEFAULTS, input.thresholds.adxMin);
    FavoursExactly(input.regimeCandles, input.side, input.thresholds.adxMin);
    hide RegimeOf, Displaced, RewardToRisk, Favours;
  }

  // ---- body and range of an impulse ----

  predicate WellFormedTriple(t: Triple) {
    WellFormed(t.c0) && WellFormed(t.c1) && WellFormed(t.c2)
  }

  lemma RatioOrders(a: real, b: real, whole: real)
    requires whole > 0.0 && a <= b
    ensures Ratio(a, whole) <= Ratio(b, whole)
  {
    assert Ratio(a, whole) * whole == a && Ratio(b, whole) * whole == b;
  }

  /** On sound candles an impulse whose body qualifies has a range that does. */
  lemma BodyImpliesRange(t: Triple, atr: real, side: Side, minImpulseAtr: real)
    requires WellFormedTriple(t) && atr > 0.0
    ensures var d := ImpulseOf(t, Some(atr), side, minImpulseAtr);
      d.meetsBody ==> Ratio(d.range, atr) >= Max(0.0, minImpulseAtr)
  {
    var d := ImpulseOf(t, Some(atr), side, minImpulseAtr);
    RatioOrders(d.body, d.range, atr);
  }

  function EntryAtr(input: Input): Option<real> {
    if input.entryCandles == [] then None else AtrOr(input.entryCandles, 14, |input.entryCandles| - 1)
  }

  /** Three equal candles that end where they began, as far apart in between as wanted. */
  function StandingTriple(range: real): Triple {
    var k := Candle(0, range, 2.0 * range, range, range);
    Triple(k, k, k)
  }

  /** Fifteen candles of the same range. */
  function SteadyCandles(range: real): (candles: seq<Candle>)
    ensures |candles| == 15
  {
    seq(15, i => Candle(i, range, 2.0 * range, range, range))
  }

  lemma {:induction false} SteadyRanges(range: real, n: nat)
    requires range > 0.0 && n < 15
    ensures SumRanges(SteadyCandles(range), n) == n as real * range
  {
    if n > 0 {
      SteadyRanges(range, n - 1);
      assert n as real * range == (n - 1) as real * range + range;
    }
  }

  lemma SteadyAtr(range: real)
    requires range > 0.0
    ensures AtrOr(SteadyCandles(range), 14, 14) == Some(range)
  {
    SteadyRanges(range, 14);
    assert Atr(SteadyCandles(range), 14, 14) == 14.0 * range / 14.0;
  }

  /**
   The converse fails at every threshold: an impulse can span the wanted range
   without a body, and the gate rejects every input with it, whatever else it holds.
   */
  lemma RangeIsNotEnough(atr: real, minImpulseAtr: real)
    requires atr > 0.0 && minImpulseAtr > 0.0
    ensures var t := StandingTriple(minImpulseAtr * atr);
      && WellFormedTriple(t)
      && Ratio(Highest(t) - Lowest(t), atr) >= minImpulseAtr
      && forall input: Input ::
           input.triple == Some(t) && EntryAtr(input) == Some(atr) && input.thresholds.minImpulseAtr == minImpulseAtr
           ==> !VerdictOf(input).ok
    ensures AtrOr(SteadyCandles(atr), 14, 14) == Some(atr)
  {
    SteadyAtr(atr);
    var t := StandingTriple(minImpulseAtr * atr);
    assert minImpulseAtr * atr > 0.0;
    assert Ratio(minImpulseAtr * atr, atr) == minImpulseAtr;
    assert Ratio(0.0, atr) == 0.0;
    forall input: Input | input.triple == Some(t) && EntryAtr(input) == Some(atr)
       && input.thresholds.minImpulseAtr == minImpulseAtr
      ensures !VerdictOf(input).ok
    {
      assert !Displaced(input).value.meetsBody;
    }
  }

  /** A direction is only ever called with enough data and enough strength. */
  lemma EnoughIsStrong(candles: seq<Candle>, periods: Periods, adxMin: real)
    ensures var r := RegimeOf(candles, periods, adxMin);
      && (r.enough <==> |candles| > Clamped(periods).slow && |candles| >= Clamped(periods).adx * 2)
      && (r.enough ==> r.fast.Some? && r.slow.Some? && r.slope.Some? && r.adx.Some?)
      && (r.direction == Up <==>
            r.enough && r.adx.value >= adxMin && r.fast.value > r.slow.value && r.slope.value >= 0.0)
      && (r.direction == Down <==>
            r.enough && r.adx.value >= adxMin && r.fast.value < r.slow.value && r.slope.value <= 0.0)
  {
    hide Ema, Adx, Atr;
  }
}
