/**
 The verdict of the signal-quality gate told from its input: the indicator readings
 by their recurrences, and every check by the inequality it stands for.
 */
module GateAudit {
  import opened Prelude
  import opened Candles
  import opened Indicators
  import opened SeriesAudit
  import opened SignalQuality

  // ---- regime ----

  /** The periods in use: at least two candles, and a slow average slower than the fast one. */
  function InUse(p: Periods): (q: Periods)
    ensures 2 <= q.fast < q.slow && 2 <= q.adx
  {
    var fast := if p.fast < 2 then 2 else p.fast;
    Periods(fast, if p.slow <= fast then fast + 1 else p.slow, if p.adx < 2 then 2 else p.adx)
  }

  /** The series that the regime is read from. */
  datatype Readings = Readings(closes: seq<real>, fast: Indicators.Series, slow: Indicators.Series,
                               adx: Indicators.Series, atr: Indicators.Series)

  ghost predicate AreReadings(x: Readings, candles: seq<Candle>, q: Periods) {
    && |x.closes| == |candles| && (forall i :: 0 <= i < |candles| ==> x.closes[i] == candles[i].close)
    && IsEma(x.fast, x.closes, q.fast) && IsEma(x.slow, x.closes, q.slow)
    && IsAdx(x.adx, candles, q.adx) && IsAtr(x.atr, candles, q.adx)
  }

  /** More candles than the slow average takes, and twice as many as the index takes. */
  predicate Suffices(n: nat, q: Periods) { n > q.slow && n >= 2 * q.adx }

  /** The readings have a value on the last candle; the slow one has it three candles earlier once there are as many. */
  predicate Reaches(x: Readings, n: nat, q: Periods) {
    && n > 3 && |x.fast| == |x.slow| == |x.adx| == |x.atr| == n
    && x.fast[n - 1].Some? && x.slow[n - 1].Some? && x.adx[n - 1].Some?
    && (n >= q.slow + 3 <==> x.slow[n - 4].Some?)
  }

  /** The regime read at the last candle; the slope is that of the slow average over three candles. */
  predicate ReadFrom(r: Regime, x: Readings, n: nat, q: Periods, adxMin: real)
    requires Reaches(x, n, q)
  {
    var fast, slow, adx := x.fast[n - 1].value, x.slow[n - 1].value, x.adx[n - 1].value;
    var slope := if n >= q.slow + 3 then slow - x.slow[n - 4].value else 0.0;
    && r.enough && r.fast == Some(fast) && r.slow == Some(slow) && r.slope == Some(slope) && r.adx == Some(adx)
    && r.atr == x.atr[n - 1]
    && (r.direction == Up <==> adx >= adxMin && fast > slow && slope >= 0.0)
    && (r.direction == Down <==> adx >= adxMin && fast < slow && slope <= 0.0)
  }

  lemma ReadingsReach(x: Readings, candles: seq<Candle>, q: Periods)
    requires AreReadings(x, candles, q) && Suffices(|candles|, q) && 2 <= q.fast < q.slow && 2 <= q.adx
    ensures Reaches(x, |candles|, q)
  {
    hide Sum, IsDx, AreMoves, IsRolling;
  }

  /** The regime of some candles: nothing without enough of them, else what the averages and the index read. */
  ghost predicate RegimeTold(r: Regime, candles: seq<Candle>, p: Periods, adxMin: real) {
    if !Suffices(|candles|, InUse(p)) then
      r.direction == Neutral && !r.enough && r.fast == r.slow == r.slope == r.adx == r.atr == None
    else
      exists x: Readings ::
        AreReadings(x, candles, InUse(p)) && Reaches(x, |candles|, InUse(p))
        && ReadFrom(r, x, |candles|, InUse(p), adxMin)
  }

  // ---- displacement ----

  /** The last value of the range average, where it is positive. */
  ghost predicate IsUnit(unit: Option<real>, candles: seq<Candle>) {
    exists atr: Indicators.Series :: IsAtr(atr, candles, 14) && |atr| == |candles|
      && unit == if candles != [] && atr[|atr| - 1].Some? && atr[|atr| - 1].value > 0.0 then atr[|atr| - 1] else None
  }

  /**
   The scores of a move from `open` to `close` within `low` and `high`: the body in
   units of the average range, the place of the close, and whether both qualify.
   */
  predicate Scored(d: Displacement, open: real, close: real, low: real, high: real, unit: Option<real>, atLeast: real)
    requires unit.Some? ==> unit.value > 0.0
  {
    && d.body == (if close >= open then close - open else open - close)
    && (if unit.Some? then
          && d.bodyAtrRatio * unit.value == d.body
          && (d.meetsBody <==> d.body >= atLeast * unit.value)
        else d.bodyAtrRatio == 0.0 && d.meetsBody)
    && (if high > low then d.closePosition * (high - low) == close - low else d.closePosition == 0.5)
  }

  /** The scores of one candle, whose close must lie in the outer quarter on the side when asked to. */
  predicate CandleScored(d: Displacement, k: Candle, unit: Option<real>, side: Side, minImpulseAtr: real,
                         quartile: bool)
    requires unit.Some? ==> unit.value > 0.0
  {
    && Scored(d, k.open, k.close, k.low, k.high, unit, minImpulseAtr)
    && d.range == (if k.high > k.low then k.high - k.low else 0.0)
    && (d.meetsClose <==> quartile ==> match side case Long => d.closePosition >= 0.75
                                                  case Short => d.closePosition <= 0.25)
  }

  predicate IsHighest(h: real, t: Triple) {
    && t.c0.high <= h && t.c1.high <= h && t.c2.high <= h
    && (h == t.c0.high || h == t.c1.high || h == t.c2.high)
  }

  predicate IsLowest(l: real, t: Triple) {
    && l <= t.c0.low && l <= t.c1.low && l <= t.c2.low
    && (l == t.c0.low || l == t.c1.low || l == t.c2.low)
  }

  /** The scores of three candles, from the first open to the last close within their extremes. */
  ghost predicate TripleScored(d: Displacement, t: Triple, unit: Option<real>, side: Side, minImpulseAtr: real)
    requires unit.Some? ==> unit.value > 0.0
  {
    && (exists low, high :: (IsLowest(low, t) && IsHighest(high, t) && d.range == high - low
                             && Scored(d, t.c0.open, t.c2.close, low, high, unit, minImpulseAtr)))
    && (d.meetsClose <==> match side case Long => d.closePosition >= 0.6 case Short => d.closePosition <= 0.4)
  }

  /** What the gate scores: the triple it is given, or else the last entry candle. */
  ghost predicate DisplacementTold(d: Option<Displacement>, input: Input) {
    exists unit: Option<real> :: (IsUnit(unit, input.entryCandles) && ScoredBy(d, input, unit))
  }

  ghost predicate ScoredBy(d: Option<Displacement>, input: Input, unit: Option<real>) {
    && (unit.Some? ==> unit.value > 0.0)
    && (if input.triple.Some? then
          d.Some? && TripleScored(d.value, input.triple.value, unit, input.side, input.thresholds.minImpulseAtr)
        else if input.entryCandles != [] then
          && d.Some?
          && CandleScored(d.value, input.entryCandles[|input.entryCandles| - 1], unit, input.side,
                          input.thresholds.minImpulseAtr, input.thresholds.requireQuartile != Some(false))
        else d == None)
  }

  // ---- reward to risk ----

  /** What a target gains, if it lies on the winning side. */
  function Reward(entry: real, target: real, side: Side): real {
    var gain := match side case Long => target - entry case Short => entry - target;
    if gain > 0.0 then gain else 0.0
  }

  ghost function Winners(entry: real, targets: seq<real>, side: Side): set<nat> {
    set j: nat | j < |targets| && Reward(entry, targets[j], side) > 0.0
  }

  function RewardsFor(entry: real, targets: seq<real>, side: Side): seq<real> {
    seq(|targets|, j requires 0 <= j < |targets| => Reward(entry, targets[j], side))
  }

  /** The ratio is the mean reward of the winning targets over the risk, or nothing without either. */
  ghost predicate RewardTold(rr: real, entry: real, stop: real, targets: seq<real>, side: Side) {
    var risk := match side case Long => entry - stop case Short => stop - entry;
    var winners := |Winners(entry, targets, side)|;
    if risk <= 0.0 || winners == 0 then rr == 0.0
    else rr * risk * winners as real == Sum(RewardsFor(entry, targets, side))
  }

  // ---- the verdict ----

  /** The code of the first failing check of the regime. */
  predicate RegimeCode(code: Option<Code>, r: Regime, side: Side, adxMin: real) {
    if !r.enough then code == Some(RegimeDataInsufficient)
    else if r.adx.Some? && r.adx.value < adxMin then code == Some(AdxBelowMin)
    else if r.direction == Neutral then code == Some(RegimeNeutral)
    else if side == Long && r.direction == Down then code == Some(RegimeBlocksLong)
    else if side == Short && r.direction == Up then code == Some(RegimeBlocksShort)
    else code == None
  }

  /** The code of the first failing check after the regime. */
  predicate EntryCode(code: Option<Code>, d: Option<Displacement>, rr: real, minRr: Option<real>) {
    if d.Some? && !d.value.meetsBody then code == Some(BodyBelowAtr)
    else if d.Some? && !d.value.meetsClose then code == Some(CloseOutsideQuartile)
    else if minRr.Some? && 0.0 < minRr.value && rr < minRr.value then code == Some(RrBelowMin)
    else code == None
  }

  /** A verdict on a signal that the regime lets through. */
  ghost predicate EntryTold(v: Verdict, input: Input) {
    && DisplacementTold(v.displacement, input)
    && exists rr :: (
      && RewardTold(rr, input.entry, input.stop, input.targets, input.side)
      && EntryCode(v.code, v.displacement, rr, input.thresholds.minExpectedRr)
      && v.rr == if v.code == Some(BodyBelowAtr) || v.code == Some(CloseOutsideQuartile) then None else Some(rr))
  }

  /** The verdict that an input deserves, with everything it reports. */
  ghost predicate Deserved(v: Verdict, input: Input) {
    && (v.ok <==> v.code == None)
    && if input.locked then v.code == Some(EventLockout) && v.regime == None && v.displacement == None && v.rr == None
       else
         && v.regime.Some?
         && RegimeTold(v.regime.value, input.regimeCandles, Periods(21, 55, 14), input.thresholds.adxMin)
         && if RegimeCode(None, v.regime.value, input.side, input.thresholds.adxMin) then EntryTold(v, input)
            else
              && RegimeCode(v.code, v.regime.value, input.side, input.thresholds.adxMin)
              && v.displacement == None && v.rr == None
  }

  // ---- the verdict is the deserved one ----

  function ReadingsOf(candles: seq<Candle>, q: Periods): Readings {
    var closes := Closes(candles);
    Readings(closes, EmaSeries(closes, q.fast), EmaSeries(closes, q.slow), AdxSeries(candles, q.adx),
             AtrSeries(candles, q.adx))
  }

  lemma ReadingsAre(candles: seq<Candle>, q: Periods)
    ensures AreReadings(ReadingsOf(candles, q), candles, q)
  {
    EmaIsTold(Closes(candles), q.fast);
    EmaIsTold(Closes(candles), q.slow);
    AdxIsTold(candles, q.adx);
    AtrIsTold(candles, q.adx);
    hide IsEma, IsAdx, IsAtr, EmaSeries, AdxSeries, AtrSeries;
  }

  lemma PeriodsInUse(p: Periods)
    ensures Clamped(p) == InUse(p)
  {
  }

  lemma RegimeIsTold(candles: seq<Candle>, p: Periods, adxMin: real)
    ensures RegimeTold(RegimeOf(candles, p, adxMin), candles, p, adxMin)
  {
    var q := InUse(p);
    PeriodsInUse(p);
    if Suffices(|candles|, q) {
      var x := ReadingsOf(candles, q);
      ReadingsAre(candles, q);
      ReadingsReach(x, candles, q);
      ReadIs(candles, q, adxMin);
      hide AreReadings, Reaches, ReadFrom, ReadAt, Clamped, InUse, ReadingsOf;
    }
  }

  lemma ReadIs(candles: seq<Candle>, q: Periods, adxMin: real)
    requires Suffices(|candles|, q) && 2 <= q.fast < q.slow && 2 <= q.adx
    requires Reaches(ReadingsOf(candles, q), |candles|, q)
    ensures ReadFrom(ReadAt(candles, q, |candles| - 1, adxMin), ReadingsOf(candles, q), |candles|, q, adxMin)
  {
    hide Ema, Adx, Atr;
  }

  function UnitOf(candles: seq<Candle>): (unit: Option<real>)
    ensures unit.Some? ==> unit.value > 0.0
  {
    var atr := if candles == [] then None else AtrOr(candles, 14, |candles| - 1);
    if atr.Some? && atr.value > 0.0 then atr else None
  }

  lemma UnitIs(candles: seq<Candle>)
    ensures IsUnit(UnitOf(candles), candles)
  {
    AtrIsTold(candles, 14);
    hide IsAtr, AtrOr;
    var atr := AtrSeries(candles, 14);
    assert |atr| == |candles|;
  }

  lemma ScoredIs(open: real, close: real, low: real, high: real, atr: Option<real>, atLeast: real, d: Displacement,
                 unit: Option<real>)
    requires unit == (if atr.Some? && atr.value > 0.0 then atr else None)
    requires d.body == Abs(close - open) && d.bodyAtrRatio == BodyRatio(d.body, atr)
    requires d.meetsBody == MeetsBody(d.body, atr, atLeast)
    requires high > low ==> d.closePosition == Ratio(close - low, high - low)
    requires high <= low ==> d.closePosition == 0.5
    ensures Scored(d, open, close, low, high, unit, atLeast)
  {
    if unit.Some? {
      AtLeastTimes(d.body, unit.value, atLeast);
    }
  }

  lemma AtLeastTimes(body: real, unit: real, atLeast: real)
    requires unit > 0.0 && body >= 0.0
    ensures Ratio(body, unit) * unit == body
    ensures Ratio(body, unit) >= Max(0.0, atLeast) <==> body >= atLeast * unit
  {
    var x := Ratio(body, unit);
    assert x * unit == body;
    assert (x - atLeast) * unit == body - atLeast * unit;
    if x >= atLeast {
      assert (x - atLeast) * unit >= 0.0;
    } else {
      assert (atLeast - x) * unit > 0.0;
    }
  }

  lemma CandleIsScored(k: Candle, atr: Option<real>, side: Side, minImpulseAtr: real, quartile: bool)
    ensures var unit := if atr.Some? && atr.value > 0.0 then atr else None;
      CandleScored(DisplacementOf(k, atr, side, minImpulseAtr, quartile), k, unit, side, minImpulseAtr, quartile)
  {
    var unit := if atr.Some? && atr.value > 0.0 then atr else None;
    ScoredIs(k.open, k.close, k.low, k.high, atr, minImpulseAtr, DisplacementOf(k, atr, side, minImpulseAtr, quartile),
             unit);
    hide Scored, Ratio, BodyRatio, MeetsBody;
  }

  lemma TripleIsScored(t: Triple, atr: Option<real>, side: Side, minImpulseAtr: real)
    ensures var unit := if atr.Some? && atr.value > 0.0 then atr else None;
      TripleScored(ImpulseOf(t, atr, side, minImpulseAtr), t, unit, side, minImpulseAtr)
  {
    var unit := if atr.Some? && atr.value > 0.0 then atr else None;
    var d := ImpulseOf(t, atr, side, minImpulseAtr);
    assert IsLowest(Lowest(t), t) && IsHighest(Highest(t), t);
    ScoredIs(t.c0.open, t.c2.close, Lowest(t), Highest(t), atr, minImpulseAtr, d, unit);
    hide Scored, Ratio, BodyRatio, MeetsBody, Lowest, Highest, IsLowest, IsHighest;
  }

  lemma DisplacementIsTold(input: Input)
    ensures DisplacementTold(Displaced(input), input)
  {
    hide AtrOr, CandleScored, TripleScored, DisplacementOf, ImpulseOf;
    var candles, t := input.entryCandles, input.thresholds;
    var atr := if candles == [] then None else AtrOr(candles, 14, |candles| - 1);
    UnitIs(candles);
    if input.triple.Some? {
      TripleIsScored(input.triple.value, atr, input.side, t.minImpulseAtr);
    } else if candles != [] {
      CandleIsScored(candles[|candles| - 1], atr, input.side, t.minImpulseAtr, t.requireQuartile != Some(false));
    }
    assert ScoredBy(Displaced(input), input, UnitOf(candles));
  }

  lemma RewardsGrow(entry: real, targets: seq<real>, side: Side, n: nat)
    requires 0 < n <= |targets|
    ensures Sum(RewardsFor(entry, targets[..n], side))
         == Sum(RewardsFor(entry, targets[..n - 1], side)) + Reward(entry, targets[n - 1], side)
  {
    var less, last := RewardsFor(entry, targets[..n - 1], side), Reward(entry, targets[n - 1], side);
    hide Sum, Reward;
    assert RewardsFor(entry, targets[..n], side) == less + [last];
    SumAdds(less, [last]);
    SumAdds([last], []);
  }

  lemma NoRewards(entry: real, targets: seq<real>, side: Side)
    ensures Sum(RewardsFor(entry, targets[..0], side)) == 0.0 && Winners(entry, targets[..0], side) == {}
  {
    assert RewardsFor(entry, targets[..0], side) == [];
  }

  lemma {:induction false} RewardsAre(entry: real, targets: seq<real>, side: Side, n: nat)
    requires n <= |targets|
    ensures RewardsOf(entry, targets, side, n).sum == Sum(RewardsFor(entry, targets[..n], side))
    ensures RewardsOf(entry, targets, side, n).count == |Winners(entry, targets[..n], side)|
  {
    hide Sum, RewardsFor, Winners;
    if n == 0 {
      NoRewards(entry, targets, side);
    } else {
      RewardsAre(entry, targets, side, n - 1);
      RewardsGrow(entry, targets, side, n);
      WinnersGrow(entry, targets, side, n);
    }
  }

  lemma WinnersGrow(entry: real, targets: seq<real>, side: Side, n: nat)
    requires 0 < n <= |targets|
    ensures |Winners(entry, targets[..n], side)|
         == |Winners(entry, targets[..n - 1], side)| + if Reward(entry, targets[n - 1], side) > 0.0 then 1 else 0
  {
    hide Reward;
    var more, less := Winners(entry, targets[..n], side), Winners(entry, targets[..n - 1], side);
    assert more == less + if Reward(entry, targets[n - 1], side) > 0.0 then {n - 1} else {};
  }

  lemma RewardIsTold(entry: real, stop: real, targets: seq<real>, side: Side)
    ensures RewardTold(RewardToRisk(entry, stop, targets, side), entry, stop, targets, side)
  {
    hide RewardsFor, Winners, RewardsOf, Ratio, Sum;
    RewardsAre(entry, targets, side, |targets|);
    assert targets[..|targets|] == targets;
    var risk, r := Distance(side, stop, entry), RewardsOf(entry, targets, side, |targets|);
    if risk > 0.0 && r.count > 0 {
      MeanOverRisk(r.sum, r.count, risk);
    }
  }

  lemma MeanOverRisk(sum: real, count: nat, risk: real)
    requires count > 0 && risk > 0.0
    ensures Ratio(Ratio(sum, count as real), risk) * risk * count as real == sum
  {
    var mean := Ratio(sum, count as real);
    assert mean * count as real == sum;
    assert Ratio(mean, risk) * risk == mean;
  }

  /** The gate gives every input the verdict it deserves. */
  lemma VerdictIsDeserved(input: Input)
    ensures Deserved(VerdictOf(input), input)
  {
    RegimeIsTold(input.regimeCandles, DEFAULTS, input.thresholds.adxMin);
    DisplacementIsTold(input);
    RewardIsTold(input.entry, input.stop, input.targets, input.side);
    hide RegimeOf, RegimeTold, Displaced, DisplacementTold, RewardToRisk, RewardTold;
  }
}
