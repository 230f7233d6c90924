/** Indicators and signal-quality gate under a change of the price unit and of the price level. */
module Scaling {
  import opened Prelude
  import opened Candles
  import opened Indicators
  import opened SignalQuality

  // ---- one number in a new unit ----

  function Times(m: real, a: real): real { m * a }

  lemma TimesAdds(m: real, a: real, b: real)
    ensures Times(m, a) + Times(m, b) == Times(m, a + b)
    ensures Times(m, a) - Times(m, b) == Times(m, a - b)
  {
  }

  lemma TimesZero(m: real)
    ensures Times(m, 0.0) == 0.0
  {
  }

  lemma TimesOrders(m: real, a: real, b: real)
    requires m > 0.0
    ensures Times(m, a) >= Times(m, b) <==> a >= b
  {
    assert a > b ==> m * (a - b) > 0.0;
    assert a < b ==> m * (b - a) > 0.0;
  }

  lemma MaxScales(m: real, a: real, b: real)
    requires m > 0.0
    ensures Max(Times(m, a), Times(m, b)) == Times(m, Max(a, b))
    ensures Min(Times(m, a), Times(m, b)) == Times(m, Min(a, b))
  {
    TimesOrders(m, a, b);
    TimesOrders(m, b, a);
    hide Times;
  }

  lemma AbsScales(m: real, a: real)
    requires m > 0.0
    ensures Abs(Times(m, a)) == Times(m, Abs(a))
  {
    TimesOrders(m, a, 0.0);
  }

  lemma DivisionScales(m: real, a: real, d: real)
    requires d != 0.0
    ensures Times(m, a) / d == Times(m, a / d)
  {
    assert m * a / d * d == m * a;
    assert m * (a / d) * d == m * (a / d * d);
  }

  /** A quotient of two prices does not depend on the unit. */
  lemma QuotientKeeps(m: real, a: real, b: real)
    requires m > 0.0 && b != 0.0
    ensures Times(m, b) != 0.0 && Times(m, a) / Times(m, b) == a / b
  {
    assert m * b != 0.0;
    var q := a / b;
    assert q * (m * b) == m * (q * b) == m * a;
    DivideOut(q, m * b);
  }

  lemma DivideOut(q: real, d: real)
    requires d != 0.0
    ensures q * d / d == q
  {
  }

  // ---- candles and values in a new unit ----

  function ScaleCandle(k: Candle, m: real): Candle {
    Candle(k.ts, Times(m, k.open), Times(m, k.high), Times(m, k.low), Times(m, k.close))
  }

  function ScaleAll(candles: seq<Candle>, m: real): seq<Candle> {
    seq(|candles|, i requires 0 <= i < |candles| => ScaleCandle(candles[i], m))
  }

  function ScaleValues(values: seq<real>, m: real): seq<real> {
    seq(|values|, i requires 0 <= i < |values| => Times(m, values[i]))
  }

  function ScaleOption(v: Option<real>, m: real): Option<real> {
    match v case None => None case Some(x) => Some(Times(m, x))
  }

  // ---- averages and ranges scale ----

  lemma {:induction false} SumFirstScales(values: seq<real>, n: nat, m: real)
    requires n <= |values|
    ensures SumFirst(ScaleValues(values, m), n) == Times(m, SumFirst(values, n))
  {
    hide Times;
    TimesZero(m);
    if n > 0 {
      SumFirstScales(values, n - 1, m);
      TimesAdds(m, SumFirst(values, n - 1), values[n - 1]);
    }
  }

  lemma BlendScales(value: real, previous: real, k: real, m: real)
    ensures Blend(Times(m, value), Times(m, previous), k) == Times(m, Blend(value, previous, k))
  {
  }

  lemma MeanScales(total: real, period: nat, m: real)
    requires period > 0
    ensures Mean(Times(m, total), period) == Times(m, Mean(total, period))
  {
    DivisionScales(m, total, period as real);
  }

  /** The moving average of scaled values is the scaled moving average. */
  lemma {:induction false} EmaScales(values: seq<real>, period: nat, i: nat, m: real)
    requires 0 < period <= i + 1 <= |values|
    ensures Ema(ScaleValues(values, m), period, i) == Times(m, Ema(values, period, i))
  {
    hide Times, Mean, Blend, Weight;
    if i + 1 == period {
      SumFirstScales(values, period, m);
      MeanScales(SumFirst(values, period), period, m);
    } else {
      EmaScales(values, period, i - 1, m);
      BlendScales(values[i], Ema(values, period, i - 1), Weight(period), m);
    }
  }

  lemma RangeScales(candles: seq<Candle>, i: nat, m: real)
    requires 0 < i < |candles| && m > 0.0
    ensures RangeAt(ScaleAll(candles, m), i) == Times(m, RangeAt(candles, i))
  {
    hide Times;
    var prev, k := candles[i - 1], candles[i];
    TimesAdds(m, k.high, k.low);
    TimesAdds(m, k.high, prev.close);
    TimesAdds(m, k.low, prev.close);
    AbsScales(m, k.high - prev.close);
    AbsScales(m, k.low - prev.close);
    MaxScales(m, Abs(k.high - prev.close), Abs(k.low - prev.close));
    MaxScales(m, k.high - k.low, Max(Abs(k.high - prev.close), Abs(k.low - prev.close)));
    hide Max, Abs;
  }

  lemma {:induction false} SumRangesScale(candles: seq<Candle>, n: nat, m: real)
    requires n < |candles| && m > 0.0
    ensures SumRanges(ScaleAll(candles, m), n) == Times(m, SumRanges(candles, n))
  {
    hide Times, RangeAt;
    TimesZero(m);
    if n > 0 {
      SumRangesScale(candles, n - 1, m);
      RangeScales(candles, n, m);
      TimesAdds(m, SumRanges(candles, n - 1), RangeAt(candles, n));
    }
  }

  lemma SmoothScales(previous: real, value: real, period: nat, m: real)
    requires period > 0
    ensures Smooth(Times(m, previous), Times(m, value), period) == Times(m, Smooth(previous, value, period))
  {
    var weight := period as real - 1.0;
    assert m * previous * weight == m * (previous * weight);
    DivisionScales(m, previous * weight + value, period as real);
  }

  /** The true range average scales with the prices. */
  lemma {:induction false} AtrScales(candles: seq<Candle>, period: nat, i: nat, m: real)
    requires 0 < period <= i < |candles| && m > 0.0
    ensures Atr(ScaleAll(candles, m), period, i) == Times(m, Atr(candles, period, i))
  {
    hide Times, RangeAt, Mean, Smooth, SumRanges;
    if i == period {
      SumRangesScale(candles, period, m);
      MeanScales(SumRanges(candles, period), period, m);
    } else {
      AtrScales(candles, period, i - 1, m);
      RangeScales(candles, i, m);
      SmoothScales(Atr(candles, period, i - 1), RangeAt(candles, i), period, m);
    }
  }

  // ---- the directional index does not depend on the unit ----

  function ScaleMovement(v: Movement, m: real): Movement {
    Movement(Times(m, v.range), Times(m, v.plus), Times(m, v.minus))
  }

  lemma LargerScales(m: real, move: real, other: real)
    requires m > 0.0
    ensures Larger(Times(m, move), Times(m, other)) == Times(m, Larger(move, other))
  {
    TimesOrders(m, other, move);
    TimesOrders(m, 0.0, move);
    TimesZero(m);
    hide Times;
  }

  lemma MovementScales(candles: seq<Candle>, i: nat, m: real)
    requires 0 < i < |candles| && m > 0.0
    ensures MovementAt(ScaleAll(candles, m), i) == ScaleMovement(MovementAt(candles, i), m)
  {
    hide Times, TrueRange, Larger;
    var prev, curr := candles[i - 1], candles[i];
    RangeScales(candles, i, m);
    TimesAdds(m, curr.high, prev.high);
    TimesAdds(m, prev.low, curr.low);
    LargerScales(m, curr.high - prev.high, prev.low - curr.low);
    LargerScales(m, prev.low - curr.low, curr.high - prev.high);
  }

  lemma {:induction false} SumMovementsScale(candles: seq<Candle>, n: nat, m: real)
    requires n < |candles| && m > 0.0
    ensures SumMovements(ScaleAll(candles, m), n) == ScaleMovement(SumMovements(candles, n), m)
  {
    hide Times, MovementAt;
    TimesZero(m);
    if n > 0 {
      SumMovementsScale(candles, n - 1, m);
      MovementScales(candles, n, m);
      var sums, v := SumMovements(candles, n - 1), MovementAt(candles, n);
      TimesAdds(m, sums.range, v.range);
      TimesAdds(m, sums.plus, v.plus);
      TimesAdds(m, sums.minus, v.minus);
    }
  }

  lemma RollScales(sum: real, value: real, period: nat, m: real)
    requires period > 0
    ensures Roll(Times(m, sum), Times(m, value), period) == Times(m, Roll(sum, value, period))
  {
    DivisionScales(m, sum, period as real);
  }

  lemma {:induction false} RolledScales(candles: seq<Candle>, period: nat, i: nat, m: real)
    requires 0 < period <= i < |candles| && m > 0.0
    ensures Rolled(ScaleAll(candles, m), period, i) == ScaleMovement(Rolled(candles, period, i), m)
  {
    hide Times, MovementAt, Roll;
    if i == period {
      SumMovementsScale(candles, period, m);
    } else {
      RolledScales(candles, period, i - 1, m);
      MovementScales(candles, i, m);
      var sums, v := Rolled(candles, period, i - 1), MovementAt(candles, i);
      RollScales(sums.range, v.range, period, m);
      RollScales(sums.plus, v.plus, period, m);
      RollScales(sums.minus, v.minus, period, m);
    }
  }

  lemma PercentKeeps(part: real, whole: real, m: real)
    requires m > 0.0 && whole > 0.0
    ensures Times(m, whole) > 0.0 && Percent(Times(m, part), Times(m, whole)) == Percent(part, whole)
  {
    QuotientKeeps(m, part, whole);
    assert Percent(Times(m, part), Times(m, whole)) == 100.0 * (Times(m, part) / Times(m, whole));
    assert Percent(part, whole) == 100.0 * (part / whole);
  }

  lemma DxKeeps(v: Movement, m: real)
    requires m > 0.0
    ensures Dx(ScaleMovement(v, m)) == Dx(v)
  {
    TimesOrders(m, 0.0, v.range);
    TimesZero(m);
    hide Times, Percent;
    if v.range > 0.0 {
      PercentKeeps(v.plus, v.range, m);
      PercentKeeps(v.minus, v.range, m);
    }
  }

  lemma {:induction false} SumDxKeeps(candles: seq<Candle>, period: nat, i: nat, m: real)
    requires 0 < period <= i + 1 <= |candles| && m > 0.0
    ensures SumDx(ScaleAll(candles, m), period, i) == SumDx(candles, period, i)
  {
    if i + 1 > period {
      hide Rolled, Dx, ScaleMovement;
      SumDxKeeps(candles, period, i - 1, m);
      RolledScales(candles, period, i, m);
      DxKeeps(Rolled(candles, period, i), m);
    }
  }

  /** The directional index does not depend on the unit of the prices. */
  lemma {:induction false} AdxKeeps(candles: seq<Candle>, period: nat, i: nat, m: real)
    requires 0 < period && period * 2 <= i + 1 <= |candles| && m > 0.0
    ensures Adx(ScaleAll(candles, m), period, i) == Adx(candles, period, i)
  {
    hide Rolled, Dx, SumDx, Smooth, ScaleMovement;
    if i + 1 == period * 2 {
      SumDxKeeps(candles, period, i, m);
    } else {
      AdxKeeps(candles, period, i - 1, m);
      RolledScales(candles, period, i, m);
      DxKeeps(Rolled(candles, period, i), m);
    }
  }

  // ---- the regime ----

  function ScaleRegime(r: Regime, m: real): Regime {
    r.(fast := ScaleOption(r.fast, m), slow := ScaleOption(r.slow, m), slope := ScaleOption(r.slope, m),
       atr := ScaleOption(r.atr, m))
  }

  lemma ScaleLength(candles: seq<Candle>, m: real)
    ensures |ScaleAll(candles, m)| == |candles|
    ensures Closes(ScaleAll(candles, m)) == ScaleValues(Closes(candles), m)
  {
  }

  /** The three series of scaled candles, entry by entry. */
  lemma SeriesScale(candles: seq<Candle>, period: int, i: nat, m: real)
    requires i < |candles| && m > 0.0
    ensures |ScaleAll(candles, m)| == |candles| == |Closes(candles)| == |Closes(ScaleAll(candles, m))|
    ensures EmaOr(Closes(ScaleAll(candles, m)), period, i) == ScaleOption(EmaOr(Closes(candles), period, i), m)
    ensures AtrOr(ScaleAll(candles, m), period, i) == ScaleOption(AtrOr(candles, period, i), m)
    ensures AdxOr(ScaleAll(candles, m), period, i) == AdxOr(candles, period, i)
  {
    hide Ema, Atr, Adx, Times;
    ScaleLength(candles, m);
    if 0 < period <= i + 1 {
      EmaScales(Closes(candles), period, i, m);
    }
    if 0 < period <= i {
      AtrScales(candles, period, i, m);
    }
    if 0 < period && period * 2 <= i + 1 {
      AdxKeeps(candles, period, i, m);
    }
  }

  lemma CallKeeps(fast: real, slow: real, slope: real, adx: real, adxMin: real, m: real)
    requires m > 0.0
    ensures Call(Times(m, fast), Times(m, slow), Times(m, slope), adx, adxMin) == Call(fast, slow, slope, adx, adxMin)
  {
    TimesOrders(m, fast, slow);
    TimesOrders(m, slow, fast);
    TimesOrders(m, slope, 0.0);
    TimesOrders(m, 0.0, slope);
    TimesZero(m);
    hide Times;
  }

  lemma ReadScales(fast: Option<real>, slow: Option<real>, slowPrev: Option<real>, adx: Option<real>, atr: Option<real>,
                   adxMin: real, m: real)
    requires m > 0.0
    ensures Read(ScaleOption(fast, m), ScaleOption(slow, m), ScaleOption(slowPrev, m), adx, ScaleOption(atr, m), adxMin)
         == ScaleRegime(Read(fast, slow, slowPrev, adx, atr, adxMin), m)
  {
    hide Call, Times;
    TimesZero(m);
    if slow.Some? && slowPrev.Some? {
      TimesAdds(m, slow.value, slowPrev.value);
    }
    var slope := SlopeOf(slow, slowPrev);
    if fast.Some? && slow.Some? && adx.Some? && slope.Some? {
      CallKeeps(fast.value, slow.value, slope.value, adx.value, adxMin, m);
    }
  }

  /** The regime of scaled candles is the scaled regime: same direction, same strength. */
  lemma RegimeScales(candles: seq<Candle>, periods: Periods, adxMin: real, m: real)
    requires m > 0.0
    ensures RegimeOf(ScaleAll(candles, m), periods, adxMin) == ScaleRegime(RegimeOf(candles, periods, adxMin), m)
  {
    ScaleLength(candles, m);
    var p, last := Clamped(periods), |candles| - 1;
    hide ScaleAll, ReadAt;
    if last >= p.slow && last >= p.adx * 2 - 1 && last >= 0 {
      ReadAtScales(candles, p, last, adxMin, m);
    }
  }

  lemma ReadAtScales(candles: seq<Candle>, p: Periods, last: nat, adxMin: real, m: real)
    requires last < |candles| && m > 0.0
    ensures |ScaleAll(candles, m)| == |candles|
    ensures ReadAt(ScaleAll(candles, m), p, last, adxMin) == ScaleRegime(ReadAt(candles, p, last, adxMin), m)
  {
    hide ScaleAll, EmaOr, AdxOr, AtrOr, Closes, Read, ScaleRegime, ScaleOption;
    var before := if last >= 3 then last - 3 else 0;
    SeriesScale(candles, p.fast, last, m);
    SeriesScale(candles, p.slow, last, m);
    SeriesScale(candles, p.slow, before, m);
    SeriesScale(candles, p.adx, last, m);
    ReadScales(EmaOr(Closes(candles), p.fast, last), EmaOr(Closes(candles), p.slow, last),
               EmaOr(Closes(candles), p.slow, before),
               AdxOr(candles, p.adx, last), AtrOr(candles, p.adx, last), adxMin, m);
  }

  // ---- displacement and reward to risk ----

  function ScaleDisplacement(d: Displacement, m: real): Displacement {
    d.(body := Times(m, d.body), range := Times(m, d.range))
  }

  lemma BodyRatioKeeps(body: real, atr: Option<real>, m: real)
    requires m > 0.0
    ensures BodyRatio(Times(m, body), ScaleOption(atr, m)) == BodyRatio(body, atr)
    ensures SafeAtr(ScaleOption(atr, m)) > 0.0 <==> SafeAtr(atr) > 0.0
  {
    TimesZero(m);
    if atr.Some? {
      TimesOrders(m, 0.0, atr.value);
      if atr.value > 0.0 {
        QuotientKeeps(m, body, atr.value);
      }
    }
    hide Times;
  }

  lemma PositionKeeps(close: real, low: real, range: real, m: real)
    requires m > 0.0
    ensures ClosePosition(Times(m, close), Times(m, low), Times(m, range)) == ClosePosition(close, low, range)
  {
    TimesOrders(m, 0.0, range);
    TimesZero(m);
    TimesAdds(m, close, low);
    if range > 0.0 {
      QuotientKeeps(m, close - low, range);
    }
    hide Times;
  }

  lemma DisplacementScales(k: Candle, atr: Option<real>, side: Side, minImpulseAtr: real, requireQuartile: bool,
                           m: real)
    requires m > 0.0
    ensures DisplacementOf(ScaleCandle(k, m), ScaleOption(atr, m), side, minImpulseAtr, requireQuartile)
         == ScaleDisplacement(DisplacementOf(k, atr, side, minImpulseAtr, requireQuartile), m)
  {
    hide Times, BodyRatio, SafeAtr, ClosePosition;
    TimesAdds(m, k.close, k.open);
    TimesAdds(m, k.high, k.low);
    AbsScales(m, k.close - k.open);
    TimesZero(m);
    MaxScales(m, 0.0, k.high - k.low);
    BodyRatioKeeps(Abs(k.close - k.open), atr, m);
    PositionKeeps(k.close, k.low, Max(0.0, k.high - k.low), m);
  }

  function ScaleTriple(t: Triple, m: real): Triple {
    Triple(ScaleCandle(t.c0, m), ScaleCandle(t.c1, m), ScaleCandle(t.c2, m))
  }

  lemma ExtremesScale(t: Triple, m: real)
    requires m > 0.0
    ensures Highest(ScaleTriple(t, m)) == Times(m, Highest(t)) && Lowest(ScaleTriple(t, m)) == Times(m, Lowest(t))
  {
    hide Times;
    MaxScales(m, t.c1.high, t.c2.high);
    MaxScales(m, t.c0.high, Max(t.c1.high, t.c2.high));
    MaxScales(m, t.c1.low, t.c2.low);
    MaxScales(m, t.c0.low, Min(t.c1.low, t.c2.low));
    hide Max, Min;
  }

  lemma ImpulseScales(t: Triple, atr: Option<real>, side: Side, minImpulseAtr: real, m: real)
    requires m > 0.0
    ensures ImpulseOf(ScaleTriple(t, m), ScaleOption(atr, m), side, minImpulseAtr)
         == ScaleDisplacement(ImpulseOf(t, atr, side, minImpulseAtr), m)
  {
    hide Times, BodyRatio, SafeAtr, ClosePosition, Highest, Lowest;
    TimesAdds(m, t.c2.close, t.c0.open);
    AbsScales(m, t.c2.close - t.c0.open);
    ExtremesScale(t, m);
    TimesAdds(m, Highest(t), Lowest(t));
    BodyRatioKeeps(Abs(t.c2.close - t.c0.open), atr, m);
    PositionKeeps(t.c2.close, Lowest(t), Highest(t) - Lowest(t), m);
  }

  lemma {:induction false} RewardsScale(entry: real, targets: seq<real>, side: Side, n: nat, m: real)
    requires n <= |targets| && m > 0.0
    ensures var r := RewardsOf(entry, targets, side, n);
      RewardsOf(Times(m, entry), ScaleValues(targets, m), side, n) == Rewards(Times(m, r.sum), r.count)
  {
    hide Times;
    TimesZero(m);
    if n > 0 {
      RewardsScale(entry, targets, side, n - 1, m);
      var r, reward := RewardsOf(entry, targets, side, n - 1), Distance(side, entry, targets[n - 1]);
      TimesAdds(m, targets[n - 1], entry);
      TimesAdds(m, entry, targets[n - 1]);
      TimesOrders(m, 0.0, reward);
      TimesAdds(m, r.sum, reward);
    }
  }

  lemma RewardToRiskKeeps(entry: real, stop: real, targets: seq<real>, side: Side, m: real)
    requires m > 0.0
    ensures RewardToRisk(Times(m, entry), Times(m, stop), ScaleValues(targets, m), side)
         == RewardToRisk(entry, stop, targets, side)
  {
    hide Times, RewardsOf;
    var risk, r := Distance(side, stop, entry), RewardsOf(entry, targets, side, |targets|);
    RewardsScale(entry, targets, side, |targets|, m);
    TimesAdds(m, entry, stop);
    TimesAdds(m, stop, entry);
    TimesZero(m);
    TimesOrders(m, 0.0, risk);
    if risk > 0.0 && r.count > 0 {
      DivisionScales(m, r.sum, r.count as real);
      QuotientKeeps(m, Ratio(r.sum, r.count as real), risk);
    }
  }

  // ---- the gate ----

  /** The same situation with every price in another unit. */
  function ScaleInput(input: Input, m: real): Input {
    input.(regimeCandles := ScaleAll(input.regimeCandles, m),
           entryCandles := ScaleAll(input.entryCandles, m),
           triple := if input.triple.Some? then Some(ScaleTriple(input.triple.value, m)) else None,
           entry := Times(m, input.entry),
           stop := Times(m, input.stop),
           targets := ScaleValues(input.targets, m))
  }

  function ScaleVerdict(v: Verdict, m: real): Verdict {
    v.(regime := if v.regime.Some? then Some(ScaleRegime(v.regime.value, m)) else None,
       displacement := if v.displacement.Some? then Some(ScaleDisplacement(v.displacement.value, m)) else None)
  }

  lemma DisplacedScales(input: Input, m: real)
    requires m > 0.0
    ensures Displaced(ScaleInput(input, m)) ==
      if Displaced(input).Some? then Some(ScaleDisplacement(Displaced(input).value, m)) else None
  {
    var n, t := |input.entryCandles|, input.thresholds;
    hide AtrOr, EmaOr, AdxOr, Closes, ImpulseOf, DisplacementOf, ScaleDisplacement, Times;
    if n > 0 {
      SeriesScale(input.entryCandles, 14, n - 1, m);
    }
    var atr := if n == 0 then None else AtrOr(input.entryCandles, 14, n - 1);
    if input.triple.Some? {
      ImpulseScales(input.triple.value, atr, input.side, t.minImpulseAtr, m);
    } else if n >= 1 {
      DisplacementScales(input.entryCandles[n - 1], atr, input.side, t.minImpulseAtr, t.requireQuartile != Some(false),
                         m);
    }
  }

  /** The gate's verdict does not depend on the unit of the prices; what it reports in prices scales. */
  lemma GateScales(input: Input, m: real)
    requires m > 0.0
    ensures VerdictOf(ScaleInput(input, m)) == ScaleVerdict(VerdictOf(input), m)
  {
    RegimeScales(input.regimeCandles, DEFAULTS, input.thresholds.adxMin, m);
    DisplacedScales(input, m);
    RewardToRiskKeeps(input.entry, input.stop, input.targets, input.side, m);
    hide RegimeOf, Displaced, RewardToRisk, ScaleAll, ScaleValues, ScaleTriple, Times;
  }

  // ---- every affine change of prices ----

  /** Prices `a * p + b`; with a negative `a` high and low change places. */
  function AffineCandle(k: Candle, a: real, b: real): Candle {
    if a > 0.0 then Candle(k.ts, a * k.open + b, a * k.high + b, a * k.low + b, a * k.close + b)
    else Candle(k.ts, a * k.open + b, a * k.low + b, a * k.high + b, a * k.close + b)
  }

  function AffineAll(candles: seq<Candle>, a: real, b: real): seq<Candle> {
    seq(|candles|, i requires 0 <= i < |candles| => AffineCandle(candles[i], a, b))
  }

  /** The same situation in affinely changed prices; a negative `a` also changes the side. */
  function AffineInput(input: Input, a: real, b: real): Input {
    Input(if a > 0.0 then input.side else Opposite(input.side),
          AffineAll(input.regimeCandles, a, b),
          AffineAll(input.entryCandles, a, b),
          if input.triple.Some? then
            Some(Triple(AffineCandle(input.triple.value.c0, a, b), AffineCandle(input.triple.value.c1, a, b),
                        AffineCandle(input.triple.value.c2, a, b)))
          else None,
          a * input.entry + b,
          a * input.stop + b,
          seq(|input.targets|, i requires 0 <= i < |input.targets| => a * input.targets[i] + b),
          input.thresholds,
          input.locked)
  }

  lemma AffineCandleIs(k: Candle, a: real, b: real)
    requires a != 0.0
    ensures AffineCandle(k, a, b) == if a > 0.0 then ShiftCandle(ScaleCandle(k, a), b)
                                     else Reflect(ScaleCandle(k, -a), b)
  {
  }

  lemma AffineAllIs(candles: seq<Candle>, a: real, b: real)
    requires a != 0.0
    ensures AffineAll(candles, a, b) == if a > 0.0 then ShiftAll(ScaleAll(candles, a), b)
                                        else ReflectAll(ScaleAll(candles, -a), b)
  {
    forall i | 0 <= i < |candles|
      ensures AffineCandle(candles[i], a, b)
           == if a > 0.0 then ShiftCandle(ScaleCandle(candles[i], a), b) else Reflect(ScaleCandle(candles[i], -a), b)
    {
      AffineCandleIs(candles[i], a, b);
    }
    hide AffineCandle, ShiftCandle, ScaleCandle, Reflect;
  }

  lemma AffineValuesAre(values: seq<real>, a: real, b: real)
    ensures seq(|values|, i requires 0 <= i < |values| => a * values[i] + b)
         == ReflectValues(ScaleValues(values, -a), b)
  {
  }

  /** An affine change with a positive factor is a change of unit followed by a shift. */
  lemma RisingIsShift(input: Input, a: real, b: real)
    requires a > 0.0
    ensures AffineInput(input, a, b) == ShiftInput(ScaleInput(input, a), b)
  {
    AffineAllIs(input.regimeCandles, a, b);
    AffineAllIs(input.entryCandles, a, b);
    var scaled := ScaleInput(input, a);
    assert ShiftInput(scaled, b).targets == AffineInput(input, a, b).targets;
    hide AffineAll, ShiftAll, ScaleAll;
  }

  /** An affine change with a negative factor is a change of unit followed by a reflection. */
  lemma FallingIsMirror(input: Input, a: real, b: real)
    requires a < 0.0
    ensures AffineInput(input, a, b) == MirrorInput(ScaleInput(input, -a), b)
  {
    AffineAllIs(input.regimeCandles, a, b);
    AffineAllIs(input.entryCandles, a, b);
    AffineValuesAre(input.targets, a, b);
    hide AffineAll, ReflectAll, ScaleAll, ReflectValues, ScaleValues;
  }

  /**
   The gate is invariant under every affine change of prices: acceptance and
   reward-to-risk stay, and so does the reason, except that a negative factor,
   which also changes the side, exchanges the two blocking codes.
   */
  lemma GateIsAffine(input: Input, a: real, b: real)
    requires a != 0.0
    ensures var v, w := VerdictOf(input), VerdictOf(AffineInput(input, a, b));
      && w.ok == v.ok && w.rr == v.rr
      && w.code == (if a > 0.0 then v.code else MirrorCode(v.code))
  {
    hide VerdictOf, AffineInput, ShiftInput, MirrorInput, ScaleInput, ScaleRegime, ScaleDisplacement, MirrorRegime,
         MirrorDisplacement, MirrorCode;
    if a > 0.0 {
      RisingIsShift(input, a, b);
      GateScales(input, a);
      GateIgnoresTheLevel(ScaleInput(input, a), b);
    } else {
      FallingIsMirror(input, a, b);
      GateScales(input, -a);
      GateMirrors(ScaleInput(input, -a), b);
    }
  }
}
