/** EMA, ATR and ADX with Wilder's smoothing, and their behaviour when prices are reflected. */
module Indicators {
  import opened Prelude
  import opened Candles

  /** A value of a series; `None` stands for a value that needs more data. */
  type Series = seq<Option<real>>

  // ---- exponential moving average ----

  function Weight(period: nat): real { 2.0 / (period as real + 1.0) }

  /** The next value of the average: a blend of the new value and the previous average. */
  function Blend(value: real, previous: real, k: real): real { value * k + previous * (1.0 - k) }

  function Mean(total: real, period: nat): real
    requires period > 0
  {
    total / period as real
  }

  function SumFirst(values: seq<real>, n: nat): real
    requires n <= |values|
  {
    if n == 0 then 0.0 else SumFirst(values, n - 1) + values[n - 1]
  }

  function Ema(values: seq<real>, period: nat, i: nat): real
    requires 0 < period <= i + 1 <= |values|
  {
    if i + 1 == period then Mean(SumFirst(values, period), period)
    else Blend(values[i], Ema(values, period, i - 1), Weight(period))
  }

  function EmaOr(values: seq<real>, period: int, i: nat): Option<real>
    requires i < |values|
  {
    if 0 < period <= i + 1 then Some(Ema(values, period, i)) else None
  }

  function EmaSeries(values: seq<real>, period: int): Series {
    seq(|values|, i requires 0 <= i < |values| => EmaOr(values, period, i))
  }

  method ComputeEma(values: seq<real>, period: int) returns (out: Series)
    ensures out == EmaSeries(values, period)
  {
    out := seq(|values|, _ => None);
    if period <= 0 || |values| < period {
      return;
    }
    var k, seed := Weight(period), 0.0;
    for i := 0 to period
      invariant seed == SumFirst(values, i)
    {
      seed := seed + values[i];
    }
    out := out[period - 1 := Some(Mean(seed, period))];
    for i := period to |values|
      invariant |out| == |values|
      invariant forall j :: 0 <= j < |values| ==> out[j] == if j < i then EmaOr(values, period, j) else None
    {
      out := out[i := Some(Blend(values[i], out[i - 1].value, k))];
    }
  }

  // ---- average true range ----

  function TrueRange(prev: Candle, curr: Candle): real {
    Max(curr.high - curr.low, Max(Abs(curr.high - prev.close), Abs(curr.low - prev.close)))
  }

  function RangeAt(candles: seq<Candle>, i: nat): real
    requires 0 < i < |candles|
  {
    TrueRange(candles[i - 1], candles[i])
  }

  /** The sum of the true ranges at 1 to `n`. */
  function SumRanges(candles: seq<Candle>, n: nat): real
    requires n < |candles|
  {
    if n == 0 then 0.0 else SumRanges(candles, n - 1) + RangeAt(candles, n)
  }

  /** Wilder's smoothing of an average. */
  function Smooth(previous: real, value: real, period: nat): real
    requires period > 0
  {
    (previous * (period as real - 1.0) + value) / period as real
  }

  function Atr(candles: seq<Candle>, period: nat, i: nat): real
    requires 0 < period <= i < |candles|
  {
    if i == period then Mean(SumRanges(candles, period), period)
    else Smooth(Atr(candles, period, i - 1), RangeAt(candles, i), period)
  }

  function AtrOr(candles: seq<Candle>, period: int, i: nat): Option<real>
    requires i < |candles|
  {
    if 0 < period <= i then Some(Atr(candles, period, i)) else None
  }

  function AtrSeries(candles: seq<Candle>, period: int): Series {
    seq(|candles|, i requires 0 <= i < |candles| => AtrOr(candles, period, i))
  }

  method ComputeAtr(candles: seq<Candle>, period: int) returns (out: Series)
    ensures out == AtrSeries(candles, period)
  {
    out := seq(|candles|, _ => None);
    if period <= 0 || |candles| < period + 1 {
      return;
    }
    var trs := seq(|candles|, i requires 0 <= i < |candles| => if i == 0 then 0.0 else RangeAt(candles, i));
    var seed := 0.0;
    for i := 1 to period + 1
      invariant seed == SumRanges(candles, i - 1)
    {
      seed := seed + trs[i];
    }
    out := out[period := Some(Mean(seed, period))];
    for i := period + 1 to |candles|
      invariant |out| == |candles|
      invariant forall j :: 0 <= j < |candles| ==> out[j] == if j < i then AtrOr(candles, period, j) else None
    {
      out := out[i := Some(Smooth(out[i - 1].value, trs[i], period))];
    }
  }

  // ---- average directional index ----

  /** The true range and the directional movement up and down, summed or at one candle. */
  datatype Movement = Movement(range: real, plus: real, minus: real)

  function Larger(move: real, other: real): real {
    if move > other && move > 0.0 then move else 0.0
  }

  function MovementAt(candles: seq<Candle>, i: nat): Movement
    requires 0 < i < |candles|
  {
    var prev, curr := candles[i - 1], candles[i];
    var up, down := curr.high - prev.high, prev.low - curr.low;
    Movement(TrueRange(prev, curr), Larger(up, down), Larger(down, up))
  }

  function Add(a: Movement, b: Movement): Movement {
    Movement(a.range + b.range, a.plus + b.plus, a.minus + b.minus)
  }

  /** Wilder's running sum: a share of the old sum makes room for the new value. */
  function Roll(sum: real, value: real, period: nat): real
    requires period > 0
  {
    sum - sum / period as real + value
  }

  function RollAll(a: Movement, b: Movement, period: nat): Movement
    requires period > 0
  {
    Movement(Roll(a.range, b.range, period), Roll(a.plus, b.plus, period), Roll(a.minus, b.minus, period))
  }

  function SumMovements(candles: seq<Candle>, n: nat): Movement
    requires n < |candles|
  {
    if n == 0 then Movement(0.0, 0.0, 0.0) else Add(SumMovements(candles, n - 1), MovementAt(candles, n))
  }

  function Rolled(candles: seq<Candle>, period: nat, i: nat): Movement
    requires 0 < period <= i < |candles|
  {
    if i == period then SumMovements(candles, period)
    else RollAll(Rolled(candles, period, i - 1), MovementAt(candles, i), period)
  }

  function Percent(part: real, whole: real): real
    requires whole != 0.0
  {
    100.0 * part / whole
  }

  function Dx(m: Movement): real {
    if m.range <= 0.0 then 0.0
    else
      var plusDi, minusDi := Percent(m.plus, m.range), Percent(m.minus, m.range);
      if plusDi + minusDi <= 0.0 then 0.0 else Percent(Abs(plusDi - minusDi), plusDi + minusDi)
  }

  /** The sum of the directional indices at `period` to `i`. */
  function SumDx(candles: seq<Candle>, period: nat, i: nat): real
    requires 0 < period <= i + 1 <= |candles|
  {
    if i + 1 == period then 0.0 else SumDx(candles, period, i - 1) + Dx(Rolled(candles, period, i))
  }

  function Adx(candles: seq<Candle>, period: nat, i: nat): real
    requires 0 < period && period * 2 <= i + 1 <= |candles|
  {
    if i + 1 == period * 2 then Mean(SumDx(candles, period, i), period)
    else Smooth(Adx(candles, period, i - 1), Dx(Rolled(candles, period, i)), period)
  }

  function AdxOr(candles: seq<Candle>, period: int, i: nat): Option<real>
    requires i < |candles|
  {
    if 0 < period && period * 2 <= i + 1 then Some(Adx(candles, period, i)) else None
  }

  function AdxSeries(candles: seq<Candle>, period: int): Series {
    seq(|candles|, i requires 0 <= i < |candles| => AdxOr(candles, period, i))
  }

  /** The first sums of movements. */
  method SeedMovements(candles: seq<Candle>, period: nat) returns (sums: Movement)
    requires period < |candles|
    ensures sums == SumMovements(candles, period)
  {
    sums := Movement(0.0, 0.0, 0.0);
    for i := 1 to period + 1
      invariant sums == SumMovements(candles, i - 1)
    {
      sums := Add(sums, MovementAt(candles, i));
    }
  }

  /** The directional index at every candle from `period` on. */
  method ComputeDx(candles: seq<Candle>, period: nat) returns (dx: seq<real>)
    requires 0 < period < |candles|
    ensures |dx| == |candles|
    ensures forall j :: period <= j < |candles| ==> dx[j] == Dx(Rolled(candles, period, j))
  {
    hide Dx, MovementAt, Roll;
    var sums := SeedMovements(candles, period);
    dx := seq(|candles|, _ => 0.0);
    dx := dx[period := Dx(sums)];
    for i := period + 1 to |candles|
      invariant |dx| == |candles| && sums == Rolled(candles, period, i - 1)
      invariant forall j :: period <= j < i ==> dx[j] == Dx(Rolled(candles, period, j))
    {
      sums := RollAll(sums, MovementAt(candles, i), period);
      assert sums == Rolled(candles, period, i);
      dx := dx[i := Dx(sums)];
    }
  }

  /** The sum of the first directional indices. */
  method SeedDx(ghost candles: seq<Candle>, dx: seq<real>, period: nat, end: nat) returns (seed: real)
    requires 0 < period <= end < |candles| == |dx|
    requires forall j :: period <= j < |candles| ==> dx[j] == Dx(Rolled(candles, period, j))
    ensures seed == SumDx(candles, period, end)
  {
    hide Dx, Rolled;
    seed := 0.0;
    for i := period to end + 1
      invariant seed == SumDx(candles, period, i - 1)
    {
      seed := seed + dx[i];
    }
  }

  method ComputeAdx(candles: seq<Candle>, period: int) returns (out: Series)
    ensures out == AdxSeries(candles, period)
  {
    hide Dx, Rolled;
    out := seq(|candles|, _ => None);
    if period <= 0 || |candles| < period * 2 {
      return;
    }
    var dx := ComputeDx(candles, period);
    var adxSeedEnd := period * 2 - 1;
    var adxSeed := SeedDx(candles, dx, period, adxSeedEnd);
    out := out[adxSeedEnd := Some(Mean(adxSeed, period))];
    for i := adxSeedEnd + 1 to |candles|
      invariant |out| == |candles|
      invariant forall j :: 0 <= j < |candles| ==> out[j] == if j < i then AdxOr(candles, period, j) else None
    {
      out := out[i := Some(Smooth(out[i - 1].value, dx[i], period))];
    }
  }

  // ---- reflection of prices ----

  /** The candle with every price `p` replaced by `c - p`; high and low change places. */
  function Reflect(k: Candle, c: real): Candle {
    Candle(k.ts, c - k.open, c - k.low, c - k.high, c - k.close)
  }

  function ReflectAll(candles: seq<Candle>, c: real): seq<Candle> {
    seq(|candles|, i requires 0 <= i < |candles| => Reflect(candles[i], c))
  }

  function ReflectValues(values: seq<real>, c: real): seq<real> {
    seq(|values|, i requires 0 <= i < |values| => c - values[i])
  }

  lemma {:induction false} SumFirstReflects(values: seq<real>, n: nat, c: real)
    requires n <= |values|
    ensures SumFirst(ReflectValues(values, c), n) == c * n as real - SumFirst(values, n)
  {
    if n > 0 {
      SumFirstReflects(values, n - 1, c);
      assert c * n as real == c * (n - 1) as real + c;
    }
  }

  lemma MeanReflects(total: real, period: nat, c: real)
    requires period > 0
    ensures Mean(c * period as real - total, period) == c - Mean(total, period)
  {
    var p := period as real;
    assert (c * p - total) / p == c * p / p - total / p;
  }

  lemma BlendReflects(value: real, previous: real, k: real, c: real)
    ensures Blend(c - value, c - previous, k) == c - Blend(value, previous, k)
  {
  }

  /** The moving average of reflected values is the reflected moving average. */
  lemma {:induction false} EmaReflects(values: seq<real>, period: nat, i: nat, c: real)
    requires 0 < period <= i + 1 <= |values|
    ensures Ema(ReflectValues(values, c), period, i) == c - Ema(values, period, i)
  {
    hide Mean, Blend, Weight;
    if i + 1 == period {
      SumFirstReflects(values, period, c);
      MeanReflects(SumFirst(values, period), period, c);
    } else {
      EmaReflects(values, period, i - 1, c);
      BlendReflects(values[i], Ema(values, period, i - 1), Weight(period), c);
    }
  }

  lemma RangeReflects(candles: seq<Candle>, i: nat, c: real)
    requires 0 < i < |candles|
    ensures RangeAt(ReflectAll(candles, c), i) == RangeAt(candles, i)
  {
  }

  lemma {:induction false} SumRangesReflect(candles: seq<Candle>, n: nat, c: real)
    requires n < |candles|
    ensures SumRanges(ReflectAll(candles, c), n) == SumRanges(candles, n)
  {
    if n > 0 {
      SumRangesReflect(candles, n - 1, c);
      RangeReflects(candles, n, c);
    }
  }

  /** Reflection leaves the true range average as it is. */
  lemma {:induction false} AtrReflects(candles: seq<Candle>, period: nat, i: nat, c: real)
    requires 0 < period <= i < |candles|
    ensures Atr(ReflectAll(candles, c), period, i) == Atr(candles, period, i)
  {
    if i == period {
      SumRangesReflect(candles, period, c);
    } else {
      hide Smooth;
      AtrReflects(candles, period, i - 1, c);
      RangeReflects(candles, i, c);
    }
  }

  function Swap(m: Movement): Movement { Movement(m.range, m.minus, m.plus) }

  lemma MovementReflects(candles: seq<Candle>, i: nat, c: real)
    requires 0 < i < |candles|
    ensures MovementAt(ReflectAll(candles, c), i) == Swap(MovementAt(candles, i))
  {
    RangeReflects(candles, i, c);
    hide TrueRange;
  }

  lemma {:induction false} SumMovementsReflect(candles: seq<Candle>, n: nat, c: real)
    requires n < |candles|
    ensures SumMovements(ReflectAll(candles, c), n) == Swap(SumMovements(candles, n))
  {
    if n > 0 {
      hide MovementAt;
      SumMovementsReflect(candles, n - 1, c);
      MovementReflects(candles, n, c);
    }
  }

  lemma {:induction false} RolledReflects(candles: seq<Candle>, period: nat, i: nat, c: real)
    requires 0 < period <= i < |candles|
    ensures Rolled(ReflectAll(candles, c), period, i) == Swap(Rolled(candles, period, i))
  {
    hide MovementAt, Roll;
    if i == period {
      SumMovementsReflect(candles, period, c);
    } else {
      RolledReflects(candles, period, i - 1, c);
      MovementReflects(candles, i, c);
    }
  }

  lemma DxIsSymmetric(m: Movement)
    ensures Dx(Swap(m)) == Dx(m)
  {
    hide Percent;
  }

  lemma {:induction false} SumDxReflects(candles: seq<Candle>, period: nat, i: nat, c: real)
    requires 0 < period <= i + 1 <= |candles|
    ensures SumDx(ReflectAll(candles, c), period, i) == SumDx(candles, period, i)
  {
    if i + 1 > period {
      hide Rolled, Dx;
      SumDxReflects(candles, period, i - 1, c);
      RolledReflects(candles, period, i, c);
      DxIsSymmetric(Rolled(candles, period, i));
    }
  }

  /** Reflection leaves the directional index as it is. */
  lemma {:induction false} AdxReflects(candles: seq<Candle>, period: nat, i: nat, c: real)
    requires 0 < period && period * 2 <= i + 1 <= |candles|
    ensures Adx(ReflectAll(candles, c), period, i) == Adx(candles, period, i)
  {
    hide Rolled, Dx, SumDx, Smooth;
    if i + 1 == period * 2 {
      SumDxReflects(candles, period, i, c);
    } else {
      AdxReflects(candles, period, i - 1, c);
      RolledReflects(candles, period, i, c);
      DxIsSymmetric(Rolled(candles, period, i));
    }
  }

  /** The three series of reflected candles, entry by entry. */
  lemma SeriesReflect(candles: seq<Candle>, period: int, i: nat, c: real)
    requires i < |candles|
    ensures AtrOr(ReflectAll(candles, c), period, i) == AtrOr(candles, period, i)
    ensures AdxOr(ReflectAll(candles, c), period, i) == AdxOr(candles, period, i)
  {
    hide Atr, Adx, ReflectAll;
    if 0 < period <= i {
      AtrReflects(candles, period, i, c);
    }
    if 0 < period && period * 2 <= i + 1 {
      AdxReflects(candles, period, i, c);
    }
    assert |ReflectAll(candles, c)| == |candles| by { ReflectLength(candles, c); }
  }

  lemma ReflectLength(candles: seq<Candle>, c: real)
    ensures |ReflectAll(candles, c)| == |candles|
  {
  }

  // ---- bounds ----

  lemma ProductNonNegative(a: real, b: real)
    requires a >= 0.0 && b >= 0.0
    ensures a * b >= 0.0
  {
  }

  lemma BlendBetween(value: real, previous: real, period: nat, lo: real, hi: real)
    requires period > 0 && lo <= value <= hi && lo <= previous <= hi
    ensures lo <= Blend(value, previous, Weight(period)) <= hi
  {
    var k := Weight(period);
    assert 0.0 <= k <= 1.0;
    ProductNonNegative(value - lo, k);
    ProductNonNegative(previous - lo, 1.0 - k);
    ProductNonNegative(hi - value, k);
    ProductNonNegative(hi - previous, 1.0 - k);
  }

  function Times(x: real, n: nat): real { x * n as real }

  lemma NoTimes(x: real)
    ensures Times(x, 0) == 0.0
  {
  }

  lemma OneMoreTime(x: real, n: nat)
    ensures Times(x, n + 1) == Times(x, n) + x
  {
    var m := n as real;
    assert (n + 1) as real == m + 1.0;
    assert x * (m + 1.0) == x * m + x;
  }

  lemma {:induction false} SumFirstBetween(values: seq<real>, n: nat, lo: real, hi: real)
    requires n <= |values| && forall j :: 0 <= j < |values| ==> lo <= values[j] <= hi
    ensures Times(lo, n) <= SumFirst(values, n) <= Times(hi, n)
  {
    hide Times;
    if n == 0 {
      NoTimes(lo);
      NoTimes(hi);
    } else {
      SumFirstBetween(values, n - 1, lo, hi);
      OneMoreTime(lo, n - 1);
      OneMoreTime(hi, n - 1);
    }
  }

  lemma MeanBetween(total: real, period: nat, lo: real, hi: real)
    requires period > 0 && Times(lo, period) <= total <= Times(hi, period)
    ensures lo <= Mean(total, period) <= hi
  {
    var p := period as real;
    assert total / p * p == total;
  }

  /** A moving average stays within the range of its values. */
  lemma {:induction false} EmaBetween(values: seq<real>, period: nat, i: nat, lo: real, hi: real)
    requires 0 < period <= i + 1 <= |values| && forall j :: 0 <= j < |values| ==> lo <= values[j] <= hi
    ensures lo <= Ema(values, period, i) <= hi
  {
    hide Mean, Blend, Weight;
    if i + 1 == period {
      SumFirstBetween(values, period, lo, hi);
      MeanBetween(SumFirst(values, period), period, lo, hi);
    } else {
      EmaBetween(values, period, i - 1, lo, hi);
      BlendBetween(values[i], Ema(values, period, i - 1), period, lo, hi);
    }
  }

  lemma RollNonNegative(sum: real, value: real, period: nat)
    requires period > 0 && sum >= 0.0 && value >= 0.0
    ensures Roll(sum, value, period) >= 0.0
  {
    var p := period as real;
    assert sum / p * p == sum;
    assert sum / p <= sum;
  }

  lemma {:induction false} SumMovementsNonNegative(candles: seq<Candle>, n: nat)
    requires n < |candles|
    ensures SumMovements(candles, n).plus >= 0.0 && SumMovements(candles, n).minus >= 0.0
  {
    if n > 0 {
      SumMovementsNonNegative(candles, n - 1);
    }
  }

  lemma {:induction false} RolledNonNegative(candles: seq<Candle>, period: nat, i: nat)
    requires 0 < period <= i < |candles|
    ensures Rolled(candles, period, i).plus >= 0.0 && Rolled(candles, period, i).minus >= 0.0
  {
    hide Roll;
    if i == period {
      SumMovementsNonNegative(candles, period);
    } else {
      RolledNonNegative(candles, period, i - 1);
      var sums, m := Rolled(candles, period, i - 1), MovementAt(candles, i);
      RollNonNegative(sums.plus, m.plus, period);
      RollNonNegative(sums.minus, m.minus, period);
    }
  }

  lemma PercentBetween(part: real, whole: real)
    requires whole > 0.0 && 0.0 <= part <= whole
    ensures 0.0 <= Percent(part, whole) <= 100.0
  {
    assert Percent(part, whole) * whole == 100.0 * part;
  }

  lemma PercentNonNegative(part: real, whole: real)
    requires whole > 0.0 && part >= 0.0
    ensures Percent(part, whole) >= 0.0
  {
    assert Percent(part, whole) * whole == 100.0 * part;
  }

  lemma DxBetween(m: Movement)
    requires m.plus >= 0.0 && m.minus >= 0.0
    ensures 0.0 <= Dx(m) <= 100.0
  {
    hide Percent;
    if m.range > 0.0 {
      var plusDi, minusDi := Percent(m.plus, m.range), Percent(m.minus, m.range);
      PercentNonNegative(m.plus, m.range);
      PercentNonNegative(m.minus, m.range);
      if plusDi + minusDi > 0.0 {
        PercentBetween(Abs(plusDi - minusDi), plusDi + minusDi);
      }
    }
  }

  lemma {:induction false} SumDxBetween(candles: seq<Candle>, period: nat, i: nat)
    requires 0 < period <= i + 1 <= |candles|
    ensures 0.0 <= SumDx(candles, period, i) <= Times(100.0, i + 1 - period)
  {
    hide Rolled, Dx, Times;
    if i + 1 == period {
      NoTimes(100.0);
    } else {
      OneMoreTime(100.0, i - period);
      SumDxBetween(candles, period, i - 1);
      RolledNonNegative(candles, period, i);
      DxBetween(Rolled(candles, period, i));
    }
  }

  lemma SmoothBetween(previous: real, value: real, period: nat, lo: real, hi: real)
    requires period > 0 && lo <= previous <= hi && lo <= value <= hi
    ensures lo <= Smooth(previous, value, period) <= hi
  {
    var p := period as real;
    ProductNonNegative(previous - lo, p - 1.0);
    ProductNonNegative(hi - previous, p - 1.0);
    MeanBetween(previous * (p - 1.0) + value, period, lo, hi);
  }

  /** The directional index is a percentage. */
  lemma {:induction false} AdxBetween(candles: seq<Candle>, period: nat, i: nat)
    requires 0 < period && period * 2 <= i + 1 <= |candles|
    ensures 0.0 <= Adx(candles, period, i) <= 100.0
  {
    hide Rolled, Dx, SumDx, Smooth, Mean;
    if i + 1 == period * 2 {
      SumDxBetween(candles, period, i);
      MeanBetween(SumDx(candles, period, i), period, 0.0, 100.0);
    } else {
      AdxBetween(candles, period, i - 1);
      RolledNonNegative(candles, period, i);
      DxBetween(Rolled(candles, period, i));
      SmoothBetween(Adx(candles, period, i - 1), Dx(Rolled(candles, period, i)), period, 0.0, 100.0);
    }
  }
}
