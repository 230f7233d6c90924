/** The indicator series told by their recurrences, with every constant written out. */
module SeriesAudit {
  import opened Prelude
  import opened Candles
  import opened Indicators

  // ---- exponential moving average ----

  /**
   The average starts at index `period - 1` as the mean of the first values; from
   there on `period + 1` times the average is twice the value and `period - 1`
   times the average before.
   */
  ghost predicate IsEma(out: Indicators.Series, values: seq<real>, period: int) {
    var p := period as real;
    && |out| == |values|
    && (forall i :: 0 <= i < |out| ==> (out[i].Some? <==> 0 < period <= i + 1))
    && (0 < period <= |out| ==> p * out[period - 1].value == Sum(values[..period]))
    && (forall i :: 0 < period <= i < |out| ==>
          (p + 1.0) * out[i].value == 2.0 * values[i] + (p - 1.0) * out[i - 1].value)
  }

  lemma {:induction false} SumFirstIs(values: seq<real>, n: nat)
    requires n <= |values|
    ensures SumFirst(values, n) == Sum(values[..n])
  {
    if n > 0 {
      SumFirstIs(values, n - 1);
      assert values[..n] == values[..n - 1] + [values[n - 1]];
      SumAdds(values[..n - 1], [values[n - 1]]);
      SumAdds([values[n - 1]], []);
    }
  }

  lemma MeanTimes(total: real, period: nat)
    requires period > 0
    ensures period as real * Mean(total, period) == total
  {
  }

  lemma BlendTimes(value: real, previous: real, period: nat)
    requires period > 0
    ensures (period as real + 1.0) * Blend(value, previous, Weight(period))
         == 2.0 * value + (period as real - 1.0) * previous
  {
    var n, k := period as real + 1.0, Weight(period);
    assert n * k == 2.0;
    assert n * (value * k) == (n * k) * value;
    assert n * (previous * (1.0 - k)) == previous * n - previous * (n * k);
  }

  lemma EmaIsTold(values: seq<real>, period: int)
    ensures IsEma(EmaSeries(values, period), values, period)
  {
    hide Mean, Blend, Weight, SumFirst, Sum;
    var out := EmaSeries(values, period);
    if 0 < period <= |values| {
      SumFirstIs(values, period);
      MeanTimes(SumFirst(values, period), period);
    }
    forall i | 0 < period <= i < |out|
      ensures (period as real + 1.0) * out[i].value == 2.0 * values[i] + (period as real - 1.0) * out[i - 1].value
    {
      BlendTimes(values[i], Ema(values, period, i - 1), period);
    }
  }

  // ---- average true range ----

  ghost predicate AreRanges(ranges: seq<real>, candles: seq<Candle>) {
    && |ranges| == |candles|
    && forall i :: 0 < i < |candles| ==> IsTrueRange(ranges[i], candles[i - 1], candles[i])
  }

  /** Wilder's smoothing: `period` times the average is the value and `period - 1` times the average before. */
  ghost predicate IsWilder(out: Indicators.Series, values: seq<real>, period: int, start: int) {
    var p := period as real;
    && |out| == |values|
    && (forall i :: 0 <= i < |out| ==> (out[i].Some? <==> 0 < period && start <= i))
    && (0 < period <= start + 1 <= |out| ==>
          p * out[start].value == Sum(values[start + 1 - period..start + 1]))
    && (forall i :: 0 < period <= start < i < |out| ==>
          p * out[i].value == values[i] + (p - 1.0) * out[i - 1].value)
  }

  /** The range average smooths the true ranges from index `period` on. */
  ghost predicate IsAtr(out: Indicators.Series, candles: seq<Candle>, period: int) {
    exists ranges: seq<real> :: AreRanges(ranges, candles) && IsWilder(out, ranges, period, period)
  }

  function RangesOf(candles: seq<Candle>): seq<real> {
    seq(|candles|, i requires 0 <= i < |candles| => if i == 0 then 0.0 else RangeAt(candles, i))
  }

  lemma RangesAre(candles: seq<Candle>)
    ensures AreRanges(RangesOf(candles), candles)
  {
  }

  lemma {:induction false} SumRangesIs(candles: seq<Candle>, n: nat)
    requires n < |candles|
    ensures SumRanges(candles, n) == Sum(RangesOf(candles)[1..n + 1])
  {
    hide TrueRange;
    var r := RangesOf(candles);
    if n == 0 {
      assert r[1..1] == [];
    } else {
      SumRangesIs(candles, n - 1);
      assert r[1..n + 1] == r[1..n] + [r[n]];
      SumAdds(r[1..n], [r[n]]);
      SumAdds([r[n]], []);
    }
  }

  lemma SmoothTimes(previous: real, value: real, period: nat)
    requires period > 0
    ensures period as real * Smooth(previous, value, period) == value + (period as real - 1.0) * previous
  {
  }

  lemma WilderFrom(out: Indicators.Series, values: seq<real>, period: nat, start: nat)
    requires 0 < period <= start + 1 && |out| == |values|
    requires forall i :: 0 <= i < |out| ==> (out[i].Some? <==> start <= i)
    requires start < |out| ==> out[start] == Some(Mean(Sum(values[start + 1 - period..start + 1]), period))
    requires forall i :: start < i < |out| ==> out[i] == Some(Smooth(out[i - 1].value, values[i], period))
    ensures IsWilder(out, values, period, start)
  {
    hide Mean, Smooth, Sum;
    if start < |out| {
      MeanTimes(Sum(values[start + 1 - period..start + 1]), period);
    }
    forall i | start < i < |out|
      ensures period as real * out[i].value == values[i] + (period as real - 1.0) * out[i - 1].value
    {
      SmoothTimes(out[i - 1].value, values[i], period);
    }
  }

  lemma AtrIsTold(candles: seq<Candle>, period: int)
    ensures IsAtr(AtrSeries(candles, period), candles, period)
  {
    hide Mean, Smooth, RangeAt, SumRanges, Sum, IsWilder;
    var out, ranges := AtrSeries(candles, period), RangesOf(candles);
    RangesAre(candles);
    if period > 0 {
      if period < |candles| {
        SumRangesIs(candles, period);
      }
      WilderFrom(out, ranges, period, period);
    } else {
      NoWilder(out, ranges, period, period);
    }
  }

  lemma NoWilder(out: Indicators.Series, values: seq<real>, period: int, start: int)
    requires period <= 0 && |out| == |values| && forall i :: 0 <= i < |out| ==> out[i] == None
    ensures IsWilder(out, values, period, start)
  {
  }

  // ---- average directional index ----

  /** The series that the directional index goes through: per candle, as running sums, and the index itself. */
  datatype Passage = Passage(ranges: seq<real>, plus: seq<real>, minus: seq<real>, rangeSums: seq<real>,
                             plusSums: seq<real>, minusSums: seq<real>, dx: seq<real>)

  /** A move counts when it is positive and the larger of the two. */
  ghost predicate AreMoves(plus: seq<real>, minus: seq<real>, candles: seq<Candle>) {
    && |plus| == |minus| == |candles|
    && forall i :: 0 < i < |candles| ==>
         var up, down := candles[i].high - candles[i - 1].high, candles[i - 1].low - candles[i].low;
         && plus[i] == (if up > 0.0 && up > down then up else 0.0)
         && minus[i] == (if down > 0.0 && down > up then down else 0.0)
  }

  /** A running sum starts with the first `period` values and then gives up one share for every new value. */
  ghost predicate IsRolling(sums: seq<real>, values: seq<real>, period: int) {
    var p := period as real;
    && |sums| == |values|
    && (0 < period < |values| ==> sums[period] == Sum(values[1..period + 1]))
    && (forall i :: 0 < period < i < |values| ==> p * sums[i] == (p - 1.0) * sums[i - 1] + p * values[i])
  }

  /** The index is the share of the difference of the two movements in their sum, in percent. */
  ghost predicate IsDx(w: Passage, period: int, i: nat)
    requires i < |w.rangeSums| == |w.plusSums| == |w.minusSums| == |w.dx|
  {
    var plus, minus := w.plusSums[i], w.minusSums[i];
    if w.rangeSums[i] <= 0.0 || plus + minus <= 0.0 then w.dx[i] == 0.0
    else w.dx[i] * (plus + minus) == 100.0 * (if plus >= minus then plus - minus else minus - plus)
  }

  ghost predicate IsPassage(w: Passage, candles: seq<Candle>, period: int) {
    && AreRanges(w.ranges, candles) && AreMoves(w.plus, w.minus, candles)
    && IsRolling(w.rangeSums, w.ranges, period)
    && IsRolling(w.plusSums, w.plus, period) && IsRolling(w.minusSums, w.minus, period)
    && |w.dx| == |candles|
    && forall i: nat :: 0 < period <= i < |candles| ==> IsDx(w, period, i)
  }

  /** The average index smooths the index from `2 * period - 1` on. */
  ghost predicate IsAdx(out: Indicators.Series, candles: seq<Candle>, period: int) {
    exists w: Passage :: IsPassage(w, candles, period) && IsWilder(out, w.dx, period, 2 * period - 1)
  }

  function PassageOf(candles: seq<Candle>, period: nat): Passage {
    var n := |candles|;
    Passage(RangesOf(candles),
            seq(n, i requires 0 <= i < n => if i == 0 then 0.0 else MovementAt(candles, i).plus),
            seq(n, i requires 0 <= i < n => if i == 0 then 0.0 else MovementAt(candles, i).minus),
            seq(n, i requires 0 <= i < n => if 0 < period <= i then Rolled(candles, period, i).range else 0.0),
            seq(n, i requires 0 <= i < n => if 0 < period <= i then Rolled(candles, period, i).plus else 0.0),
            seq(n, i requires 0 <= i < n => if 0 < period <= i then Rolled(candles, period, i).minus else 0.0),
            seq(n, i requires 0 <= i < n => if 0 < period <= i then Dx(Rolled(candles, period, i)) else 0.0))
  }

  lemma MovesAre(candles: seq<Candle>, period: nat)
    ensures AreMoves(PassageOf(candles, period).plus, PassageOf(candles, period).minus, candles)
  {
    hide TrueRange, Rolled, Dx;
  }

  lemma {:induction false} SumMovementsIs(candles: seq<Candle>, period: nat, n: nat)
    requires n < |candles|
    ensures var w := PassageOf(candles, period);
      SumMovements(candles, n)
      == Movement(Sum(w.ranges[1..n + 1]), Sum(w.plus[1..n + 1]), Sum(w.minus[1..n + 1]))
  {
    hide MovementAt, Rolled, Dx, RangesOf;
    var w := PassageOf(candles, period);
    RangesLength(candles);
    if n == 0 {
      assert w.ranges[1..1] == [] && w.plus[1..1] == [] && w.minus[1..1] == [];
    } else {
      SumMovementsIs(candles, period, n - 1);
      OneMore(w.ranges, n);
      OneMore(w.plus, n);
      OneMore(w.minus, n);
      MovementRange(candles, n);
    }
  }

  lemma RangesLength(candles: seq<Candle>)
    ensures |RangesOf(candles)| == |candles|
  {
  }

  lemma MovementRange(candles: seq<Candle>, i: nat)
    requires 0 < i < |candles|
    ensures MovementAt(candles, i).range == RangesOf(candles)[i]
  {
  }

  lemma OneMore(values: seq<real>, n: nat)
    requires 0 < n < |values|
    ensures Sum(values[1..n + 1]) == Sum(values[1..n]) + values[n]
  {
    assert values[1..n + 1] == values[1..n] + [values[n]];
    SumAdds(values[1..n], [values[n]]);
    SumAdds([values[n]], []);
  }

  lemma RollTimes(sum: real, value: real, period: nat)
    requires period > 0
    ensures period as real * Roll(sum, value, period) == (period as real - 1.0) * sum + period as real * value
  {
    var p := period as real;
    assert p * (sum / p) == sum;
  }

  lemma RollingFrom(sums: seq<real>, values: seq<real>, period: nat)
    requires |sums| == |values|
    requires 0 < period < |values| ==> sums[period] == Sum(values[1..period + 1])
    requires forall i :: 0 < period < i < |values| ==> sums[i] == Roll(sums[i - 1], values[i], period)
    ensures IsRolling(sums, values, period)
  {
    hide Roll, Sum;
    forall i | 0 < period < i < |values|
      ensures period as real * sums[i] == (period as real - 1.0) * sums[i - 1] + period as real * values[i]
    {
      RollTimes(sums[i - 1], values[i], period);
    }
  }

  lemma RollingIs(candles: seq<Candle>, period: nat)
    ensures var w := PassageOf(candles, period);
      IsRolling(w.rangeSums, w.ranges, period) && IsRolling(w.plusSums, w.plus, period)
      && IsRolling(w.minusSums, w.minus, period)
  {
    hide MovementAt, Dx, RangesOf, SumMovements, Sum, Roll, IsRolling;
    var w := PassageOf(candles, period);
    RangesLength(candles);
    if 0 < period < |candles| {
      SumMovementsIs(candles, period, period);
    }
    forall i | 0 < i < |candles| ensures MovementAt(candles, i).range == w.ranges[i] {
      MovementRange(candles, i);
    }
    RollingFrom(w.rangeSums, w.ranges, period);
    RollingFrom(w.plusSums, w.plus, period);
    RollingFrom(w.minusSums, w.minus, period);
  }

  lemma PercentTimes(part: real, whole: real)
    requires whole != 0.0
    ensures Percent(part, whole) * whole == 100.0 * part
  {
  }

  lemma PercentsAdd(a: real, b: real, whole: real)
    requires whole > 0.0
    ensures (Percent(a, whole) + Percent(b, whole)) * whole == 100.0 * (a + b)
    ensures Abs(Percent(a, whole) - Percent(b, whole)) * whole == 100.0 * Abs(a - b)
  {
    PercentTimes(a, whole);
    PercentTimes(b, whole);
    hide Percent;
    AbsTimes(whole, Percent(a, whole) - Percent(b, whole));
  }

  lemma SameSign(x: real, f: real, y: real)
    requires f > 0.0 && x * f == 100.0 * y
    ensures x > 0.0 <==> y > 0.0
  {
    if x > 0.0 {
      assert x * f > 0.0;
    } else {
      assert -x * f >= 0.0;
    }
  }

  lemma DxIs(m: Movement)
    ensures if m.range <= 0.0 || m.plus + m.minus <= 0.0 then Dx(m) == 0.0
            else
              Dx(m) * (m.plus + m.minus) == 100.0 * (if m.plus >= m.minus then m.plus - m.minus else m.minus - m.plus)
  {
    if m.range > 0.0 {
      var p, q := Percent(m.plus, m.range), Percent(m.minus, m.range);
      PercentsAdd(m.plus, m.minus, m.range);
      SameSign(p + q, m.range, m.plus + m.minus);
      if p + q > 0.0 {
        PercentTimes(Abs(p - q), p + q);
        hide Percent;
        CancelFactor(Dx(m), p + q, Abs(p - q), m.range, m.plus + m.minus, Abs(m.plus - m.minus));
      }
    }
  }

  lemma AbsTimes(f: real, x: real)
    requires f > 0.0
    ensures Abs(f * x) == f * Abs(x)
  {
    if x >= 0.0 {
      assert f * x >= 0.0;
    } else {
      assert f * -x > 0.0;
    }
  }

  lemma CancelFactor(d: real, x: real, y: real, f: real, whole: real, part: real)
    requires f > 0.0 && d * x == 100.0 * y && x * f == 100.0 * whole && y * f == 100.0 * part
    ensures d * whole == 100.0 * part
  {
    assert d * x * f == d * (x * f);
  }

  lemma AdxIsTold(candles: seq<Candle>, period: int)
    ensures IsAdx(AdxSeries(candles, period), candles, period)
  {
    hide Mean, Smooth, SumDx, Sum, IsRolling, AreMoves, AreRanges, IsWilder, IsPassage, Dx;
    if period > 0 {
      var out, w := AdxSeries(candles, period), PassageOf(candles, period);
      PassageIs(candles, period);
      if 2 * period <= |candles| {
        SumDxIs(candles, period, 2 * period - 1);
      }
      WilderFrom(out, w.dx, period, 2 * period - 1);
    } else {
      NoAdx(candles, period);
    }
  }

  lemma NoAdx(candles: seq<Candle>, period: int)
    requires period <= 0
    ensures IsAdx(AdxSeries(candles, period), candles, period)
  {
    MovesAre(candles, 0);
    RangesAre(candles);
    RangesLength(candles);
    hide RangesOf, AreMoves, AreRanges, MovementAt;
    assert IsPassage(PassageOf(candles, 0), candles, period);
  }

  lemma PassageIs(candles: seq<Candle>, period: nat)
    ensures IsPassage(PassageOf(candles, period), candles, period)
  {
    hide Dx, RangesOf, MovementAt, IsRolling, AreMoves, AreRanges, Rolled;
    var w := PassageOf(candles, period);
    MovesAre(candles, period);
    RangesAre(candles);
    RangesLength(candles);
    RollingIs(candles, period);
    forall i: nat | 0 < period <= i < |candles| ensures IsDx(w, period, i) {
      DxIs(Rolled(candles, period, i));
    }
  }

  function DxOf(candles: seq<Candle>, period: nat): seq<real> { PassageOf(candles, period).dx }

  lemma DxAt(candles: seq<Candle>, period: nat, i: nat)
    requires 0 < period <= i < |candles|
    ensures |DxOf(candles, period)| == |candles| && DxOf(candles, period)[i] == Dx(Rolled(candles, period, i))
  {
    hide Rolled, Dx, RangesOf, MovementAt;
  }

  lemma SumDxNext(candles: seq<Candle>, period: nat, i: nat)
    requires 0 < period <= i < |candles|
    ensures SumDx(candles, period, i) == SumDx(candles, period, i - 1) + Dx(Rolled(candles, period, i))
  {
    hide Rolled, Dx;
  }

  lemma DxStarts(candles: seq<Candle>, period: nat)
    requires 0 < period <= |candles|
    ensures |DxOf(candles, period)| == |candles| && DxOf(candles, period)[period..period] == []
    ensures SumDx(candles, period, period - 1) == 0.0 == Sum([])
  {
    hide Rolled, Dx, RangesOf, MovementAt;
  }

  lemma {:induction false} SumDxIs(candles: seq<Candle>, period: nat, i: nat)
    requires 0 < period <= i + 1 <= |candles|
    ensures |DxOf(candles, period)| == |candles|
    ensures SumDx(candles, period, i) == Sum(DxOf(candles, period)[period..i + 1])
  {
    hide Rolled, Dx, DxOf, Sum, SumDx;
    var dx := DxOf(candles, period);
    DxStarts(candles, period);
    if i + 1 > period {
      SumDxIs(candles, period, i - 1);
      SumDxNext(candles, period, i);
      DxAt(candles, period, i);
      assert dx[period..i + 1] == dx[period..i] + [dx[i]];
      SumAdds(dx[period..i], [dx[i]]);
      SumAdds([dx[i]], []);
    }
  }
}
