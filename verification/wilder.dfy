/** Bounds of the Wilder indicators (aura/core/indicators.py): for candles whose close lies between low and
    high, directional movement never exceeds the true range, so every directional index is a percentage. */
module Wilder {
  import opened Wrappers
  import opened Indicators

  predicate ProperBar(bar: Candle) {
    bar.low <= bar.close <= bar.high
  }

  predicate ProperBars(p: seq<Candle>) {
    forall i :: 0 <= i < |p| ==> ProperBar(p[i])
  }

  lemma MovementWithinRange(p: seq<Candle>)
    requires |p| >= 2 && ProperBars(p)
    ensures 0.0 <= PlusDm(p) && 0.0 <= MinusDm(p)
    ensures PlusDm(p) + MinusDm(p) <= TrueRange(p)
  {
    var now, prev := Last(p), p[|p| - 2];
    assert ProperBar(now) && ProperBar(prev);
    assert now.high - prev.high <= now.high - prev.close;
    assert prev.low - now.low <= prev.close - now.low;
  }

  lemma WilderSumKeeps(x: real, dx: real, y: real, dy: real, period: int)
    requires period > 0 && 0.0 <= x <= y && 0.0 <= dx <= dy
    ensures 0.0 <= WilderSum(x, dx, period) <= WilderSum(y, dy, period)
  {
    var n := period as real;
    Shrunk(x, n);
    Shrunk(y - x, n);
    assert y / n == x / n + (y - x) / n;
  }

  lemma Shrunk(x: real, n: real)
    requires x >= 0.0 && n >= 1.0
    ensures 0.0 <= x / n <= x
  {
    Share(x, n);
  }

  /** Wilder summation is additive, so it keeps any bound on a sum of two movements. */
  lemma WilderSumAdds(x: real, y: real, dx: real, dy: real, period: int)
    requires period > 0
    ensures WilderSum(x + y, dx + dy, period) == WilderSum(x, dx, period) + WilderSum(y, dy, period)
  {
  }

  lemma {:induction false} MovementBounded(p: seq<Candle>, period: int)
    requires period > 0 && ProperBars(p)
    ensures var m := MovementOf(p, period);
            0.0 <= m.plus && 0.0 <= m.minus && m.plus + m.minus <= m.tr
  {
    hide PlusDm, MinusDm, TrueRange, WilderSum;
    if |p| >= 2 {
      MovementBounded(Front(p), period);
      MovementWithinRange(p);
      var m := MovementOf(Front(p), period);
      var dp, dm, tr := PlusDm(p), MinusDm(p), TrueRange(p);
      WilderSumKeeps(m.plus, dp, m.tr, tr, period);
      WilderSumKeeps(m.minus, dm, m.tr, tr, period);
      WilderSumKeeps(m.plus + m.minus, dp + dm, m.tr, tr, period);
      WilderSumAdds(m.plus, m.minus, dp, dm, period);
    }
  }

  lemma PercentBounded(x: real, total: real)
    requires 0.0 <= x <= total
    ensures 0.0 <= Percent(x, total) <= 100.0
  {
    if total > 0.0 {
      Quotient(0.0, 100.0 * x, total);
      Quotient(100.0, 100.0 * x, total);
    }
  }

  /** DI+ and DI- are percentages that add up to at most 100. */
  lemma DirectionalIndicators(p: seq<Candle>, period: int)
    requires period > 0 && ProperBars(p)
    ensures var m := MovementOf(p, period);
            && 0.0 <= PlusDi(m) && 0.0 <= MinusDi(m)
            && PlusDi(m) + MinusDi(m) <= 100.0
  {
    hide MovementOf;
    MovementBounded(p, period);
    var m := MovementOf(p, period);
    PercentBounded(m.plus, m.tr);
    PercentBounded(m.minus, m.tr);
    PercentBounded(m.plus + m.minus, m.tr);
    PercentAdds(m.plus, m.minus, m.tr);
  }

  lemma PercentAdds(x: real, y: real, total: real)
    ensures Percent(x + y, total) == Percent(x, total) + Percent(y, total)
  {
    if total > 0.0 {
      assert 100.0 * (x + y) / total == 100.0 * x / total + 100.0 * y / total;
    }
  }

  lemma DxBounded(p: seq<Candle>, period: int)
    requires ProperBars(p)
    ensures 0.0 <= DxLast(p, period) <= 100.0
  {
    hide MovementOf, Percent;
    if period > 0 {
      DirectionalIndicators(p, period);
      var m := MovementOf(p, period);
      var pv, nv := PlusDi(m), MinusDi(m);
      PercentBounded(Abs(pv - nv), pv + nv);
    }
  }

  lemma {:induction false} DxSumBounded(p: seq<Candle>, period: int)
    requires period > 0 && ProperBars(p)
    ensures 0.0 <= DxSum(p, period) <= 100.0 * MaxInt(0, |p| - period) as real
  {
    hide DxLast;
    if |p| >= period + 1 {
      DxSumBounded(Front(p), period);
      DxBounded(p, period);
    }
  }

  lemma SmoothHigh(avg: real, x: real, period: int, high: real)
    requires period > 0 && avg <= high && x <= high
    ensures Smooth(avg, x, period) <= high
  {
    var n := period as real;
    MulMono(avg, high, n - 1.0);
    var total := avg * (n - 1.0) + x;
    assert total <= high * n;
    Quotient(high, total, n);
  }

  /** The average directional index stays in 0..100 at every bar. */
  lemma {:induction false} AdxBounded(p: seq<Candle>, period: int)
    requires ProperBars(p)
    ensures 0.0 <= AdxLast(p, period) <= 100.0
  {
    hide DxSum, DxLast, Smooth;
    if period > 0 && |p| >= 2 * period {
      if |p| == 2 * period {
        DxSumBounded(p, period);
        MeanBounded(DxSum(p, period), period);
      } else {
        AdxBounded(Front(p), period);
        DxBounded(p, period);
        SmoothLow(AdxLast(Front(p), period), DxLast(p, period), period, 0.0);
        SmoothHigh(AdxLast(Front(p), period), DxLast(p, period), period, 100.0);
      }
    }
  }

  /** Over the first `period` bars the upward movements add up to the downward ones, and no bar after them moves either
      way. */
  predicate Balanced(p: seq<Candle>, period: int)
    requires period > 0
  {
    if |p| < period + 1 then true
    else if |p| == period + 1 then MovementOf(p, period).plus == MovementOf(p, period).minus
    else Balanced(Front(p), period) && PlusDm(p) == 0.0 == MinusDm(p)
  }

  lemma DxZeroExactly(p: seq<Candle>, period: int)
    requires 0 < period < |p| && ProperBars(p)
    ensures DxLast(p, period) == 0.0 <==> MovementOf(p, period).plus == MovementOf(p, period).minus
  {
    hide MovementOf;
    MovementBounded(p, period);
    var m := MovementOf(p, period);
    if m.tr > 0.0 {
      var pv, nv := PlusDi(m), MinusDi(m);
      assert pv - nv == 100.0 / m.tr * (m.plus - m.minus);
      NotZero(100.0 / m.tr, m.plus - m.minus);
      if pv + nv > 0.0 {
        assert Percent(Abs(pv - nv), pv + nv) == 100.0 / (pv + nv) * Abs(pv - nv);
        NotZero(100.0 / (pv + nv), Abs(pv - nv));
      } else {
        DirectionalIndicators(p, period);
      }
    }
  }

  lemma NotZero(c: real, x: real)
    requires c > 0.0
    ensures c * x == 0.0 <==> x == 0.0
  {
  }

  lemma {:induction false} DxSumZeroExactly(p: seq<Candle>, period: int)
    requires 0 < period < |p| && ProperBars(p)
    ensures DxSum(p, period) == 0.0 <==> Balanced(p, period)
    ensures Balanced(p, period) ==> MovementOf(p, period).plus == MovementOf(p, period).minus
  {
    hide DxLast, PlusDm, MinusDm, TrueRange;
    DxZeroExactly(p, period);
    DxBounded(p, period);
    if |p| > period + 1 {
      DxSumZeroExactly(Front(p), period);
      DxSumBounded(Front(p), period);
      OneMoves(p);
    }
  }

  lemma OneMoves(p: seq<Candle>)
    requires |p| >= 2
    ensures PlusDm(p) == MinusDm(p) <==> PlusDm(p) == 0.0 == MinusDm(p)
  {
  }

  /** The first average directional index is zero exactly for balanced movements. */
  lemma FirstAdxZeroExactly(p: seq<Candle>, period: int)
    requires period > 0 && |p| == 2 * period && ProperBars(p)
    ensures AdxLast(p, period) == 0.0 <==> Balanced(p, period)
  {
    hide DxSum, DxLast;
    DxSumZeroExactly(p, period);
    assert AdxLast(p, period) == 1.0 / period as real * DxSum(p, period);
    NotZero(1.0 / period as real, DxSum(p, period));
  }

  lemma MeanBounded(total: real, n: int)
    requires n > 0 && 0.0 <= total <= 100.0 * n as real
    ensures 0.0 <= total / n as real <= 100.0
  {
    Quotient(0.0, total, n as real);
    Quotient(100.0, total, n as real);
  }

  /** What the loop reports: every directional index it writes lies in 0..100. */
  method BoundedAdxSeries(bars: seq<Candle>, period: int) returns (adx: seq<real>, plus: seq<real>, minus: seq<real>)
    requires ProperBars(bars)
    ensures |adx| == |plus| == |minus| == |bars|
    ensures forall i :: 0 <= i < |bars| ==>
              0.0 <= adx[i] <= 100.0 && 0.0 <= plus[i] && 0.0 <= minus[i] && plus[i] + minus[i] <= 100.0
  {
    hide AdxLast, MovementOf, Percent;
    adx, plus, minus := AdxSeries(bars, period);
    forall i | 0 <= i < |bars|
      ensures 0.0 <= adx[i] <= 100.0 && 0.0 <= plus[i] && 0.0 <= minus[i] && plus[i] + minus[i] <= 100.0
    {
      AdxBounded(bars[..i + 1], period);
      if period > 0 { DirectionalIndicators(bars[..i + 1], period); }
    }
  }
}
