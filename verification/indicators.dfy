/** Indicator series (aura/core/indicators.py). Each loop is proved against a function of the bars up to and
    including the current one: the value at index i of every series is `...Last` of the prefix of length i + 1. */
module Indicators {
  import opened Wrappers

  datatype Candle = Candle(time: int, open: real, high: real, low: real, close: real, volume: real)

  function Closes(p: seq<Candle>): seq<real> {
    seq(|p|, i requires 0 <= i < |p| => p[i].close)
  }

  function Volumes(p: seq<Candle>): seq<real> {
    seq(|p|, i requires 0 <= i < |p| => p[i].volume)
  }

  function Front<T>(p: seq<T>): seq<T>
    requires p != []
  {
    p[..|p| - 1]
  }

  function Last<T>(p: seq<T>): T
    requires p != []
  {
    p[|p| - 1]
  }

  lemma Grow<T>(xs: seq<T>, i: nat)
    requires i < |xs|
    ensures Front(xs[..i + 1]) == xs[..i] && Last(xs[..i + 1]) == xs[i]
  {
  }

  lemma TakeTake<T>(xs: seq<T>, m: nat)
    requires m <= |xs|
    ensures forall i {:trigger xs[..m][..i]} :: 0 <= i <= m ==> xs[..m][..i] == xs[..i]
  {
  }

  function SumOf(xs: seq<real>): real {
    if xs == [] then 0.0 else SumOf(Front(xs)) + Last(xs)
  }

  lemma {:induction false} SumOfDropFirst(xs: seq<real>)
    requires xs != []
    ensures SumOf(xs) == xs[0] + SumOf(xs[1..])
  {
    if |xs| > 1 {
      SumOfDropFirst(Front(xs));
      assert Front(xs)[1..] == Front(xs[1..]);
    } else {
      assert xs[1..] == [] && Front(xs) == [];
    }
  }

  // ---------- moving averages ----------

  function EmaLast(p: seq<real>, period: int): real
    requires p != []
  {
    if period <= 0 then 0.0
    else if |p| == 1 then p[0]
    else
      var k := 2.0 / (period as real + 1.0);
      Last(p) * k + EmaLast(Front(p), period) * (1.0 - k)
  }

  method EmaSeries(src: seq<real>, period: int) returns (out: seq<real>)
    ensures |out| == |src|
    ensures forall i :: 0 <= i < |src| ==> out[i] == EmaLast(src[..i + 1], period)
  {
    out := seq(|src|, _ => 0.0);
    if |src| == 0 || period <= 0 {
      return;
    }
    var k := 2.0 / (period as real + 1.0);
    var e := src[0];
    out := out[0 := e];
    for i := 1 to |src|
      invariant |out| == |src| && e == EmaLast(src[..i], period)
      invariant forall j :: 0 <= j < i ==> out[j] == EmaLast(src[..j + 1], period)
    {
      Grow(src, i);
      e := src[i] * k + e * (1.0 - k);
      out := out[i := e];
    }
  }

  /** The naive mean of the last `period` values. */
  function SmaLast(p: seq<real>, period: int): real {
    if period <= 0 || |p| < period then 0.0 else SumOf(p[|p| - period..]) / period as real
  }

  /** The rolling sum never drifts from the naive window mean. */
  method SmaSeries(src: seq<real>, period: int) returns (out: seq<real>)
    ensures |out| == |src|
    ensures forall i :: 0 <= i < |src| ==> out[i] == SmaLast(src[..i + 1], period)
  {
    out := seq(|src|, _ => 0.0);
    if |src| == 0 || period <= 0 {
      return;
    }
    hide SumOf;
    var s := 0.0;
    assert src[0..0] == [] && SumOf([]) == 0.0 by { EmptySum(); }
    for i := 0 to |src|
      invariant |out| == |src|
      invariant s == SumOf(src[MaxInt(0, i - period)..i])
      invariant forall j :: 0 <= j < i ==> out[j] == SmaLast(src[..j + 1], period)
      invariant forall j :: i <= j < |src| ==> out[j] == 0.0
    {
      WindowStep(src, i, period);
      s := s + src[i];
      if i >= period {
        s := s - src[i - period];
      }
      if i >= period - 1 {
        assert src[..i + 1][i + 1 - period..] == src[i + 1 - period..i + 1];
        out := out[i := s / period as real];
      }
    }
  }

  lemma EmptySum()
    ensures SumOf([]) == 0.0
  {
  }

  /** Moving the window one bar on adds the new value and drops the one that leaves it. */
  lemma WindowStep(src: seq<real>, i: nat, period: int)
    requires i < |src| && period > 0
    ensures SumOf(src[MaxInt(0, i + 1 - period)..i + 1])
            == SumOf(src[MaxInt(0, i - period)..i]) + src[i] - if i >= period then src[i - period] else 0.0
  {
    var window := src[MaxInt(0, i - period)..i + 1];
    assert Front(window) == src[MaxInt(0, i - period)..i] && Last(window) == src[i];
    if i >= period {
      SumOfDropFirst(window);
      assert window[1..] == src[i + 1 - period..i + 1];
    }
  }

  // ---------- relative strength ----------

  function GainOf(p: seq<real>): real
    requires |p| >= 2
  {
    Max(Last(p) - p[|p| - 2], 0.0)
  }

  function LossOf(p: seq<real>): real
    requires |p| >= 2
  {
    Max(p[|p| - 2] - Last(p), 0.0)
  }

  /** Sums of the gains and losses over a prefix. */
  function GainSum(p: seq<real>): (g: real)
    ensures g >= 0.0
  {
    if |p| < 2 then 0.0 else GainSum(Front(p)) + GainOf(p)
  }

  function LossSum(p: seq<real>): (l: real)
    ensures l >= 0.0
  {
    if |p| < 2 then 0.0 else LossSum(Front(p)) + LossOf(p)
  }

  /** One step of Wilder smoothing. */
  function Smooth(avg: real, x: real, period: int): real
    requires period > 0
  {
    (avg * (period as real - 1.0) + x) / period as real
  }

  lemma SmoothLow(avg: real, x: real, period: int, low: real)
    requires period > 0 && low <= avg && low <= x
    ensures low <= Smooth(avg, x, period)
  {
    var n := period as real;
    MulMono(low, avg, n - 1.0);
    Quotient(low, avg * (n - 1.0) + x, n);
  }

  lemma Share(x: real, ratio: real)
    requires x >= 0.0 && ratio >= 1.0
    ensures 0.0 <= x / ratio <= x
  {
    Quotient(0.0, x, ratio);
    MulMono(1.0, ratio, x);
    Quotient(x, x, ratio);
  }

  function AvgGain(p: seq<real>, period: int): (g: real)
    requires period > 0 && |p| > period
    ensures g >= 0.0
  {
    if |p| > period + 1 then
      SmoothLow(AvgGain(Front(p), period), GainOf(p), period, 0.0);
      Smooth(AvgGain(Front(p), period), GainOf(p), period)
    else GainSum(p) / period as real
  }

  function AvgLoss(p: seq<real>, period: int): (l: real)
    requires period > 0 && |p| > period
    ensures l >= 0.0
  {
    if |p| > period + 1 then
      SmoothLow(AvgLoss(Front(p), period), LossOf(p), period, 0.0);
      Smooth(AvgLoss(Front(p), period), LossOf(p), period)
    else LossSum(p) / period as real
  }

  function RsiOf(g: real, l: real): (r: real)
    requires g >= 0.0 && l >= 0.0
    ensures 0.0 <= r <= 100.0
  {
    if l > 0.0 then
      var ratio := 1.0 + g / l;
      assert g / l >= 0.0 by { Quotient(0.0, g, l); }
      assert 0.0 <= 100.0 / ratio <= 100.0 by { Share(100.0, ratio); }
      100.0 - 100.0 / ratio
    else if g > 0.0 then 100.0
    else 50.0
  }

  function RsiLast(p: seq<real>, period: int): real {
    if period <= 0 || |p| < period + 1 then 50.0 else RsiOf(AvgGain(p, period), AvgLoss(p, period))
  }

  method RsiSeries(closes: seq<real>, period: int) returns (out: seq<real>)
    ensures |out| == |closes|
    ensures forall i :: 0 <= i < |closes| ==> out[i] == RsiLast(closes[..i + 1], period)
  {
    hide RsiOf, AvgGain, AvgLoss, Smooth;
    var n := |closes|;
    out := seq(n, _ => 50.0);
    if n < period + 1 || period <= 0 {
      return;
    }
    var g, l := FirstAverages(closes, period);
    out := out[period := RsiOf(g, l)];
    for i := period + 1 to n
      invariant |out| == n
      invariant g == AvgGain(closes[..i], period) && l == AvgLoss(closes[..i], period)
      invariant forall j :: 0 <= j < i ==> out[j] == RsiLast(closes[..j + 1], period)
    {
      Grow(closes, i);
      AverageStep(closes[..i + 1], period);
      var d := closes[i] - closes[i - 1];
      var gain := if d > 0.0 then d else 0.0;
      var loss := if d < 0.0 then -d else 0.0;
      g := Smooth(g, gain, period);
      l := Smooth(l, loss, period);
      out := out[i := RsiOf(g, l)];
    }
  }

  lemma AverageStep(p: seq<real>, period: int)
    requires period > 0 && |p| > period + 1
    ensures AvgGain(p, period) == Smooth(AvgGain(Front(p), period), GainOf(p), period)
    ensures AvgLoss(p, period) == Smooth(AvgLoss(Front(p), period), LossOf(p), period)
  {
    hide Smooth;
  }

  /** The plain averages of the first `period` gains and losses. */
  method FirstAverages(closes: seq<real>, period: int) returns (g: real, l: real)
    requires period > 0 && |closes| > period
    ensures g == AvgGain(closes[..period + 1], period) && l == AvgLoss(closes[..period + 1], period)
  {
    g, l := 0.0, 0.0;
    for i := 1 to period + 1
      invariant g == GainSum(closes[..i]) && l == LossSum(closes[..i])
    {
      Grow(closes, i);
      var d := closes[i] - closes[i - 1];
      if d > 0.0 {
        g := g + d;
      } else {
        l := l - d;
      }
    }
    g := g / period as real;
    l := l / period as real;
  }

  // ---------- true range ----------

  function TrueRange(p: seq<Candle>): real
    requires |p| >= 2
  {
    var now, prev := Last(p), p[|p| - 2].close;
    Max(now.high - now.low, Max(Abs(now.high - prev), Abs(now.low - prev)))
  }

  function TrueRangeSum(p: seq<Candle>): real {
    if |p| < 2 then 0.0 else TrueRangeSum(Front(p)) + TrueRange(p)
  }

  function AtrLast(p: seq<Candle>, period: int): real {
    if period <= 0 || |p| < period + 1 then 0.0
    else if |p| == period + 1 then TrueRangeSum(p) / period as real
    else Smooth(AtrLast(Front(p), period), TrueRange(p), period)
  }

  method AtrSeries(bars: seq<Candle>, period: int) returns (out: seq<real>)
    ensures |out| == |bars|
    ensures forall i :: 0 <= i < |bars| ==> out[i] == AtrLast(bars[..i + 1], period)
  {
    var n := |bars|;
    out := seq(n, _ => 0.0);
    if n < period + 1 || period <= 0 {
      return;
    }
    hide TrueRange;
    var s := 0.0;
    for i := 1 to period + 1
      invariant s == TrueRangeSum(bars[..i])
    {
      Grow(bars, i);
      s := s + TrueRange(bars[..i + 1]);
    }
    out := out[period := s / period as real];
    for i := period + 1 to n
      invariant |out| == n
      invariant forall j :: 0 <= j < i ==> out[j] == AtrLast(bars[..j + 1], period)
    {
      Grow(bars, i);
      out := out[i := Smooth(out[i - 1], TrueRange(bars[..i + 1]), period)];
    }
  }

  // ---------- directional movement ----------

  function PlusDm(p: seq<Candle>): real
    requires |p| >= 2
  {
    var up, dn := Last(p).high - p[|p| - 2].high, p[|p| - 2].low - Last(p).low;
    if up > dn && up > 0.0 then up else 0.0
  }

  function MinusDm(p: seq<Candle>): real
    requires |p| >= 2
  {
    var up, dn := Last(p).high - p[|p| - 2].high, p[|p| - 2].low - Last(p).low;
    if dn > up && dn > 0.0 then dn else 0.0
  }

  /** The smoothed true range and directional movements: plain sums over the first `period` bars, then Wilder sums. */
  datatype Movement = Movement(tr: real, plus: real, minus: real)

  function WilderSum(total: real, x: real, period: int): real
    requires period > 0
  {
    total - total / period as real + x
  }

  function MovementOf(p: seq<Candle>, period: int): Movement
    requires period > 0
  {
    if |p| < 2 then Movement(0.0, 0.0, 0.0)
    else
      var m := MovementOf(Front(p), period);
      if |p| <= period + 1 then Movement(m.tr + TrueRange(p), m.plus + PlusDm(p), m.minus + MinusDm(p))
      else
        Movement(
          WilderSum(m.tr, TrueRange(p), period), WilderSum(m.plus, PlusDm(p), period),
          WilderSum(m.minus, MinusDm(p), period))
  }

  function Percent(x: real, total: real): real {
    if total > 0.0 then 100.0 * x / total else 0.0
  }

  function PlusDi(m: Movement): real {
    Percent(m.plus, m.tr)
  }

  function MinusDi(m: Movement): real {
    Percent(m.minus, m.tr)
  }

  function DxOf(m: Movement): real {
    var pv, nv := PlusDi(m), MinusDi(m);
    Percent(Abs(pv - nv), pv + nv)
  }

  function DxLast(p: seq<Candle>, period: int): real {
    if period <= 0 || |p| < period + 1 then 0.0 else DxOf(MovementOf(p, period))
  }

  /** The sum of the directional indices from bar `period` on. */
  function DxSum(p: seq<Candle>, period: int): real
    requires period > 0
  {
    if |p| < period + 1 then 0.0 else DxSum(Front(p), period) + DxLast(p, period)
  }

  function AdxLast(p: seq<Candle>, period: int): real {
    if period <= 0 || |p| < 2 * period then 0.0
    else if |p| == 2 * period then DxSum(p, period) / period as real
    else Smooth(AdxLast(Front(p), period), DxLast(p, period), period)
  }

  /** A series of at most `2 * period` bars has no directional index at all. */
  predicate AdxDefined(n: nat, period: int) {
    n >= 2 * period + 1
  }

  method AdxSeries(bars: seq<Candle>, period: int) returns (adx: seq<real>, plus: seq<real>, minus: seq<real>)
    ensures |adx| == |plus| == |minus| == |bars|
    ensures forall i :: 0 <= i < |bars| ==>
              adx[i] == if AdxDefined(|bars|, period) then AdxLast(bars[..i + 1], period) else 0.0
    ensures forall i :: 0 <= i < |bars| ==>
              if AdxDefined(|bars|, period) && 0 < period <= i then
                var m := MovementOf(bars[..i + 1], period);
                plus[i] == PlusDi(m) && minus[i] == MinusDi(m)
              else plus[i] == 0.0 == minus[i]
  {
    var n := |bars|;
    adx, plus, minus := seq(n, _ => 0.0), seq(n, _ => 0.0), seq(n, _ => 0.0);
    if n < 2 * period + 1 || period <= 0 {
      return;
    }
    hide MovementOf, AdxLast, DxLast, Percent;
    var dxs;
    plus, minus, dxs := DirectionLines(bars, period);
    adx := SmoothDx(bars, period, dxs);
  }

  /** DI+, DI- and the directional index of every bar from `period` on. */
  method DirectionLines(bars: seq<Candle>, period: int) returns (plus: seq<real>, minus: seq<real>, dxs: seq<real>)
    requires 0 < period < |bars|
    ensures |plus| == |minus| == |dxs| == |bars|
    ensures forall j :: 0 <= j < |bars| ==> dxs[j] == DxLast(bars[..j + 1], period)
    ensures forall j :: 0 <= j < |bars| ==>
            plus[j] == if j < period then 0.0 else PlusDi(MovementOf(bars[..j + 1], period))
    ensures forall j :: 0 <= j < |bars| ==>
            minus[j] == if j < period then 0.0 else MinusDi(MovementOf(bars[..j + 1], period))
  {
    hide TrueRange, PlusDm, MinusDm, PlusDi, MinusDi, WilderSum, DxOf;
    var n := |bars|;
    plus, minus, dxs := seq(n, _ => 0.0), seq(n, _ => 0.0), seq(n, _ => 0.0);
    var m := FirstMovement(bars, period);
    plus, minus, dxs := plus[period := PlusDi(m)], minus[period := MinusDi(m)], dxs[period := DxOf(m)];
    for i := period + 1 to n
      invariant |dxs| == |plus| == |minus| == n && m == MovementOf(bars[..i], period)
      invariant forall j :: 0 <= j < i ==> dxs[j] == DxLast(bars[..j + 1], period)
      invariant forall j :: 0 <= j < i ==>
                plus[j] == if j < period then 0.0 else PlusDi(MovementOf(bars[..j + 1], period))
      invariant forall j :: 0 <= j < i ==>
                minus[j] == if j < period then 0.0 else MinusDi(MovementOf(bars[..j + 1], period))
    {
      Grow(bars, i);
      var p := bars[..i + 1];
      m := Movement(
        WilderSum(m.tr, TrueRange(p), period), WilderSum(m.plus, PlusDm(p), period),
        WilderSum(m.minus, MinusDm(p), period));
      plus, minus, dxs := plus[i := PlusDi(m)], minus[i := MinusDi(m)], dxs[i := DxOf(m)];
    }
  }

  /** The plain sums over the first `period` bars. */
  method FirstMovement(bars: seq<Candle>, period: int) returns (m: Movement)
    requires 0 < period < |bars|
    ensures m == MovementOf(bars[..period + 1], period)
  {
    hide TrueRange, PlusDm, MinusDm, WilderSum;
    m := Movement(0.0, 0.0, 0.0);
    for i := 1 to period + 1
      invariant m == MovementOf(bars[..i], period)
    {
      Grow(bars, i);
      var p := bars[..i + 1];
      m := Movement(m.tr + TrueRange(p), m.plus + PlusDm(p), m.minus + MinusDm(p));
    }
  }

  method SmoothDx(bars: seq<Candle>, period: int, dxs: seq<real>) returns (adx: seq<real>)
    requires period > 0 && |bars| >= 2 * period + 1 && |dxs| == |bars|
    requires forall j :: 0 <= j < |bars| ==> dxs[j] == DxLast(bars[..j + 1], period)
    ensures |adx| == |bars|
    ensures forall i :: 0 <= i < |bars| ==> adx[i] == AdxLast(bars[..i + 1], period)
  {
    hide DxLast;
    var n := |bars|;
    adx := seq(n, _ => 0.0);
    var sdx := 0.0;
    for i := period to 2 * period
      invariant sdx == DxSum(bars[..i], period)
    {
      Grow(bars, i);
      sdx := sdx + dxs[i];
    }
    adx := adx[2 * period - 1 := sdx / period as real];
    for i := 2 * period to n
      invariant |adx| == n
      invariant forall j :: 0 <= j < i ==> adx[j] == AdxLast(bars[..j + 1], period)
    {
      Grow(bars, i);
      adx := adx[i := Smooth(adx[i - 1], dxs[i], period)];
    }
  }

  // ---------- MACD, stochastic RSI ----------

  function MacdLast(p: seq<real>, fast: int, slow: int): real
    requires p != []
  {
    EmaLast(p, fast) - EmaLast(p, slow)
  }

  function MacdLine(p: seq<real>, fast: int, slow: int): seq<real> {
    seq(|p|, i requires 0 <= i < |p| => MacdLast(p[..i + 1], fast, slow))
  }

  method MacdSeries(closes: seq<real>, fast: int, slow: int, signal: int)
    returns (macd: seq<real>, sig: seq<real>, hist: seq<real>)
    ensures |macd| == |sig| == |hist| == |closes|
    ensures macd == MacdLine(closes, fast, slow)
    ensures forall i :: 0 <= i < |closes| ==>
              && sig[i] == EmaLast(MacdLine(closes[..i + 1], fast, slow), signal)
              && hist[i] == macd[i] - sig[i]
  {
    hide EmaLast;
    var n := |closes|;
    var fastEma := EmaSeries(closes, fast);
    var slowEma := EmaSeries(closes, slow);
    macd := seq(n, i requires 0 <= i < n => fastEma[i] - slowEma[i]);
    assert macd == MacdLine(closes, fast, slow);
    sig := EmaSeries(macd, signal);
    forall m | 0 <= m <= n
      ensures MacdLine(closes[..m], fast, slow) == macd[..m]
    {
      MacdLineTake(closes, fast, slow, m);
    }
    hist := seq(n, i requires 0 <= i < n => macd[i] - sig[i]);
  }

  lemma MacdLineTake(p: seq<real>, fast: int, slow: int, m: nat)
    requires m <= |p|
    ensures MacdLine(p[..m], fast, slow) == MacdLine(p, fast, slow)[..m]
  {
    hide EmaLast;
    TakeTake(p, m);
  }

  function RsiLine(p: seq<real>, period: int): seq<real> {
    seq(|p|, i requires 0 <= i < |p| => RsiLast(p[..i + 1], period))
  }

  function Lowest(xs: seq<real>): real
    requires xs != []
  {
    if |xs| == 1 then xs[0] else Min(Lowest(Front(xs)), Last(xs))
  }

  function Highest(xs: seq<real>): real
    requires xs != []
  {
    if |xs| == 1 then xs[0] else Max(Highest(Front(xs)), Last(xs))
  }

  /** Where the current RSI lies in its window, before smoothing. */
  function StochLast(p: seq<real>, period: int): real
    requires p != [] && period > 0
  {
    if |p| - 1 < period then 50.0
    else
      var window := RsiLine(p, period)[|p| - period..];
      var lo, hi := Lowest(window), Highest(window);
      if hi - lo > 0.0 then (RsiLast(p, period) - lo) / (hi - lo) * 100.0 else 50.0
  }

  function StochLine(p: seq<real>, period: int): seq<real>
    requires period > 0
  {
    seq(|p|, i requires 0 <= i < |p| => StochLast(p[..i + 1], period))
  }

  method StochRsiSeries(closes: seq<real>, period: int, smooth: int) returns (out: seq<real>)
    requires period > 0
    ensures |out| == |closes|
    ensures forall i :: 0 <= i < |closes| ==> out[i] == SmaLast(StochLine(closes[..i + 1], period), smooth)
  {
    hide RsiLast, SmaLast;
    var n := |closes|;
    var r := RsiSeries(closes, period);
    assert r == RsiLine(closes, period);
    var st := seq(n, _ => 50.0);
    for i := 0 to n
      invariant |st| == n
      invariant forall j :: 0 <= j < i ==> st[j] == StochLast(closes[..j + 1], period)
      invariant forall j :: i <= j < n ==> st[j] == 50.0
    {
      if i < period {
        continue;
      }
      RsiLineTake(closes, period, i + 1);
      var window := r[i - period + 1..i + 1];
      assert window == RsiLine(closes[..i + 1], period)[i + 1 - period..];
      var lo, hi := Lowest(window), Highest(window);
      st := st[i := if hi - lo > 0.0 then (r[i] - lo) / (hi - lo) * 100.0 else 50.0];
    }
    assert st == StochLine(closes, period);
    out := SmaSeries(st, smooth);
    forall m | 0 <= m <= n
      ensures st[..m] == StochLine(closes[..m], period)
    {
      StochLineTake(closes, period, m);
    }
  }

  lemma RsiLineTake(p: seq<real>, period: int, m: nat)
    requires m <= |p|
    ensures RsiLine(p[..m], period) == RsiLine(p, period)[..m]
  {
    hide RsiLast;
    TakeTake(p, m);
  }

  lemma StochLineTake(p: seq<real>, period: int, m: nat)
    requires m <= |p| && period > 0
    ensures StochLine(p[..m], period) == StochLine(p, period)[..m]
  {
    hide StochLast;
    TakeTake(p, m);
  }

  // ---------- SuperTrend ----------

  /** The running bands, the line and the direction; `None` before the first bar. */
  datatype TrendState = TrendState(upper: Option<real>, lower: Option<real>, line: Option<real>, dir: int)

  function NextTrend(s: TrendState, bar: Candle, prevClose: Option<real>, atr: real, multiplier: real): TrendState {
    var mid := (bar.high + bar.low) / 2.0;
    var up, dn := mid + multiplier * atr, mid - multiplier * atr;
    var upper :=
      if s.upper.None? || up < s.upper.value || (prevClose.Some? && prevClose.value > s.upper.value) then up
      else s.upper.value;
    var lower :=
      if s.lower.None? || dn > s.lower.value || (prevClose.Some? && prevClose.value < s.lower.value) then dn
      else s.lower.value;
    var line :=
      if s.line.None? then lower
      else if s.line == s.upper then (if bar.close > upper then lower else upper)
      else if bar.close < lower then upper
      else lower;
    var dir := if s.line != Some(line) then (if bar.close > line then 1 else -1) else s.dir;
    TrendState(Some(upper), Some(lower), Some(line), dir)
  }

  function PrevClose(p: seq<Candle>): Option<real>
    requires p != []
  {
    if |p| >= 2 then Some(p[|p| - 2].close) else None
  }

  function TrendLast(p: seq<Candle>, period: int, multiplier: real): TrendState {
    if p == [] then TrendState(None, None, None, 1)
    else NextTrend(TrendLast(Front(p), period, multiplier), Last(p), PrevClose(p), AtrLast(p, period), multiplier)
  }

  method SupertrendSeries(bars: seq<Candle>, period: int, multiplier: real)
    returns (line: seq<real>, direction: seq<int>)
    ensures |line| == |direction| == |bars|
    ensures forall i :: 0 <= i < |bars| ==>
              var s := TrendLast(bars[..i + 1], period, multiplier);
              s.line == Some(line[i]) && s.dir == direction[i]
  {
    hide AtrLast;
    var n := |bars|;
    var at := AtrSeries(bars, period);
    line, direction := seq(n, _ => 0.0), seq(n, _ => 1);
    var s := TrendState(None, None, None, 1);
    for i := 0 to n
      invariant |line| == |direction| == n && s == TrendLast(bars[..i], period, multiplier)
      invariant forall j :: 0 <= j < i ==>
                  var sj := TrendLast(bars[..j + 1], period, multiplier);
                  sj.line == Some(line[j]) && sj.dir == direction[j]
    {
      Grow(bars, i);
      assert PrevClose(bars[..i + 1]) == if i > 0 then Some(bars[i - 1].close) else None;
      s := NextTrend(s, bars[i], if i > 0 then Some(bars[i - 1].close) else None, at[i], multiplier);
      line := line[i := s.line.value];
      direction := direction[i := s.dir];
    }
  }

  // ---------- volume ----------

  function ObvLast(p: seq<Candle>): real {
    if |p| < 2 then 0.0
    else
      var o, now, prev := ObvLast(Front(p)), Last(p), p[|p| - 2];
      if now.close > prev.close then o + now.volume
      else if now.close < prev.close then o - now.volume
      else o
  }

  function ObvLine(p: seq<Candle>): seq<real> {
    seq(|p|, i requires 0 <= i < |p| => ObvLast(p[..i + 1]))
  }

  method ObvSeries(bars: seq<Candle>) returns (out: seq<real>)
    ensures out == ObvLine(bars)
  {
    var n := |bars|;
    out := seq(n, _ => 0.0);
    if n == 0 {
      return;
    }
    var o := 0.0;
    for i := 1 to n
      invariant |out| == n && o == ObvLast(bars[..i])
      invariant forall j :: 0 <= j < i ==> out[j] == ObvLast(bars[..j + 1])
    {
      Grow(bars, i);
      if bars[i].close > bars[i - 1].close {
        o := o + bars[i].volume;
      } else if bars[i].close < bars[i - 1].close {
        o := o - bars[i].volume;
      }
      out := out[i := o];
    }
  }

  lemma ObvLineTake(p: seq<Candle>, m: nat)
    requires m <= |p|
    ensures ObvLine(p[..m]) == ObvLine(p)[..m]
  {
    hide ObvLast;
    TakeTake(p, m);
  }

  function UtcDay(time: int): int {
    (if time < 100000000000 then time * 1000 else time) / 86400000
  }

  /** The running sums of the current UTC day. */
  datatype DaySums = DaySums(day: int, pv: real, vv: real)

  function NextDaySums(s: DaySums, bar: Candle): DaySums {
    var day := UtcDay(bar.time);
    var t := if day != s.day then DaySums(day, 0.0, 0.0) else s;
    t.(pv := t.pv + Hlc3(bar) * bar.volume, vv := t.vv + bar.volume)
  }

  function Hlc3(bar: Candle): real {
    (bar.high + bar.low + bar.close) / 3.0
  }

  function DaySumsOf(p: seq<Candle>): DaySums {
    if p == [] then DaySums(-1, 0.0, 0.0) else NextDaySums(DaySumsOf(Front(p)), Last(p))
  }

  function VwapLast(p: seq<Candle>): real
    requires p != []
  {
    var s := DaySumsOf(p);
    if s.vv > 0.0 then s.pv / s.vv else Hlc3(Last(p))
  }

  method VwapSeries(bars: seq<Candle>) returns (out: seq<real>)
    ensures |out| == |bars|
    ensures forall i :: 0 <= i < |bars| ==> out[i] == VwapLast(bars[..i + 1])
  {
    var n := |bars|;
    out := seq(n, _ => 0.0);
    var s := DaySums(-1, 0.0, 0.0);
    for i := 0 to n
      invariant |out| == n && s == DaySumsOf(bars[..i])
      invariant forall j :: 0 <= j < i ==> out[j] == VwapLast(bars[..j + 1])
    {
      hide NextDaySums, Hlc3;
      Grow(bars, i);
      s := NextDaySums(s, bars[i]);
      out := out[i := if s.vv > 0.0 then s.pv / s.vv else Hlc3(bars[i])];
    }
  }

  function BarDelta(bar: Candle): real {
    var rng := bar.high - bar.low;
    if rng > 0.0 then bar.volume * (2.0 * bar.close - bar.high - bar.low) / rng else 0.0
  }

  function CvdLast(p: seq<Candle>): real {
    if p == [] then 0.0 else CvdLast(Front(p)) + BarDelta(Last(p))
  }

  function CvdLine(p: seq<Candle>): seq<real> {
    seq(|p|, i requires 0 <= i < |p| => CvdLast(p[..i + 1]))
  }

  method CvdSeries(bars: seq<Candle>) returns (cvd: seq<real>)
    ensures cvd == CvdLine(bars)
  {
    var n := |bars|;
    cvd := seq(n, _ => 0.0);
    var cum := 0.0;
    for i := 0 to n
      invariant |cvd| == n && cum == CvdLast(bars[..i])
      invariant forall j :: 0 <= j < i ==> cvd[j] == CvdLast(bars[..j + 1])
    {
      Grow(bars, i);
      cum := cum + BarDelta(bars[i]);
      cvd := cvd[i := cum];
    }
  }

  lemma CvdLineTake(p: seq<Candle>, m: nat)
    requires m <= |p|
    ensures CvdLine(p[..m]) == CvdLine(p)[..m]
  {
    hide CvdLast;
    TakeTake(p, m);
  }
}
