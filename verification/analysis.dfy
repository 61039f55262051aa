/** `analyze_candles` (aura/core/scoring.py) as one pass over the bars, and why it never looks ahead. */
module Analyzer {
  import opened Wrappers
  import opened Indicators
  import opened Scoring
  import opened Wilder
  import opened Zones

  // ---------- the indicator values of every bar ----------

  lemma ListsTake(bars: seq<Candle>, m: nat)
    requires m <= |bars|
    ensures Closes(bars[..m]) == Closes(bars)[..m] && Volumes(bars[..m]) == Volumes(bars)[..m]
  {
  }

  /** The inputs of a bar; a series that is too short for the directional index reports none. */
  function InputsIn(bars: seq<Candle>, i: nat): Inputs
    requires i < |bars|
  {
    var x := InputsOf(bars[..i + 1]);
    if AdxDefined(|bars|, 14) then x else x.(adx := 0.0)
  }

  method ComputeInputs(bars: seq<Candle>) returns (xs: seq<Inputs>)
    ensures |xs| == |bars|
    ensures forall i :: 0 <= i < |bars| ==> xs[i] == InputsIn(bars, i)
  {
    hide EmaLast, SmaLast, RsiLast, AtrLast, AdxLast, TrendLast, ObvLast, VwapLast, CvdLast, StochLast, MovementOf,
         Percent,
         Closes, Volumes, StochLine, ObvLine, CvdLine, MacdLine;
    var n := |bars|;
    var closes, volumes := Closes(bars), Volumes(bars);
    LineLengths(bars);
    var e20 := EmaSeries(closes, 20);
    var e50 := EmaSeries(closes, 50);
    var e200 := EmaSeries(closes, 200);
    var rsi := RsiSeries(closes, 14);
    var stoch := StochRsiSeries(closes, 14, 3);
    var macd, signal, hist := MacdSeries(closes, 12, 26, 9);
    var adx, _, _ := AdxSeries(bars, 14);
    var atr := AtrSeries(bars, 14);
    var _, stDir := SupertrendSeries(bars, 10, 3.0);
    var obv := ObvSeries(bars);
    var obvEma := EmaSeries(obv, 20);
    var vwap := VwapSeries(bars);
    var volumeSma := SmaSeries(volumes, 20);
    var cvd := CvdSeries(bars);
    var cvdEma := EmaSeries(cvd, 20);
    xs := seq(n, i requires 0 <= i < n =>
      Inputs(bars[i], e20[i], e50[i], e200[i], rsi[i], stoch[i], macd[i], signal[i], hist[i], adx[i], atr[i], stDir[i],
             obv[i], obvEma[i], vwap[i], volumeSma[i], cvd[i], cvdEma[i]));
    forall i | 0 <= i < n
      ensures xs[i] == InputsIn(bars, i)
    {
      ListsTake(bars, i + 1);
      ObvLineTake(bars, i + 1);
      CvdLineTake(bars, i + 1);
      MacdLineTake(closes, 12, 26, i + 1);
      Grow(bars, i);
      VolumeLinesAt(bars, i);
    }
  }

  lemma LineLengths(bars: seq<Candle>)
    ensures |Closes(bars)| == |Volumes(bars)| == |ObvLine(bars)| == |CvdLine(bars)| == |bars|
    ensures |MacdLine(Closes(bars), 12, 26)| == |bars|
  {
  }

  lemma VolumeLinesAt(bars: seq<Candle>, i: nat)
    requires i < |bars|
    ensures |ObvLine(bars)| == |CvdLine(bars)| == |bars|
    ensures ObvLine(bars)[i] == ObvLast(bars[..i + 1]) && CvdLine(bars)[i] == CvdLast(bars[..i + 1])
  {
  }

  // ---------- the pass ----------

  /** The next unread pivot is the one that bar i confirms, if it confirms one, and belongs to a later bar otherwise. */
  lemma NextPivots(bars: seq<Candle>, i: nat)
    requires i < |bars|
    ensures NextPivot(HighPivots(bars, 5, 5), |HighPivots(bars[..i], 5, 5)|, |HighPivots(bars[..i + 1], 5, 5)|, i,
                      PivotHigh(bars[..i + 1], 5, 5))
    ensures NextPivot(LowPivots(bars, 5, 5), |LowPivots(bars[..i], 5, 5)|, |LowPivots(bars[..i + 1], 5, 5)|, i,
                      PivotLow(bars[..i + 1], 5, 5))
  {
    hide PivotHigh, PivotLow;
    var p := bars[..i + 1];
    Grow(bars, i);
    PivotsOfPrefix(bars, i, 5, 5);
    PivotsOfPrefix(bars, i + 1, 5, 5);
  }

  predicate NextPivot(all: seq<Pivot>, k: nat, next: nat, i: int, val: Option<real>) {
    && next <= |all|
    && (if val.Some? then next == k + 1 && all[k] == Pivot(i, val.value) else next == k)
    && (next < |all| ==> all[next].i > i)
  }

  method ReadHighs(ph: seq<Pivot>, start: nat, i: int, s: Structure, ghost next: nat, ghost val: Option<real>)
    returns (pi: nat, t: Structure)
    requires NextPivot(ph, start, next, i, val)
    ensures pi == next && t == if val.Some? then AddHigh(s, val.value) else s
  {
    hide AddHigh;
    pi, t := start, s;
    while pi < |ph| && ph[pi].i == i
      invariant start <= pi <= next
      invariant t == if pi == start then s else AddHigh(s, ph[start].val)
      decreases |ph| - pi
    {
      t := AddHigh(t, ph[pi].val);
      pi := pi + 1;
    }
  }

  method ReadLows(pl: seq<Pivot>, start: nat, i: int, s: Structure, ghost next: nat, ghost val: Option<real>)
    returns (pj: nat, t: Structure)
    requires NextPivot(pl, start, next, i, val)
    ensures pj == next && t == if val.Some? then AddLow(s, val.value) else s
  {
    hide AddLow;
    pj, t := start, s;
    while pj < |pl| && pl[pj].i == i
      invariant start <= pj <= next
      invariant t == if pj == start then s else AddLow(s, pl[start].val)
      decreases |pl| - pj
    {
      t := AddLow(t, pl[pj].val);
      pj := pj + 1;
    }
  }

  /** The structure of one more bar: age, read its pivots, then book the breaks. */
  method AdvanceStructure(bars: seq<Candle>, i: nat, s: Structure, ph: seq<Pivot>, pl: seq<Pivot>, pi: nat, pj: nat)
    returns (t: Structure, pi': nat, pj': nat)
    requires i < |bars| && s == StructureOf(bars[..i])
    requires ph == HighPivots(bars, 5, 5) && pl == LowPivots(bars, 5, 5)
    requires pi == |HighPivots(bars[..i], 5, 5)| && pj == |LowPivots(bars[..i], 5, 5)|
    ensures t == StructureOf(bars[..i + 1])
    ensures pi' == |HighPivots(bars[..i + 1], 5, 5)| && pj' == |LowPivots(bars[..i + 1], 5, 5)|
  {
    hide PivotHigh, PivotLow, HighPivots, LowPivots, AddHigh, AddLow, NextPivot, BullBreak, BearBreak, BullBroken,
         BearBroken;
    ghost var p := bars[..i + 1];
    Grow(bars, i);
    NextPivots(bars, i);
    var prev := if i > 0 then Some(bars[i - 1].close) else None;
    assert prev == PrevClose(p);
    var bull := BullBreak(s, bars[i].close, prev);
    var bear := BearBreak(s, bars[i].close, prev);
    t := Aged(s);
    pi', t := ReadHighs(ph, pi, i, t, |HighPivots(p, 5, 5)|, PivotHigh(p, 5, 5));
    pj', t := ReadLows(pl, pj, i, t, |LowPivots(p, 5, 5)|, PivotLow(p, 5, 5));
    if bull {
      t := BullBroken(t);
    }
    if bear {
      t := BearBroken(t);
    }
  }

  /** What the caller reads off the last bar. */
  datatype Summary = Summary(reading: BarReading, adx: real, rsi: real)

  datatype AnalysisResult = AnalysisResult(
    inputs: seq<Inputs>, readings: seq<BarReading>, zones: seq<Zone>, last: Option<Summary>)

  predicate Summarizes(r: AnalysisResult) {
    && |r.inputs| == |r.readings|
    && if r.readings == [] then r.last.None?
       else r.last == Some(Summary(Last(r.readings), Last(r.inputs).adx, Last(r.inputs).rsi))
  }

  method AnalyzeCandles(bars: seq<Candle>) returns (result: Option<AnalysisResult>)
    ensures result.Some? <==> Analysis(bars).Some?
    ensures result.Some? ==>
              && result.value.readings == Analysis(bars).value && result.value.zones == ZonesOf(bars)
              && Summarizes(result.value)
              && forall i :: 0 <= i < |bars| ==> result.value.inputs[i] == InputsIn(bars, i)
  {
    hide InputsOf, StructureOf, GapOf, HighPivots, LowPivots, ScoresOf, EqualLevel, Scorable, Reading, NextZones,
         ZonesOf;
    var n := |bars|;
    var xs := ComputeInputs(bars);
    var ph, pl := SwingPivots(bars, 5, 5);
    var warmup := EffectiveWarmup(n);
    var s, g, zones := FIRST_STRUCTURE, NO_GAP, [];
    var pi: nat, pj: nat := 0, 0;
    var readings: seq<BarReading> := [];
    BeforeFirst(bars);
    for i := 0 to n
      invariant s == StructureOf(bars[..i]) && g == GapOf(bars[..i]) && zones == ZonesOf(bars[..i])
      invariant pi == |HighPivots(bars[..i], 5, 5)| && pj == |LowPivots(bars[..i], 5, 5)|
      invariant |readings| == i
      invariant forall j :: 0 <= j < i ==> IsReading(bars, j, warmup, readings[j])
    {
      var p := bars[..i + 1];
      s, pi, pj := AdvanceStructure(bars, i, s, ph, pl, pi, pj);
      GapStep(bars, i);
      g := NextGap(g, p);
      zones := AdvanceZones(zones, bars, i);
      var x := xs[i];
      var eqh := FindEqualLevel(s.highs, x.atr, x.bar.close, true);
      var eql := FindEqualLevel(s.lows, x.atr, x.bar.close, false);
      var scored := i >= warmup;
      ReadingStep(bars, i, scored);
      if scored && VolumeRef(x) == 0.0 {
        assert !Scorable(p, warmup);
        return None;
      }
      readings := readings + [
        BarReading(
          if scored then ScoresOf(x, s, g, eqh, eql) else NEUTRAL, x.atr, x.stDir, s.lastHigh, s.lastLow, s.trend,
          eqh, eql, g.top, g.bot, g.dir, g.active)];
    }
    assert bars[..n] == bars;
    AllRead(bars, warmup, readings);
    var last := if n == 0 then None else Some(Summary(readings[n - 1], xs[n - 1].adx, xs[n - 1].rsi));
    result := Some(AnalysisResult(xs, readings, zones, last));
  }

  lemma AllRead(bars: seq<Candle>, warmup: int, readings: seq<BarReading>)
    requires warmup == EffectiveWarmup(|bars|) && |readings| == |bars|
    requires forall j :: 0 <= j < |bars| ==> IsReading(bars, j, warmup, readings[j])
    ensures Analysis(bars) == Some(readings)
  {
    hide Scorable, Reading;
    forall m | 0 < m <= |bars|
      ensures Scorable(bars[..m], warmup)
    {
      assert IsReading(bars, m - 1, warmup, readings[m - 1]);
    }
    assert |Analysis(bars).value| == |bars|;
    forall j | 0 <= j < |bars|
      ensures readings[j] == Analysis(bars).value[j]
    {
      assert IsReading(bars, j, warmup, readings[j]);
    }
    assert readings == Analysis(bars).value;
  }

  ghost predicate IsReading(bars: seq<Candle>, j: int, warmup: int, r: BarReading) {
    0 <= j < |bars| && Scorable(bars[..j + 1], warmup) && r == Reading(bars[..j + 1], warmup)
  }

  lemma BeforeFirst(bars: seq<Candle>)
    ensures StructureOf(bars[..0]) == FIRST_STRUCTURE && GapOf(bars[..0]) == NO_GAP
    ensures HighPivots(bars[..0], 5, 5) == [] && LowPivots(bars[..0], 5, 5) == [] && ZonesOf(bars[..0]) == []
  {
  }

  lemma GapStep(bars: seq<Candle>, i: nat)
    requires i < |bars|
    ensures GapOf(bars[..i + 1]) == NextGap(GapOf(bars[..i]), bars[..i + 1])
    ensures ZonesOf(bars[..i + 1]) == NextZones(ZonesOf(bars[..i]), bars[..i + 1])
  {
    hide NextZones;
    Grow(bars, i);
  }

  /** The reading of bar i in terms of the values the pass has at hand. */
  lemma ReadingStep(bars: seq<Candle>, i: nat, scored: bool)
    requires i < |bars| && scored == (i >= EffectiveWarmup(|bars|))
    ensures var p, x, warmup := bars[..i + 1], InputsIn(bars, i), EffectiveWarmup(|bars|);
            && (Scorable(p, warmup) <==> (scored ==> VolumeRef(x) != 0.0))
            && (Scorable(p, warmup) ==> IsReading(bars, i, warmup, ReadingFrom(x, StructureOf(p), GapOf(p), scored)))
  {
    hide InputsOf, StructureOf, GapOf, ScoresOf, EqualLevel;
  }

  // ---------- no look-ahead ----------

  /** Two series that share their first m bars and lie on the same side of the warm-up length have the same
      readings at every index below m. */
  lemma NoLookAhead(a: seq<Candle>, b: seq<Candle>, m: nat)
    requires m <= |a| && m <= |b| && a[..m] == b[..m]
    requires |a| < WARMUP_DEFAULT <==> |b| < WARMUP_DEFAULT
    requires Analysis(a).Some? && Analysis(b).Some?
    ensures Analysis(a).value[..m] == Analysis(b).value[..m]
  {
    hide Scorable, Reading;
    TakeTake(a, m);
    TakeTake(b, m);
    assert forall i :: 0 <= i <= m ==> a[..m][..i] == a[..i] && b[..m][..i] == b[..i];
  }

  /** An analysis that succeeds also succeeds on every prefix on the same side of the warm-up length. */
  lemma PrefixSucceeds(bars: seq<Candle>, m: nat)
    requires m <= |bars| && Analysis(bars).Some?
    requires m < WARMUP_DEFAULT <==> |bars| < WARMUP_DEFAULT
    ensures Analysis(bars[..m]).Some?
  {
    hide Scorable, Reading;
    TakeTake(bars, m);
    assert forall i :: 0 <= i <= m ==> bars[..m][..i] == bars[..i];
  }

  /** The four votes on the last bar of a prefix are tied. */
  ghost predicate VotesTie(p: seq<Candle>)
    requires p != []
  {
    var x, s, g := InputsOf(p), StructureOf(p), GapOf(p);
    var close := x.bar.close;
    && TrendTie(x) && MomentumTie(x) && VolumeTie(x)
    && StructureTie(s, g, EqualLevel(s.highs, x.atr, close, true), EqualLevel(s.lows, x.atr, close, false), close)
  }

  /** Across the warm-up length only the scores can change: at index i they agree exactly when the bar lies before
      the short warm-up or its votes are tied. */
  lemma AcrossWarmup(p: seq<Candle>)
    requires 0 < |p| <= WARMUP_DEFAULT
    requires Scorable(p, SHORT_WARMUP)
    ensures var short, long := Reading(p, SHORT_WARMUP), Reading(p, WARMUP_DEFAULT);
            && short.(scores := NEUTRAL) == long.(scores := NEUTRAL)
            && (short == long <==> |p| <= SHORT_WARMUP || VotesTie(p))
  {
    var x, s, g := InputsOf(p), StructureOf(p), GapOf(p);
    assert x.bar == Last(p) && x.hist == x.macd - x.signal;
    hide InputsOf, StructureOf, GapOf, ScoresOf, EqualLevel, TrendTie, MomentumTie, VolumeTie, StructureTie;
    if |p| > SHORT_WARMUP {
      NeutralExactly(x, s, g, EqualLevel(s.highs, x.atr, x.bar.close, true),
                     EqualLevel(s.lows, x.atr, x.bar.close, false));
    }
  }

  /** The directional index of a bar depends on how long the series is, and only on the last bar a series of
      2 * period bars can have: everywhere else its value is that of the prefix. There it is too if the index is zero,
      which for proper bars means that the movements of the series are balanced. */
  lemma AdxLooksAheadAtOneBar(bars: seq<Candle>, period: int, i: nat)
    requires i < |bars| && period > 0
    ensures (if AdxDefined(|bars|, period) then AdxLast(bars[..i + 1], period) else 0.0) ==
            AdxLast(bars[..i + 1], period)
            <==> |bars| != 2 * period || i != |bars| - 1 || AdxLast(bars, period) == 0.0
    ensures |bars| == 2 * period && ProperBars(bars) ==> (AdxLast(bars, period) == 0.0 <==> Balanced(bars, period))
  {
    hide DxSum, DxLast, Smooth, Balanced;
    if i == |bars| - 1 {
      assert bars[..i + 1] == bars;
    }
    if |bars| == 2 * period && ProperBars(bars) { FirstAdxZeroExactly(bars, period); }
  }

  // ---------- a series that the warm-up length does change ----------

  predicate Flat(p: seq<Candle>, bar: Candle) {
    bar.high == bar.low == bar.close && forall i :: 0 <= i < |p| ==> p[i] == bar
  }

  lemma {:induction false} FlatEma(p: seq<real>, x: real, period: int)
    requires p != [] && period > 0 && forall i :: 0 <= i < |p| ==> p[i] == x
    ensures EmaLast(p, period) == x
  {
    if |p| > 1 {
      FlatEma(Front(p), x, period);
      var k := 2.0 / (period as real + 1.0);
      assert x * k + x * (1.0 - k) == x;
    }
  }

  lemma {:induction false} FlatMovement(p: seq<Candle>, bar: Candle)
    requires Flat(p, bar)
    ensures MovementOf(p, 14) == Movement(0.0, 0.0, 0.0)
  {
    if |p| >= 2 {
      FlatMovement(Front(p), bar);
    }
  }

  lemma {:induction false} FlatAdx(p: seq<Candle>, bar: Candle)
    requires Flat(p, bar)
    ensures DxSum(p, 14) == 0.0 && AdxLast(p, 14) == 0.0
  {
    FlatMovement(p, bar);
    if p != [] {
      FlatAdx(Front(p), bar);
    }
  }

  /** A flat series scores bearish as soon as it is scored at all, so its reading at such a bar changes when the
      series grows past the warm-up length. */
  lemma FlatSeriesChanges(p: seq<Candle>, bar: Candle)
    requires SHORT_WARMUP < |p| <= WARMUP_DEFAULT && Flat(p, bar) && bar.volume > 0.0
    ensures Scorable(p, SHORT_WARMUP) && Reading(p, SHORT_WARMUP) != Reading(p, WARMUP_DEFAULT)
  {
    var x := InputsOf(p);
    FlatEma(Closes(p), bar.close, 20);
    FlatEma(Closes(p), bar.close, 50);
    FlatEma(Closes(p), bar.close, 200);
    FlatAdx(p, bar);
    assert TrendScore(x) < 50.0;
    hide EmaLast, AdxLast, StructureOf, GapOf, VolumeScore, MomentumScore, StructureScore, TrendScore, EqualLevel;
    AcrossWarmup(p);
  }
}
