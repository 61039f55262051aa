/** Probability calibration and trade statistics (aura/core/stats.py): the bins, the calibrated curve and the
    drawdown loop. */
module Calibration {
  import opened Wrappers
  import opened Indicators
  import opened Pava

  const BINS := 10

  datatype Result = StillOpen | Won | Lost | Unknown

  datatype OosTrade = OosTrade(score: real, dir: int, result: Result)

  function BinOf(score: real): int {
    MinInt(BINS - 1, MaxInt(0, (score / 10.0).Floor))
  }

  predicate Counted(t: OosTrade, b: int) {
    !t.result.StillOpen? && BinOf(t.score) == b
  }

  /** A win of a long or a loss of a short speaks for rising prices. */
  predicate Bullish(t: OosTrade) {
    (t.dir == 1 && t.result.Won?) || (t.dir == -1 && t.result.Lost?)
  }

  function CountIn(trades: seq<OosTrade>, b: int): (n: nat)
    ensures n <= |trades|
  {
    if trades == [] then 0 else CountIn(Front(trades), b) + if Counted(Last(trades), b) then 1 else 0
  }

  function BullsIn(trades: seq<OosTrade>, b: int): (n: nat)
    ensures n <= CountIn(trades, b)
  {
    if trades == [] then 0
    else BullsIn(Front(trades), b) + if Counted(Last(trades), b) && Bullish(Last(trades)) then 1 else 0
  }

  /** Two pseudo-trades at the prior, plus the counted trades of the bin. */
  function BinOfTrades(trades: seq<OosTrade>, prior: seq<real>, b: nat): Block
    requires |prior| == BINS && b < BINS
  {
    var count := 2.0 + CountIn(trades, b) as real;
    Block((b as real + 0.5) * 10.0, count, (2.0 * prior[b] + BullsIn(trades, b) as real) / count)
  }

  predicate Prior(prior: seq<real>) {
    |prior| == BINS && forall b :: 0 <= b < BINS ==> 0.0 < prior[b] < 1.0
  }

  method FillBins(trades: seq<OosTrade>, prior: seq<real>) returns (bins: seq<Block>)
    requires Prior(prior)
    ensures |bins| == BINS
    ensures forall b :: 0 <= b < BINS ==> bins[b] == BinOfTrades(trades, prior, b)
  {
    var counts := seq(BINS, _ => 2.0);
    var wins := seq(BINS, b requires 0 <= b < BINS => 2.0 * prior[b]);
    for i := 0 to |trades|
      invariant |counts| == |wins| == BINS
      invariant forall b :: 0 <= b < BINS ==>
                  && counts[b] == 2.0 + CountIn(trades[..i], b) as real
                  && wins[b] == 2.0 * prior[b] + BullsIn(trades[..i], b) as real
    {
      Grow(trades, i);
      var t := trades[i];
      if t.result.StillOpen? {
        continue;
      }
      var b := BinOf(t.score);
      counts := counts[b := counts[b] + 1.0];
      if Bullish(t) {
        wins := wins[b := wins[b] + 1.0];
      }
    }
    assert trades[..|trades|] == trades;
    bins := seq(BINS, b requires 0 <= b < BINS => Block((b as real + 0.5) * 10.0, counts[b], wins[b] / counts[b]));
  }

  /** Every bin has positive weight and a mean strictly between 0 and 1, and the centres increase. */
  lemma BinsAreProper(trades: seq<OosTrade>, prior: seq<real>, bins: seq<Block>)
    requires Prior(prior) && |bins| == BINS
    requires forall b :: 0 <= b < BINS ==> bins[b] == BinOfTrades(trades, prior, b)
    ensures PositiveWeights(bins) && IncreasingCentres(bins)
    ensures forall b :: 0 <= b < BINS ==> 0.0 < bins[b].y < 1.0
  {
    forall b | 0 <= b < BINS
      ensures bins[b].w > 0.0 && bins[b].s == (b as real + 0.5) * 10.0 && 0.0 < bins[b].y < 1.0
    {
      var count, wins := 2.0 + CountIn(trades, b) as real, 2.0 * prior[b] + BullsIn(trades, b) as real;
      Quotient(0.0, wins, count);
      Quotient(1.0, wins, count);
    }
  }

  /** The calibration: fill the bins, then pool them. */
  method Calibrate(trades: seq<OosTrade>, prior: seq<real>)
    returns (blocks: seq<Block>, ghost groups: seq<seq<Block>>, ghost bins: seq<Block>)
    requires Prior(prior)
    ensures |bins| == BINS && forall b :: 0 <= b < BINS ==> bins[b] == BinOfTrades(trades, prior, b)
    ensures Pooling(blocks, groups, bins) && ProperCurve(blocks)
    ensures forall x: seq<real> :: |x| == |bins| && NonDecreasing(x) ==>
              |Fit(blocks, groups)| == |bins| && Cost(bins, Fit(blocks, groups)) <= Cost(bins, x)
  {
    hide Pooling, Cost, NonDecreasing, BinOfTrades;
    var filled := FillBins(trades, prior);
    bins := filled;
    BinsAreProper(trades, prior, bins);
    blocks, groups := PoolViolators(filled);
    PavaIsOptimal(blocks, groups, bins);
    PooledIsNotEmpty(blocks, groups, bins);
  }

  lemma PooledIsNotEmpty(blocks: seq<Block>, groups: seq<seq<Block>>, bins: seq<Block>)
    requires Pooling(blocks, groups, bins) && bins != []
    ensures blocks != []
  {
  }

  // ---------- the calibrated curve ----------

  /** What the loop hands to the curve: at least one block, increasing centres, non-decreasing means. */
  predicate ProperCurve(blocks: seq<Block>) {
    blocks != [] && IncreasingCentres(blocks) && SortedUpTo(blocks, |blocks| - 1)
  }

  function Line(a: Block, b: Block, s: real): real {
    var denom := b.s - a.s;
    a.y + (s - a.s) / (if denom != 0.0 then denom else 1.0) * (b.y - a.y)
  }

  /** The first segment that contains the score; `None` is the loop running off its end. */
  function CurveFrom(blocks: seq<Block>, j: nat, s: real): Option<real>
    decreases |blocks| - j
  {
    if j + 1 >= |blocks| then None
    else if blocks[j].s <= s <= blocks[j + 1].s then Some(Line(blocks[j], blocks[j + 1], s))
    else CurveFrom(blocks, j + 1, s)
  }

  function Clip(p: real): real {
    Clamp(p, 0.05, 0.95)
  }

  function CurveAt(blocks: seq<Block>, s: real): Option<real>
    requires blocks != []
  {
    if s <= blocks[0].s then Some(blocks[0].y)
    else if s >= Last(blocks).s then Some(Last(blocks).y)
    else CurveFrom(blocks, 0, s)
  }

  /** The score as the curve reads it; a score that is not finite counts as 50. */
  function ReadScore(score: Option<real>): real {
    Clamp(if score.Some? then score.value else 50.0, 0.0, 100.0)
  }

  /** The calibrated probability of a score. */
  function Calibrated(blocks: seq<Block>, score: Option<real>): real
    requires blocks != []
  {
    var c := CurveAt(blocks, ReadScore(score));
    if c.Some? then Clip(c.value) else 0.5
  }

  /** Look the score up: the outer values beyond the outer centres, else the first segment that contains it. */
  method ProbLong(blocks: seq<Block>, score: Option<real>) returns (p: real)
    ensures blocks == [] ==> p == 0.5
    ensures blocks != [] ==> p == Calibrated(blocks, score)
  {
    hide Line;
    var s := ReadScore(score);
    if blocks == [] {
      return 0.5;
    }
    if s <= blocks[0].s {
      return Clip(blocks[0].y);
    }
    if s >= blocks[|blocks| - 1].s {
      return Clip(blocks[|blocks| - 1].y);
    }
    for j := 0 to |blocks| - 1
      invariant CurveAt(blocks, s) == CurveFrom(blocks, j, s)
    {
      if blocks[j].s <= s <= blocks[j + 1].s {
        return Clip(Line(blocks[j], blocks[j + 1], s));
      }
    }
    return 0.5;
  }

  lemma LineWithin(a: Block, b: Block, s: real)
    requires a.s < b.s && a.y <= b.y && a.s <= s <= b.s
    ensures a.y <= Line(a, b, s) <= b.y
  {
    var t := (s - a.s) / (b.s - a.s);
    Quotient(0.0, s - a.s, b.s - a.s);
    Quotient(1.0, s - a.s, b.s - a.s);
    MulMono(0.0, t, b.y - a.y);
    MulMono(t, 1.0, b.y - a.y);
  }

  lemma LineMonotone(a: Block, b: Block, s: real, s': real)
    requires a.s < b.s && a.y <= b.y && a.s <= s <= s' <= b.s
    ensures Line(a, b, s) <= Line(a, b, s')
  {
    var d := b.s - a.s;
    var t, t' := (s - a.s) / d, (s' - a.s) / d;
    DivMul(s - a.s, d);
    DivMul(s' - a.s, d);
    ScaledOrder(t, t', d);
    MulMono(t, t', b.y - a.y);
  }

  /** A score between the outer centres lies in a segment, so the loop never runs off its end. */
  lemma {:induction false} SegmentOf(blocks: seq<Block>, j: nat, s: real) returns (k: nat)
    requires ProperCurve(blocks) && j + 1 < |blocks| && blocks[j].s <= s <= Last(blocks).s
    ensures j <= k && k + 1 < |blocks| && blocks[k].s <= s <= blocks[k + 1].s
    ensures CurveFrom(blocks, j, s) == Some(Line(blocks[k], blocks[k + 1], s))
    ensures j < k ==> blocks[k].s < s
    decreases |blocks| - j
  {
    hide Line;
    if s <= blocks[j + 1].s {
      k := j;
    } else {
      k := SegmentOf(blocks, j + 1, s);
    }
  }

  lemma SegmentsOrdered(blocks: seq<Block>, k: nat, s: real, k': nat, s': real)
    requires ProperCurve(blocks) && k + 1 < |blocks| && k' + 1 < |blocks|
    requires blocks[k].s <= s <= blocks[k + 1].s && blocks[k'].s <= s' <= blocks[k' + 1].s && s <= s'
    requires k <= k'
    ensures Line(blocks[k], blocks[k + 1], s) <= Line(blocks[k'], blocks[k' + 1], s')
  {
    if k == k' {
      SortedChain(blocks, k, k + 1);
      LineMonotone(blocks[k], blocks[k + 1], s, s');
    } else {
      SortedChain(blocks, k, k + 1);
      SortedChain(blocks, k + 1, k');
      SortedChain(blocks, k', k' + 1);
      LineWithin(blocks[k], blocks[k + 1], s);
      LineWithin(blocks[k'], blocks[k' + 1], s');
    }
  }

  lemma CentreOrder(blocks: seq<Block>, i: nat, j: nat)
    requires IncreasingCentres(blocks) && i < |blocks| && j < |blocks|
    ensures i <= j <==> blocks[i].s <= blocks[j].s
  {
  }

  /** The curve is total and does not decrease in the score. */
  lemma CurveIsMonotone(blocks: seq<Block>, s: real, s': real)
    requires ProperCurve(blocks) && s <= s'
    ensures CurveAt(blocks, s).Some? && CurveAt(blocks, s').Some?
    ensures CurveAt(blocks, s).value <= CurveAt(blocks, s').value
    ensures blocks[0].y <= CurveAt(blocks, s).value <= Last(blocks).y
  {
    hide Line;
    var n := |blocks|;
    SortedChain(blocks, 0, n - 1);
    var inner, inner' := blocks[0].s < s < Last(blocks).s, blocks[0].s < s' < Last(blocks).s;
    var k, k': nat := 0, 0;
    if inner {
      k := SegmentOf(blocks, 0, s);
      WithinEnds(blocks, k, s);
    }
    if inner' {
      k' := SegmentOf(blocks, 0, s');
      WithinEnds(blocks, k', s');
    }
    if inner && inner' {
      CentreOrder(blocks, k' + 1, k);
      SegmentsOrdered(blocks, k, s, k', s');
    }
  }

  lemma WithinEnds(blocks: seq<Block>, k: nat, s: real)
    requires ProperCurve(blocks) && k + 1 < |blocks| && blocks[k].s <= s <= blocks[k + 1].s
    ensures blocks[0].y <= Line(blocks[k], blocks[k + 1], s) <= Last(blocks).y
  {
    SortedChain(blocks, 0, k);
    SortedChain(blocks, k, k + 1);
    SortedChain(blocks, k + 1, |blocks| - 1);
    LineWithin(blocks[k], blocks[k + 1], s);
  }

  /** The calibrator never falls back, stays in 0.05..0.95 and does not decrease in the score. */
  lemma CalibratorShape(blocks: seq<Block>, score: Option<real>, score': Option<real>)
    requires ProperCurve(blocks)
    ensures CurveAt(blocks, ReadScore(score)).Some?
    ensures 0.05 <= Calibrated(blocks, score) <= 0.95
    ensures score.Some? && score'.Some? && score.value <= score'.value ==>
            Calibrated(blocks, score) <= Calibrated(blocks, score')
  {
    hide CurveAt, ProperCurve;
    var s, s' := ReadScore(score), ReadScore(score');
    if s <= s' { CurveIsMonotone(blocks, s, s'); } else { CurveIsMonotone(blocks, s', s); }
  }

  // ---------- trade statistics ----------

  predicate DropOf(rs: seq<real>, i: int, j: int, dd: real) {
    0 <= i <= j <= |rs| && SumOf(rs[..i]) - SumOf(rs[..j]) == dd
  }

  /** No running sum up to k exceeds the peak, and none falls by more than dd. */
  ghost predicate Watched(rs: seq<real>, k: nat, peak: real, dd: real)
    requires k <= |rs|
  {
    && (forall i :: 0 <= i <= k ==> SumOf(rs[..i]) <= peak)
    && forall i, j :: 0 <= i <= j <= k ==> SumOf(rs[..i]) - SumOf(rs[..j]) <= dd
  }

  lemma WatchNext(rs: seq<real>, k: nat, peak: real, dd: real)
    requires k < |rs| && Watched(rs, k, peak, dd) && dd >= 0.0
    ensures var cum := SumOf(rs[..k + 1]); Watched(rs, k + 1, Max(peak, cum), Max(dd, Max(peak, cum) - cum))
  {
    hide SumOf;
  }

  /** The largest fall of the running sum, from zero on, at any later point. */
  method MaxDrawdown(rs: seq<real>) returns (maxDd: real)
    ensures IsMaxDrawdown(rs, maxDd)
  {
    var peak, cum := 0.0, 0.0;
    maxDd := 0.0;
    ghost var top: nat, high: nat, low: nat := 0, 0, 0;
    assert rs[..0] == [] && SumOf([]) == 0.0 by { EmptySum(); }
    hide SumOf, Watched, DropOf, IsMaxDrawdown;
    WatchNone(rs);
    Falls(rs, 0, 0);
    for k := 0 to |rs|
      invariant cum == SumOf(rs[..k])
      invariant top <= k && peak == SumOf(rs[..top])
      invariant high <= low <= k && DropOf(rs, high, low, maxDd) && maxDd >= 0.0
      invariant Watched(rs, k, peak, maxDd)
    {
      WatchNext(rs, k, peak, maxDd);
      SumNext(rs, k);
      cum := cum + rs[k];
      if cum > peak {
        peak, top := cum, k + 1;
      }
      var dd := peak - cum;
      if dd > maxDd {
        maxDd := dd;
        high, low := top, k + 1;
        Falls(rs, top, k + 1);
      }
    }
    WatchedAll(rs, peak, maxDd, high, low);
  }

  lemma Falls(rs: seq<real>, i: nat, j: nat)
    requires i <= j <= |rs|
    ensures DropOf(rs, i, j, SumOf(rs[..i]) - SumOf(rs[..j]))
  {
    hide SumOf;
  }

  lemma WatchNone(rs: seq<real>)
    requires SumOf(rs[..0]) == 0.0
    ensures Watched(rs, 0, 0.0, 0.0)
  {
    hide SumOf;
  }

  lemma WatchedAll(rs: seq<real>, peak: real, dd: real, high: nat, low: nat)
    requires Watched(rs, |rs|, peak, dd) && DropOf(rs, high, low, dd)
    ensures IsMaxDrawdown(rs, dd)
  {
    hide SumOf;
  }

  lemma SumNext(xs: seq<real>, k: nat)
    requires k < |xs|
    ensures SumOf(xs[..k + 1]) == SumOf(xs[..k]) + xs[k]
  {
    Grow(xs, k);
  }

  datatype Evaluation = Evaluation(
    total: nat, wins: nat, losses: nat, winRate: real, profitFactor: real, expectancy: real, maxDrawdown: real,
    avgWin: real, avgLoss: real)

  function WinCount(rs: seq<real>): (n: nat)
    ensures n <= |rs|
  {
    if rs == [] then 0 else WinCount(Front(rs)) + if Last(rs) > 0.0 then 1 else 0
  }

  /** What the winning returns add up to. */
  function GainTotal(rs: seq<real>): (g: real)
    ensures g >= 0.0 && (WinCount(rs) == 0 ==> g == 0.0)
  {
    if rs == [] then 0.0 else GainTotal(Front(rs)) + if Last(rs) > 0.0 then Last(rs) else 0.0
  }

  /** What the other returns lose together. */
  function LossTotal(rs: seq<real>): (l: real)
    ensures l >= 0.0 && (WinCount(rs) == |rs| ==> l == 0.0)
  {
    if rs == [] then 0.0 else LossTotal(Front(rs)) - if Last(rs) > 0.0 then 0.0 else Last(rs)
  }

  /** Gains less losses are the sum of the returns. */
  lemma {:induction false} GainsLessLosses(rs: seq<real>)
    ensures GainTotal(rs) - LossTotal(rs) == SumOf(rs)
  {
    if rs != [] {
      GainsLessLosses(Front(rs));
    }
  }

  predicate IsMean(m: real, total: real, n: nat) {
    m * n as real == total
  }

  function Mean(total: real, n: nat, whenNone: real): (m: real)
    ensures n > 0 ==> IsMean(m, total, n)
    ensures n == 0 ==> m == whenNone
  {
    if n > 0 then total / n as real else whenNone
  }

  lemma NoMean(m: real)
    ensures IsMean(m, 0.0, 0)
  {
  }

  /** Gains over losses; without losses 999 for any gain and 0 for none. */
  predicate IsProfitFactor(pf: real, gains: real, losses: real) {
    if losses > 0.0 then pf * losses == gains else pf == if gains > 0.0 then 999.0 else 0.0
  }

  method ProfitFactor(gains: real, losses: real) returns (pf: real)
    ensures IsProfitFactor(pf, gains, losses)
  {
    if losses > 0.0 {
      DivMul(gains, losses);
      return gains / losses;
    }
    pf := if gains > 0.0 then 999.0 else 0.0;
  }

  /** No later point of the running sum lies further below an earlier one, and some pair of points is that far apart. */
  ghost predicate IsMaxDrawdown(rs: seq<real>, dd: real) {
    && (forall i, j :: 0 <= i <= j <= |rs| ==> SumOf(rs[..i]) - SumOf(rs[..j]) <= dd)
    && exists i, j :: DropOf(rs, i, j, dd)
  }

  /** Metrics of the closed trades in R units. */
  method EvaluateReturns(rs: seq<real>) returns (e: Evaluation)
    ensures e.total == |rs| && e.wins == WinCount(rs) && e.losses == |rs| - e.wins
    ensures rs == [] ==> e == Evaluation(0, 0, 0, 0.0, 0.0, 0.0, 0.0, 0.0, 0.0)
    ensures rs != [] ==>
              && IsMean(e.winRate, e.wins as real, e.total) && IsMean(e.expectancy, SumOf(rs), e.total)
              && IsMean(e.avgWin, GainTotal(rs), e.wins) && IsMean(e.avgLoss, LossTotal(rs), e.losses)
              && (e.wins == 0 ==> e.avgWin == 0.0) && (e.losses == 0 ==> e.avgLoss == 1.0)
              && IsProfitFactor(e.profitFactor, GainTotal(rs), LossTotal(rs))
    ensures IsMaxDrawdown(rs, e.maxDrawdown)
  {
    var maxDd := MaxDrawdown(rs);
    if rs == [] {
      EmptyRun(maxDd);
      return Evaluation(0, 0, 0, 0.0, 0.0, 0.0, 0.0, 0.0, 0.0);
    }
    var wins, gains, falls := SplitReturns(rs);
    GainsLessLosses(rs);
    hide *;
    var n, losses := |rs|, |rs| - wins;
    var pf := ProfitFactor(gains, falls);
    if wins == 0 { NoMean(0.0); }
    if losses == 0 { NoMean(1.0); }
    e := Evaluation(
      n, wins, losses, Mean(wins as real, n, 0.0), pf, Mean(gains - falls, n, 0.0), maxDd, Mean(gains, wins, 0.0),
      Mean(falls, losses, 1.0));
  }

  lemma EmptyRun(dd: real)
    requires IsMaxDrawdown([], dd)
    ensures dd == 0.0
  {
    var rs: seq<real> := [];
    assert rs[..0] == rs;
    assert SumOf(rs[..0]) - SumOf(rs[..0]) <= dd;
  }

  method SplitReturns(rs: seq<real>) returns (wins: nat, gains: real, falls: real)
    ensures wins == WinCount(rs) && gains == GainTotal(rs) && falls == LossTotal(rs)
  {
    wins, gains, falls := 0, 0.0, 0.0;
    for k := 0 to |rs|
      invariant wins == WinCount(rs[..k]) && gains == GainTotal(rs[..k]) && falls == LossTotal(rs[..k])
    {
      Grow(rs, k);
      if rs[k] > 0.0 {
        wins, gains := wins + 1, gains + rs[k];
      } else {
        falls := falls - rs[k];
      }
    }
    assert rs[..|rs|] == rs;
  }
}
