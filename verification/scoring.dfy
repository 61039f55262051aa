/** The bar-by-bar analysis (aura/core/scoring.py): structure, gaps, equal levels and the confluence score.
    The reading of a bar is a function of the bars up to and including it. */
module Scoring {
  import opened Wrappers
  import opened Indicators

  const WARMUP_DEFAULT := 235
  const SHORT_WARMUP := 30

  // ---------- swing pivots ----------

  /** A pivot and the bar that confirms it. */
  datatype Pivot = Pivot(i: int, val: real)

  /** The pivot high that the last bar of a prefix confirms, if any. */
  ghost function PivotHigh(p: seq<Candle>, left: nat, right: nat): Option<real> {
    var j := |p| - 1 - right;
    if && left <= j
       && (forall k :: j - left <= k < j ==> p[k].high <= p[j].high)
       && (forall k :: j < k <= j + right ==> p[k].high < p[j].high)
    then Some(p[j].high) else None
  }

  ghost function PivotLow(p: seq<Candle>, left: nat, right: nat): Option<real> {
    var j := |p| - 1 - right;
    if && left <= j
       && (forall k :: j - left <= k < j ==> p[j].low <= p[k].low)
       && (forall k :: j < k <= j + right ==> p[j].low < p[k].low)
    then Some(p[j].low) else None
  }

  function Confirmed(val: Option<real>, i: int): seq<Pivot> {
    if val.Some? then [Pivot(i, val.value)] else []
  }

  /** All pivots that a prefix confirms, in the order of their confirming bars. */
  ghost function HighPivots(p: seq<Candle>, left: nat, right: nat): seq<Pivot> {
    if p == [] then [] else HighPivots(Front(p), left, right) + Confirmed(PivotHigh(p, left, right), |p| - 1)
  }

  ghost function LowPivots(p: seq<Candle>, left: nat, right: nat): seq<Pivot> {
    if p == [] then [] else LowPivots(Front(p), left, right) + Confirmed(PivotLow(p, left, right), |p| - 1)
  }

  lemma {:induction false} NoEarlyPivots(p: seq<Candle>, left: nat, right: nat)
    requires |p| <= left + right
    ensures HighPivots(p, left, right) == [] && LowPivots(p, left, right) == []
  {
    if p != [] {
      NoEarlyPivots(Front(p), left, right);
    }
  }

  /** The pivot high at bar j, if it is one. */
  method HighAt(bars: seq<Candle>, j: nat, left: nat, right: nat) returns (found: seq<Pivot>)
    requires left <= j && j + right < |bars|
    ensures found == Confirmed(PivotHigh(bars[..j + right + 1], left, right), j + right)
  {
    var hv := bars[j].high;
    for k := j - left to j
      invariant forall m :: j - left <= m < k ==> bars[m].high <= hv
    {
      if bars[k].high > hv {
        assert bars[..j + right + 1][k].high > hv;
        return [];
      }
    }
    for k := j + 1 to j + right + 1
      invariant forall m :: j < m < k ==> bars[m].high < hv
    {
      if bars[k].high >= hv {
        assert bars[..j + right + 1][k].high >= hv;
        return [];
      }
    }
    return [Pivot(j + right, hv)];
  }

  method LowAt(bars: seq<Candle>, j: nat, left: nat, right: nat) returns (found: seq<Pivot>)
    requires left <= j && j + right < |bars|
    ensures found == Confirmed(PivotLow(bars[..j + right + 1], left, right), j + right)
  {
    var lv := bars[j].low;
    for k := j - left to j
      invariant forall m :: j - left <= m < k ==> lv <= bars[m].low
    {
      if bars[k].low < lv {
        assert bars[..j + right + 1][k].low < lv;
        return [];
      }
    }
    for k := j + 1 to j + right + 1
      invariant forall m :: j < m < k ==> lv < bars[m].low
    {
      if bars[k].low <= lv {
        assert bars[..j + right + 1][k].low <= lv;
        return [];
      }
    }
    return [Pivot(j + right, lv)];
  }

  method SwingPivots(bars: seq<Candle>, left: nat, right: nat) returns (ph: seq<Pivot>, pl: seq<Pivot>)
    ensures ph == HighPivots(bars, left, right) && pl == LowPivots(bars, left, right)
  {
    hide PivotHigh, PivotLow, HighPivots, LowPivots;
    ph, pl := [], [];
    if |bars| <= left + right {
      NoEarlyPivots(bars, left, right);
      return;
    }
    NoEarlyPivots(bars[..left + right], left, right);
    for i := left to |bars| - right
      invariant ph == HighPivots(bars[..i + right], left, right)
      invariant pl == LowPivots(bars[..i + right], left, right)
    {
      PivotStep(bars, i + right, left, right);
      var high := HighAt(bars, i, left, right);
      ph := ph + high;
      var low := LowAt(bars, i, left, right);
      pl := pl + low;
    }
    assert bars[..|bars|] == bars;
  }

  lemma PivotStep(bars: seq<Candle>, i: nat, left: nat, right: nat)
    requires i < |bars|
    ensures var p := bars[..i + 1];
            && HighPivots(p, left, right) ==
               HighPivots(bars[..i], left, right) + Confirmed(PivotHigh(p, left, right), i)
            && LowPivots(p, left, right) == LowPivots(bars[..i], left, right) + Confirmed(PivotLow(p, left, right), i)
  {
    hide PivotHigh, PivotLow;
    Grow(bars, i);
  }

  /** The pivots of a prefix come first; the later ones are confirmed by later bars. */
  lemma {:induction false} PivotsOfPrefix(bars: seq<Candle>, m: nat, left: nat, right: nat)
    requires m <= |bars|
    ensures var part, all := HighPivots(bars[..m], left, right), HighPivots(bars, left, right);
            part <= all && forall k :: |part| <= k < |all| ==> m <= all[k].i
    ensures var part, all := LowPivots(bars[..m], left, right), LowPivots(bars, left, right);
            part <= all && forall k :: |part| <= k < |all| ==> m <= all[k].i
    decreases |bars|
  {
    hide PivotHigh, PivotLow;
    if m == |bars| {
      assert bars[..m] == bars;
    } else {
      PivotsOfPrefix(Front(bars), m, left, right);
      assert Front(bars)[..m] == bars[..m];
    }
  }

  // ---------- structure ----------

  datatype Structure = Structure(
    trend: int, lastHigh: Option<real>, lastLow: Option<real>, bosBull: int, bosBear: int, chBull: int, chBear: int,
    highs: seq<real>, lows: seq<real>)

  const FIRST_STRUCTURE := Structure(1, None, None, 99, 99, 99, 99, [], [])

  function Older(age: int): int {
    if age < 99 then age + 1 else age
  }

  function Aged(s: Structure): Structure {
    s.(bosBull := Older(s.bosBull), bosBear := Older(s.bosBear), chBull := Older(s.chBull), chBear := Older(s.chBear))
  }

  /** The close crosses the last confirmed pivot for the first time. */
  function BullBreak(s: Structure, close: real, prev: Option<real>): bool {
    s.lastHigh.Some? && close > s.lastHigh.value && (prev.None? || prev.value <= s.lastHigh.value)
  }

  function BearBreak(s: Structure, close: real, prev: Option<real>): bool {
    s.lastLow.Some? && close < s.lastLow.value && (prev.None? || prev.value >= s.lastLow.value)
  }

  function Trim(pool: seq<real>): seq<real> {
    if |pool| > 8 then pool[1..] else pool
  }

  function AddHigh(s: Structure, val: real): Structure {
    s.(lastHigh := Some(val),
       highs := Trim(s.highs + [val]),
       bosBull := if s.trend == 1 && s.lastHigh.Some? && val > s.lastHigh.value then 0 else s.bosBull)
  }

  function AddLow(s: Structure, val: real): Structure {
    s.(lastLow := Some(val),
       lows := Trim(s.lows + [val]),
       bosBear := if s.trend == -1 && s.lastLow.Some? && val < s.lastLow.value then 0 else s.bosBear)
  }

  function WithPivots(s: Structure, high: Option<real>, low: Option<real>): Structure {
    var t := if high.Some? then AddHigh(s, high.value) else s;
    if low.Some? then AddLow(t, low.value) else t
  }

  function BullBroken(s: Structure): Structure {
    if s.trend == -1 then s.(trend := 1, chBull := 0) else s.(bosBull := 0)
  }

  function BearBroken(s: Structure): Structure {
    if s.trend == 1 then s.(trend := -1, chBear := 0) else s.(bosBear := 0)
  }

  function WithBreaks(s: Structure, bull: bool, bear: bool): Structure {
    var t := if bull then BullBroken(s) else s;
    if bear then BearBroken(t) else t
  }

  /** Breaks are judged against the pivots known before the bar, and booked after its own pivots. */
  ghost function NextStructure(s: Structure, p: seq<Candle>): Structure
    requires p != []
  {
    var close, prev := Last(p).close, PrevClose(p);
    WithBreaks(
      WithPivots(Aged(s), PivotHigh(p, 5, 5), PivotLow(p, 5, 5)), BullBreak(s, close, prev), BearBreak(s, close, prev))
  }

  ghost function StructureOf(p: seq<Candle>): Structure {
    if p == [] then FIRST_STRUCTURE else NextStructure(StructureOf(Front(p)), p)
  }

  predicate Age(x: int) {
    0 <= x <= 99
  }

  /** Ages stay in 0..99 and each pool holds at most eight pivots, the last one being the latest confirmed. */
  predicate WellFormed(s: Structure) {
    && (s.trend == 1 || s.trend == -1)
    && Age(s.bosBull) && Age(s.bosBear) && Age(s.chBull) && Age(s.chBear)
    && |s.highs| <= 8 && |s.lows| <= 8
    && (s.highs != [] ==> s.lastHigh == Some(Last(s.highs)))
    && (s.lows != [] ==> s.lastLow == Some(Last(s.lows)))
  }

  lemma TrimKeepsLast(pool: seq<real>, val: real)
    requires |pool| <= 8
    ensures var t := Trim(pool + [val]); 0 < |t| <= 8 && Last(t) == val
  {
  }

  lemma PivotsKeepForm(s: Structure, high: Option<real>, low: Option<real>)
    requires WellFormed(s)
    ensures WellFormed(WithPivots(s, high, low))
  {
    hide Trim;
    if high.Some? { TrimKeepsLast(s.highs, high.value); }
    if low.Some? { TrimKeepsLast(s.lows, low.value); }
  }

  lemma {:induction false} StructureIsWellFormed(p: seq<Candle>)
    ensures WellFormed(StructureOf(p))
  {
    hide PivotHigh, PivotLow, WithPivots, BullBreak, BearBreak;
    if p != [] {
      StructureIsWellFormed(Front(p));
      var aged := Aged(StructureOf(Front(p)));
      PivotsKeepForm(aged, PivotHigh(p, 5, 5), PivotLow(p, 5, 5));
    }
  }

  // ---------- fair value gaps ----------

  datatype Gap = Gap(dir: int, top: Option<real>, bot: Option<real>, active: bool, age: int)

  const NO_GAP := Gap(0, None, None, false, 99)

  predicate Filled(g: Gap, bar: Candle) {
    && g.top.Some? && g.bot.Some?
    && ((g.dir == 1 && bar.low <= g.bot.value) || (g.dir == -1 && bar.high >= g.top.value))
  }

  function NextGap(g: Gap, p: seq<Candle>): Gap {
    if |p| < 3 then g
    else
      var now, base := Last(p), p[|p| - 3];
      if now.low > base.high then Gap(1, Some(now.low), Some(base.high), true, 0)
      else if now.high < base.low then Gap(-1, Some(base.low), Some(now.high), true, 0)
      else if g.active then g.(age := Older(g.age), active := !Filled(g, now))
      else g
  }

  function GapOf(p: seq<Candle>): Gap {
    if p == [] then NO_GAP else NextGap(GapOf(Front(p)), p)
  }

  /** The gap opened at bar k. */
  predicate OpenedAt(g: Gap, p: seq<Candle>, k: int) {
    && 2 <= k < |p|
    && (g.dir == 1 || g.dir == -1)
    && (g.dir == 1 ==> g.bot == Some(p[k - 2].high) && g.top == Some(p[k].low))
    && (g.dir == -1 ==> g.top == Some(p[k - 2].low) && g.bot == Some(p[k].high))
  }

  predicate UnfilledSince(g: Gap, p: seq<Candle>, k: int) {
    forall m :: k < m < |p| && 0 <= m ==> !Filled(g, p[m])
  }

  predicate RealGap(g: Gap) {
    g.top.Some? && g.bot.Some? && g.bot.value < g.top.value
  }

  /** An active gap is a real gap that opened at some bar and that no bar since has filled. */
  lemma {:induction false} ActiveGapIsOpen(p: seq<Candle>) returns (k: int)
    ensures var g := GapOf(p);
            g.active ==> RealGap(g) && OpenedAt(g, p, k) && UnfilledSince(g, p, k)
  {
    k := |p| - 1;
    if p != [] {
      var before := ActiveGapIsOpen(Front(p));
      var g, h := GapOf(Front(p)), GapOf(p);
      if |p| >= 3 && (Last(p).low > p[|p| - 3].high || Last(p).high < p[|p| - 3].low) {
        assert OpenedAt(h, p, k);
      } else if h.active {
        k := before;
        assert OpenedAt(g, Front(p), k) && OpenedAt(h, p, k);
        forall m | k < m < |p| && 0 <= m
          ensures !Filled(h, p[m])
        {
          if m < |p| - 1 {
            assert p[m] == Front(p)[m] && !Filled(g, Front(p)[m]);
          }
        }
      }
    }
  }

  // ---------- equal highs and lows ----------

  predicate EqualPair(pool: seq<real>, a: int, b: int, tol: real, close: real, above: bool) {
    && 0 <= a < b < |pool|
    && Abs(pool[a] - pool[b]) <= tol
    && (if above then pool[a] > close && pool[b] > close else pool[a] < close && pool[b] < close)
  }

  /** The middle of the first pair, in the order of the nested search, that lies within the tolerance. */
  function EqualFrom(pool: seq<real>, a: nat, b: nat, tol: real, close: real, above: bool): Option<real>
    requires a < b
    decreases |pool| - a, |pool| - b
  {
    if a + 1 >= |pool| then None
    else if b >= |pool| then EqualFrom(pool, a + 1, a + 2, tol, close, above)
    else if EqualPair(pool, a, b, tol, close, above) then Some((pool[a] + pool[b]) / 2.0)
    else EqualFrom(pool, a, b + 1, tol, close, above)
  }

  function EqualLevel(pool: seq<real>, atr: real, close: real, above: bool): Option<real> {
    if atr > 0.0 && |pool| >= 2 then EqualFrom(pool, 0, 1, 0.35 * atr, close, above) else None
  }

  method FindEqualLevel(pool: seq<real>, atr: real, close: real, above: bool) returns (level: Option<real>)
    ensures level == EqualLevel(pool, atr, close, above)
  {
    level := None;
    if atr > 0.0 && |pool| >= 2 {
      var tol := 0.35 * atr;
      for a := 0 to |pool| - 1
        invariant EqualLevel(pool, atr, close, above) == EqualFrom(pool, a, a + 1, tol, close, above)
      {
        for b := a + 1 to |pool|
          invariant EqualLevel(pool, atr, close, above) == EqualFrom(pool, a, b, tol, close, above)
        {
          if EqualPair(pool, a, b, tol, close, above) {
            return Some((pool[a] + pool[b]) / 2.0);
          }
        }
      }
    }
  }

  /** A level is found exactly when some pair qualifies, and then it lies on the right side of the close. */
  lemma {:induction false} EqualFromFinds(pool: seq<real>, a: nat, b: nat, tol: real, close: real, above: bool)
    requires a < b
    ensures var level := EqualFrom(pool, a, b, tol, close, above);
            && (level.Some? <==>
                exists x, y :: ((x == a && y >= b) || x > a) && EqualPair(pool, x, y, tol, close, above))
            && (level.Some? ==> if above then level.value > close else level.value < close)
    decreases |pool| - a, |pool| - b
  {
    if a + 1 < |pool| {
      if b >= |pool| {
        EqualFromFinds(pool, a + 1, a + 2, tol, close, above);
      } else if !EqualPair(pool, a, b, tol, close, above) {
        EqualFromFinds(pool, a, b + 1, tol, close, above);
      }
    }
  }

  // ---------- the confluence score ----------

  /** The indicator values of one bar. */
  datatype Inputs = Inputs(
    bar: Candle, ema20: real, ema50: real, ema200: real, rsi: real, stoch: real, macd: real, signal: real, hist: real,
    adx: real, atr: real, stDir: int, obv: real, obvEma: real, vwap: real, volumeSma: real, cvd: real, cvdEma: real)

  function InputsOf(p: seq<Candle>): Inputs
    requires p != []
  {
    var c := Closes(p);
    var macdLine := MacdLine(c, 12, 26);
    var signal := EmaLast(macdLine, 9);
    Inputs(
      Last(p), EmaLast(c, 20), EmaLast(c, 50), EmaLast(c, 200), RsiLast(c, 14), SmaLast(StochLine(c, 14), 3),
      Last(macdLine), signal, Last(macdLine) - signal, AdxLast(p, 14), AtrLast(p, 14), TrendLast(p, 10, 3.0).dir,
      ObvLast(p), EmaLast(ObvLine(p), 20), VwapLast(p), SmaLast(Volumes(p), 20), CvdLast(p), EmaLast(CvdLine(p), 20))
  }

  function Sided(cond: bool, weight: real): real {
    if cond then weight else -weight
  }

  function TrendScore(x: Inputs): real {
    var strength := if x.adx >= 25.0 then Sided(x.ema20 > x.ema50, 8.0) else if x.adx < 18.0 then -3.0 else 0.0;
    Clamp(
      50.0 + Sided(x.bar.close > x.ema20, 8.0) + Sided(x.ema20 > x.ema50, 8.0) + Sided(x.ema50 > x.ema200, 7.0)
      + Sided(x.stDir == 1, 12.0) + strength, 0.0, 100.0)
  }

  function MomentumScore(x: Inputs): real {
    Clamp(
      50.0 + Clamp((x.rsi - 50.0) * 1.5, -30.0, 30.0) + Sided(x.macd > x.signal, 12.0) + Sided(x.hist > 0.0, 8.0)
      + Clamp((x.stoch - 50.0) * 0.8, -20.0, 20.0), 0.0, 100.0)
  }

  /** The volume the bar is compared with; a bar is not scorable when it is zero. */
  function VolumeRef(x: Inputs): real {
    if x.volumeSma > 0.0 then x.volumeSma else x.bar.volume
  }

  predicate AboveVwap(x: Inputs) {
    x.bar.close - x.vwap > 0.000000001 * Max(1.0, Abs(x.bar.close))
  }

  /** How far the volume pulls, before the sign of the bar. */
  function Pull(ratio: real): real {
    Clamp((ratio - 1.0) * 20.0, -10.0, 10.0)
  }

  function VolumeScore(x: Inputs): real
    requires VolumeRef(x) != 0.0
  {
    Clamp(
      50.0 + Sided(x.obv > x.obvEma, 15.0) + Sided(AboveVwap(x), 10.0)
      + Pull(x.bar.volume / VolumeRef(x)) * Sided(x.bar.close > x.bar.open, 1.0)
      + Sided(x.cvd > x.cvdEma, 10.0), 0.0, 100.0)
  }

  function BreakVote(s: Structure): real {
    if s.bosBull <= 6 then 15.0 else if s.bosBear <= 6 then -15.0 else 0.0
  }

  function ChangeVote(s: Structure): real {
    if s.chBull <= 6 then 10.0 else if s.chBear <= 6 then -10.0 else 0.0
  }

  function GapVote(g: Gap, close: real): real {
    if g.active && g.dir == 1 && g.top.Some? && close > g.top.value then 10.0
    else if g.active && g.dir == -1 && g.bot.Some? && close < g.bot.value then -10.0
    else 0.0
  }

  function StructureScore(s: Structure, g: Gap, eqh: Option<real>, eql: Option<real>, close: real): real {
    var equal := if eqh.Some? then 7.0 else if eql.Some? then -7.0 else 0.0;
    Clamp(50.0 + BreakVote(s) + ChangeVote(s) + GapVote(g, close) + equal + Sided(s.trend == 1, 8.0), 0.0, 100.0)
  }

  datatype Scores = Scores(total: real, trend: real, momentum: real, volume: real, structure: real, dir: int)

  const NEUTRAL := Scores(50.0, 50.0, 50.0, 50.0, 50.0, 0)

  function ScoresOf(x: Inputs, s: Structure, g: Gap, eqh: Option<real>, eql: Option<real>): (r: Scores)
    requires VolumeRef(x) != 0.0
    ensures 0.0 <= r.total <= 100.0 && 0.0 <= r.trend <= 100.0 && 0.0 <= r.momentum <= 100.0
    ensures 0.0 <= r.volume <= 100.0 && 0.0 <= r.structure <= 100.0
  {
    var t, m, v, st := TrendScore(x), MomentumScore(x), VolumeScore(x), StructureScore(s, g, eqh, eql, x.bar.close);
    var total := Clamp(0.30 * t + 0.25 * m + 0.25 * v + 0.20 * st, 0.0, 100.0);
    Scores(total, t, m, v, st, if total > 55.0 then 1 else if total < 45.0 then -1 else 0)
  }

  // ---------- when a scored bar is neutral ----------

  predicate TrendTie(x: Inputs) {
    x.bar.close <= x.ema20 <= x.ema50 && x.ema50 > x.ema200 && x.stDir == 1 && x.adx < 18.0
  }

  predicate MomentumTie(x: Inputs) {
    Clamp((x.rsi - 50.0) * 1.5, -30.0, 30.0) + Clamp((x.stoch - 50.0) * 0.8, -20.0, 20.0) ==
      Sided(x.macd > x.signal, -20.0)
  }

  /** Rising balance volume against falling delta below the day's mean, or the reverse, with a quarter more volume than
      usual on one side or a quarter less on the other. */
  predicate VolumeTie(x: Inputs) {
    var up := x.bar.close > x.bar.open;
    var risen := x.obv > x.obvEma;
    && AboveVwap(x) == !risen && (x.cvd > x.cvdEma) == !risen
    && x.bar.volume == VolumeRef(x) * if up == risen then 1.25 else 0.75
  }

  predicate StructureTie(s: Structure, g: Gap, eqh: Option<real>, eql: Option<real>, close: real) {
    && ChangeVote(s) + GapVote(g, close) == 0.0
    && if s.trend == 1 then eqh.Some? && s.bosBull > 6 && s.bosBear <= 6 else eqh.None? && eql.Some? && s.bosBull <= 6
  }

  lemma PullAt(ratio: real)
    ensures Pull(ratio) == 5.0 <==> ratio == 1.25
    ensures Pull(ratio) == -5.0 <==> ratio == 0.75
    ensures -10.0 <= Pull(ratio) <= 10.0
  {
  }

  lemma VolumeNeutral(x: Inputs)
    requires VolumeRef(x) != 0.0
    ensures VolumeScore(x) == 50.0 <==> VolumeTie(x)
  {
    hide AboveVwap, VolumeRef, Pull;
    var up, ref := x.bar.close > x.bar.open, VolumeRef(x);
    var ratio := x.bar.volume / ref;
    assert x.bar.volume == ratio * ref;
    SameFactor(ratio, 1.25, ref);
    SameFactor(ratio, 0.75, ref);
    PullAt(ratio);
    SidedBy(Pull(ratio), up);
    var side := Sided(x.obv > x.obvEma, 15.0) + Sided(AboveVwap(x), 10.0) + Sided(x.cvd > x.cvdEma, 10.0);
    var pull := if up then Pull(ratio) else -Pull(ratio);
    assert VolumeScore(x) == Clamp(50.0 + side + pull, 0.0, 100.0);
  }

  lemma SidedBy(x: real, cond: bool)
    ensures x * Sided(cond, 1.0) == if cond then x else -x
  {
  }

  lemma SameFactor(a: real, b: real, c: real)
    requires c != 0.0
    ensures a * c == c * b <==> a == b
  {
    if a * c == c * b {
      assert (a - b) * c == 0.0;
    }
  }

  /** A scored bar reads like an unscored one exactly when each of its four votes is tied. */
  lemma NeutralExactly(x: Inputs, s: Structure, g: Gap, eqh: Option<real>, eql: Option<real>)
    requires VolumeRef(x) != 0.0 && x.hist == x.macd - x.signal
    ensures ScoresOf(x, s, g, eqh, eql) == NEUTRAL <==>
            TrendTie(x) && MomentumTie(x) && VolumeTie(x) && StructureTie(s, g, eqh, eql, x.bar.close)
  {
    assert TrendScore(x) == 50.0 <==> TrendTie(x);
    assert MomentumScore(x) == 50.0 <==> MomentumTie(x);
    VolumeNeutral(x);
    hide TrendScore, MomentumScore, VolumeScore, TrendTie, MomentumTie, VolumeTie, VolumeRef, AboveVwap;
    assert StructureScore(s, g, eqh, eql, x.bar.close) == 50.0 <==> StructureTie(s, g, eqh, eql, x.bar.close);
  }

  // ---------- the reading of a bar ----------

  datatype BarReading = BarReading(
    scores: Scores, atr: real, stDir: int, lastHigh: Option<real>, lastLow: Option<real>, structTrend: int,
    eqh: Option<real>, eql: Option<real>, gapTop: Option<real>, gapBot: Option<real>, gapDir: int, gapActive: bool)

  function EffectiveWarmup(n: nat): int {
    if n < WARMUP_DEFAULT then SHORT_WARMUP else WARMUP_DEFAULT
  }

  /** Scoring divides by the reference volume: an analysis fails on a scored bar without one. */
  predicate Scorable(p: seq<Candle>, warmup: int)
    requires p != []
  {
    |p| - 1 >= warmup ==> VolumeRef(InputsOf(p)) != 0.0
  }

  function ReadingFrom(x: Inputs, s: Structure, g: Gap, scored: bool): BarReading
    requires scored ==> VolumeRef(x) != 0.0
  {
    var eqh := EqualLevel(s.highs, x.atr, x.bar.close, true);
    var eql := EqualLevel(s.lows, x.atr, x.bar.close, false);
    BarReading(
      if scored then ScoresOf(x, s, g, eqh, eql) else NEUTRAL, x.atr, x.stDir, s.lastHigh, s.lastLow, s.trend,
      eqh, eql, g.top, g.bot, g.dir, g.active)
  }

  ghost function Reading(p: seq<Candle>, warmup: int): BarReading
    requires p != [] && Scorable(p, warmup)
  {
    ReadingFrom(InputsOf(p), StructureOf(p), GapOf(p), |p| - 1 >= warmup)
  }

  predicate AllScorable(bars: seq<Candle>, warmup: int) {
    forall i :: 0 < i <= |bars| ==> Scorable(bars[..i], warmup)
  }

  /** What the analysis of a whole series says, or `None` when scoring some bar divides by zero. */
  ghost function Analysis(bars: seq<Candle>): Option<seq<BarReading>> {
    var warmup := EffectiveWarmup(|bars|);
    if AllScorable(bars, warmup) then
      Some(seq(|bars|, i requires 0 <= i < |bars| && Scorable(bars[..i + 1], warmup) => Reading(bars[..i + 1], warmup)))
    else None
  }

  lemma AnalysisLength(bars: seq<Candle>)
    requires Analysis(bars).Some?
    ensures |Analysis(bars).value| == |bars|
  {
  }
}
