/** Anchored walk-forward folds: the fold arithmetic (aura/core/stats.py) and the out-of-sample runs built on it
    (aura/backtest/walk_forward.py). */
module WalkForward {
  import opened Wrappers
  import Risk
  import opened Indicators
  import opened Scoring
  import opened Analyzer
  import opened Backtest
  import opened BacktestRun

  /** Training bars are trainStart..trainEnd, test bars are testStart..testEnd, both inclusive. */
  datatype Fold = Fold(index: nat, trainStart: int, trainEnd: int, testStart: int, testEnd: int, trainBars: int,
                       testBars: int)

  predicate Enough(numBars: nat, warmup: nat, k: nat) {
    numBars - warmup >= (k + 1) * 10
  }

  function FoldLength(numBars: nat, warmup: nat, k: nat): int {
    (numBars - warmup) / (k + 1)
  }

  method WalkForwardFolds(numBars: nat, warmup: nat, k: nat) returns (folds: seq<Fold>)
    ensures folds == FoldsOf(numBars, warmup, k)
  {
    var usable := numBars - warmup;
    if usable < (k + 1) * 10 {
      return [];
    }
    var foldLength := usable / (k + 1);
    folds := [];
    for f := 1 to k + 1
      invariant |folds| == f - 1
      invariant forall i :: 0 <= i < f - 1 ==> folds[i] == FoldAt(numBars, warmup, k, i + 1)
    {
      var trainEnd := warmup + f * foldLength - 1;
      var testStart := trainEnd + 2;
      var testEnd := if f < k then warmup + (f + 1) * foldLength - 1 else numBars - 1;
      folds := folds + [Fold(f, warmup, trainEnd, testStart, testEnd, trainEnd - warmup + 1, testEnd - testStart + 1)];
    }
  }

  function FoldAt(numBars: nat, warmup: nat, k: nat, f: nat): Fold {
    var foldLength := FoldLength(numBars, warmup, k);
    var trainEnd := warmup + f * foldLength - 1;
    var testEnd := if f < k then warmup + (f + 1) * foldLength - 1 else numBars - 1;
    Fold(f, warmup, trainEnd, trainEnd + 2, testEnd, trainEnd - warmup + 1, testEnd - trainEnd - 1)
  }

  function FoldsOf(numBars: nat, warmup: nat, k: nat): seq<Fold> {
    if Enough(numBars, warmup, k) then seq(k, i requires 0 <= i => FoldAt(numBars, warmup, k, i + 1)) else []
  }

  // ---------- geometry ----------

  /** The test range and the one-bar embargo before it. */
  predicate Owns(fold: Fold, bar: int) {
    fold.trainEnd < bar <= fold.testEnd
  }

  /** The only fold that can own a bar. */
  function FoldOfBar(numBars: nat, warmup: nat, k: nat, bar: int): int
    requires Enough(numBars, warmup, k)
  {
    var foldLength := FoldLength(numBars, warmup, k);
    FoldLengthBounds(numBars, warmup, k);
    if bar < warmup then 0 else MinInt(k, (bar - warmup) / foldLength)
  }

  lemma FoldLengthBounds(numBars: nat, warmup: nat, k: nat)
    requires Enough(numBars, warmup, k)
    ensures FoldLength(numBars, warmup, k) >= 10
    ensures warmup + (k + 1) * FoldLength(numBars, warmup, k) <= numBars
  {
    var usable, parts, length := numBars - warmup, k + 1, FoldLength(numBars, warmup, k);
    assert usable == parts * length + usable % parts;
    if length < 10 {
      Times(length + 1, 10, parts);
      assert false;
    }
  }

  lemma Times(a: int, b: int, c: int)
    requires a <= b && c >= 0
    ensures a * c <= b * c
  {
    assert (b - a) * c >= 0;
  }

  lemma DivisionBrackets(x: int, d: int, f: int)
    requires d > 0
    ensures x / d >= f <==> x >= f * d
  {
    assert x == d * (x / d) + x % d;
    if x / d >= f { Times(f, x / d, d); } else { Times(x / d, f - 1, d); assert (f - 1) * d == f * d - d; }
  }

  /** The test ranges and their embargo bars partition the tail after the first training block: a bar of the tail is
      owned by exactly one fold, any other bar by none. */
  lemma FoldsPartitionTail(numBars: nat, warmup: nat, k: nat, bar: int, f: nat)
    requires Enough(numBars, warmup, k) && 1 <= f <= k
    ensures var tail := warmup + FoldLength(numBars, warmup, k) <= bar < numBars;
            Owns(FoldAt(numBars, warmup, k, f), bar) <==> tail && f == FoldOfBar(numBars, warmup, k, bar)
    ensures warmup + FoldLength(numBars, warmup, k) <= bar < numBars ==> 1 <= FoldOfBar(numBars, warmup, k, bar) <= k
  {
    FoldLengthBounds(numBars, warmup, k);
    var length := FoldLength(numBars, warmup, k);
    var x := bar - warmup;
    DivisionBrackets(x, length, 1);
    DivisionBrackets(x, length, f);
    DivisionBrackets(x, length, f + 1);
    Times(1, f, length);
    Times(f + 1, k + 1, length);
  }

  predicate Fits(fold: Fold, numBars: int) {
    0 <= fold.trainStart <= fold.trainEnd && fold.trainEnd + 2 == fold.testStart <= fold.testEnd < numBars
  }

  /** Every fold trains and tests on something, leaves one bar between, and tests before the next one does. */
  lemma FoldsFit(numBars: nat, warmup: nat, k: nat, f: nat)
    requires Enough(numBars, warmup, k) && 1 <= f <= k
    ensures Fits(FoldAt(numBars, warmup, k, f), numBars)
    ensures warmup < FoldAt(numBars, warmup, k, f).testStart
    ensures f < k ==> FoldAt(numBars, warmup, k, f).testEnd + 2 == FoldAt(numBars, warmup, k, f + 1).testStart
    ensures f < k ==> FoldAt(numBars, warmup, k, f).testBars == FoldLength(numBars, warmup, k) - 1
  {
    FoldLengthBounds(numBars, warmup, k);
    var length := FoldLength(numBars, warmup, k);
    Times(1, f, length);
    Times(f + 1, k + 1, length);
    assert (f + 1) * length == f * length + length;
  }

  lemma FoldsAhead(numBars: nat, warmup: nat, k: nat, f: nat, g: nat)
    requires Enough(numBars, warmup, k) && 1 <= f < g <= k
    ensures FoldAt(numBars, warmup, k, f).testEnd < FoldAt(numBars, warmup, k, g).trainEnd + 1
  {
    FoldLengthBounds(numBars, warmup, k);
    Times(f + 1, g, FoldLength(numBars, warmup, k));
  }

  // ---------- where the simulator's trades lie ----------

  /** Opened at bar e after the warm-up, at that bar's time. */
  predicate OpenedAt(t: Trade, bars: seq<Candle>, warmup: int, e: int) {
    0 <= e && warmup < e < |bars| && t.entryTime == bars[e].time
  }

  /** A finished trade: opened after the warm-up and left at a later bar before m. */
  ghost predicate Placed(t: Trade, bars: seq<Candle>, warmup: int, m: int) {
    OpenedAt(t, bars, warmup, t.entryBar) && LeftBetween(t, bars, t.entryBar + 1, m)
  }

  /** One position at a time: every trade has left by the time a later one opens. */
  predicate OneAtATime(trades: seq<Trade>) {
    && (forall i :: 0 <= i < |trades| ==> trades[i].exit.Some?)
    && forall i, j :: 0 <= i < j < |trades| ==> trades[i].exit.value.time <= trades[j].entryTime
  }

  predicate AllLeftBy(trades: seq<Trade>, time: int) {
    forall i :: 0 <= i < |trades| ==> trades[i].exit.Some? && trades[i].exit.value.time <= time
  }

  ghost predicate InPlace(s: BtState, bars: seq<Candle>, warmup: int, m: int) {
    && (forall i :: 0 <= i < |s.trades| ==> Placed(s.trades[i], bars, warmup, m))
    && OneAtATime(s.trades)
    && (s.active.Some? ==>
          var t := s.active.value;
          OpenedAt(t, bars, warmup, t.entryBar) && t.entryBar < m && AllLeftBy(s.trades, t.entryTime))
  }

  lemma ManageInPlace(cfg: BacktestConfig, s: BtState, bars: seq<Candle>, warmup: int, i: int)
    requires 0 <= i < |bars| && InPlace(s, bars, warmup, i)
    ensures InPlace(Manage(cfg, s, i, bars[i]), bars, warmup, i + 1)
  {
    hide MoveGain, SellFee, LeavePrice, LeaveFee, HalfGain, Decide;
    var s' := Manage(cfg, s, i, bars[i]);
    forall k | 0 <= k < |s'.trades|
      ensures Placed(s'.trades[k], bars, warmup, i + 1)
    {
      if k < |s.trades| {
        LeftLater(s.trades[k], bars, s.trades[k].entryBar + 1, i);
      } else {
        assert LeftAt(s'.trades[k], bars, i);
      }
    }
  }

  lemma LeftLater(t: Trade, bars: seq<Candle>, lo: int, i: int)
    requires LeftBetween(t, bars, lo, i)
    ensures LeftBetween(t, bars, lo, i + 1)
  {
    var j :| lo <= j < i && LeftAt(t, bars, j);
  }

  lemma LeftInTime(s: BtState, bars: seq<Candle>, warmup: int, m: int)
    requires InPlace(s, bars, warmup, m) && IncreasingTimes(bars) && 0 < m <= |bars|
    ensures AllLeftBy(s.trades, bars[m - 1].time)
  {
    forall k | 0 <= k < |s.trades|
      ensures s.trades[k].exit.Some? && s.trades[k].exit.value.time <= bars[m - 1].time
    {
      var t := s.trades[k];
      assert Placed(t, bars, warmup, m);
      var j :| t.entryBar + 1 <= j < m && LeftAt(t, bars, j);
    }
  }

  lemma EnterInPlace(cfg: BacktestConfig, s: BtState, spec: Risk.QtySpec, bars: seq<Candle>, warmup: int, i: int,
                     signal: BarReading)
    requires 0 <= i < |bars| && warmup < i && InPlace(s, bars, warmup, i + 1) && IncreasingTimes(bars)
    ensures InPlace(Enter(cfg, s, spec, i, bars[i], signal), bars, warmup, i + 1)
  {
    hide Placed;
    LeftInTime(s, bars, warmup, i + 1);
    EntryStamp(cfg, s.equity, spec, i, bars[i], signal);
    hide NewTrade;
  }

  lemma EntryStamp(cfg: BacktestConfig, equity: real, spec: Risk.QtySpec, i: int, bar: Candle, signal: BarReading)
    ensures var t := NewTrade(cfg, equity, spec, i, bar, signal);
            t.Some? ==> t.value.entryBar == i && t.value.entryTime == bar.time
  {
    hide EntrySize, SignalOf;
  }

  lemma {:induction false} StatesInPlace(cfg: BacktestConfig, spec: Risk.QtySpec, bars: seq<Candle>,
                                         readings: seq<BarReading>, m: nat)
    requires m <= |bars| == |readings| && IncreasingTimes(bars)
    ensures InPlace(StateAt(cfg, spec, bars, readings, m), bars, cfg.warmupBars, m)
  {
    hide InPlace, Manage, Enter, TrackDrawdown;
    if m > cfg.warmupBars {
      var i := m - 1;
      StatesInPlace(cfg, spec, bars, readings, i);
      var s := StateAt(cfg, spec, bars, readings, i);
      var managed := Manage(cfg, s, i, bars[i]);
      ManageInPlace(cfg, s, bars, cfg.warmupBars, i);
      if i > cfg.warmupBars {
        EnterInPlace(cfg, managed, spec, bars, cfg.warmupBars, i, readings[i - 1]);
        DrawdownInPlace(Enter(cfg, managed, spec, i, bars[i], readings[i - 1]), bars, cfg.warmupBars, m);
      } else {
        DrawdownInPlace(managed, bars, cfg.warmupBars, m);
      }
    } else {
      StartInPlace(cfg, bars, m);
    }
  }

  lemma StartInPlace(cfg: BacktestConfig, bars: seq<Candle>, m: int)
    ensures InPlace(Initial(cfg), bars, cfg.warmupBars, m)
  {
  }

  lemma DrawdownInPlace(s: BtState, bars: seq<Candle>, warmup: int, m: int)
    requires InPlace(s, bars, warmup, m)
    ensures InPlace(TrackDrawdown(s), bars, warmup, m)
  {
    hide Placed, OneAtATime, AllLeftBy;
    assert TrackDrawdown(s).trades == s.trades && TrackDrawdown(s).active == s.active;
  }

  // ---------- the run over the folds ----------

  datatype FoldResult = FoldResult(fold: Fold, trainTrades: nat, oosTrades: seq<Trade>)

  /** The bars of a test range behind their warm-up prefix. */
  function OosStart(fold: Fold, warmup: nat): nat {
    MaxInt(0, fold.testStart - warmup)
  }

  function OosSlice(bars: seq<Candle>, fold: Fold, warmup: nat): seq<Candle>
    requires Fits(fold, |bars|)
  {
    bars[OosStart(fold, warmup)..fold.testEnd + 1]
  }

  /** The trades entered at or after a time. */
  function EnteredFrom(trades: seq<Trade>, time: int): seq<Trade> {
    if trades == [] then []
    else if Last(trades).entryTime >= time then EnteredFrom(Front(trades), time) + [Last(trades)]
    else EnteredFrom(Front(trades), time)
  }

  lemma {:induction false} EnteredOnes(trades: seq<Trade>, time: int, t: Trade)
    ensures t in EnteredFrom(trades, time) <==> t in trades && t.entryTime >= time
  {
    if trades != [] {
      EnteredOnes(Front(trades), time, t);
      assert trades == Front(trades) + [Last(trades)];
    }
  }

  lemma {:induction false} AllEntered(trades: seq<Trade>, time: int)
    requires forall i :: 0 <= i < |trades| ==> trades[i].entryTime >= time
    ensures EnteredFrom(trades, time) == trades
  {
    if trades != [] {
      var front := Front(trades);
      forall i | 0 <= i < |front|
        ensures front[i].entryTime >= time
      {
        assert front[i] == trades[i];
      }
      AllEntered(front, time);
      assert trades == front + [Last(trades)];
    }
  }

  lemma {:induction false} EnteredOneAtATime(trades: seq<Trade>, time: int)
    requires OneAtATime(trades)
    ensures OneAtATime(EnteredFrom(trades, time))
  {
    if trades != [] {
      var front, last := Front(trades), Last(trades);
      EnteredOneAtATime(front, time);
      if last.entryTime >= time {
        var kept := EnteredFrom(front, time);
        forall i | 0 <= i < |kept|
          ensures kept[i].exit.Some? && kept[i].exit.value.time <= last.entryTime
        {
          EnteredOnes(front, time, kept[i]);
          var j :| 0 <= j < |front| && front[j] == kept[i];
          assert trades[j] == kept[i];
        }
        assert OneAtATime([last]) by { assert trades[|trades| - 1] == last; }
        Joined(kept, [last]);
      }
    }
  }

  /** Train on everything up to the training end, then replay the test range; `None` when an analysis fails. */
  ghost function ResultOfFold(cfg: BacktestConfig, spec: Risk.QtySpec, bars: seq<Candle>, warmup: nat,
                              fold: Fold): Option<FoldResult>
    requires Fits(fold, |bars|)
  {
    var train, test := RunOf(cfg, spec, bars[..fold.trainEnd + 1]), RunOf(cfg, spec, OosSlice(bars, fold, warmup));
    if train.None? || test.None? then None
    else Some(FoldResult(fold, |train.value.trades|, EnteredFrom(test.value.trades, bars[fold.testStart].time)))
  }

  predicate AllFit(folds: seq<Fold>, numBars: int) {
    forall i :: 0 <= i < |folds| ==> Fits(folds[i], numBars)
  }

  /** The results of the folds in order; `None` as soon as one fails. */
  ghost function ResultsOf(cfg: BacktestConfig, spec: Risk.QtySpec, bars: seq<Candle>, warmup: nat,
                           folds: seq<Fold>): Option<seq<FoldResult>>
    requires AllFit(folds, |bars|)
  {
    if folds == [] then Some([])
    else
      var before := ResultsOf(cfg, spec, bars, warmup, Front(folds));
      if before.None? then None
      else
        var result := ResultOfFold(cfg, spec, bars, warmup, Last(folds));
        if result.None? then None else Some(before.value + [result.value])
  }

  lemma {:induction false} ResultAt(cfg: BacktestConfig, spec: Risk.QtySpec, bars: seq<Candle>, warmup: nat,
                                    folds: seq<Fold>, i: nat)
    requires AllFit(folds, |bars|) && ResultsOf(cfg, spec, bars, warmup, folds).Some? && i < |folds|
    ensures var results := ResultsOf(cfg, spec, bars, warmup, folds).value;
            |results| == |folds| && Some(results[i]) == ResultOfFold(cfg, spec, bars, warmup, folds[i])
  {
    hide ResultOfFold;
    var front := Front(folds);
    if front == [] {
    } else if i == |folds| - 1 {
      ResultAt(cfg, spec, bars, warmup, front, 0);
    } else {
      ResultAt(cfg, spec, bars, warmup, front, i);
    }
  }

  /** All out-of-sample trades, fold after fold. */
  function Combined(results: seq<FoldResult>): seq<Trade> {
    if results == [] then [] else Combined(Front(results)) + Last(results).oosTrades
  }

  lemma AllFoldsFit(numBars: nat, warmup: nat, k: nat)
    ensures AllFit(FoldsOf(numBars, warmup, k), numBars)
  {
    var folds := FoldsOf(numBars, warmup, k);
    forall i | 0 <= i < |folds|
      ensures Fits(folds[i], numBars)
    {
      FoldsFit(numBars, warmup, k, i + 1);
    }
  }

  method RunFold(cfg: BacktestConfig, spec: Risk.QtySpec, bars: seq<Candle>, warmup: nat, fold: Fold)
    returns (result: Option<FoldResult>)
    requires Fits(fold, |bars|)
    ensures result == ResultOfFold(cfg, spec, bars, warmup, fold)
  {
    hide RunOf;
    var train := Run(cfg, spec, bars[..fold.trainEnd + 1]);
    if train.None? {
      return None;
    }
    var warmupStart := MaxInt(0, fold.testStart - warmup);
    var test := Run(cfg, spec, bars[warmupStart..fold.testEnd + 1]);
    if test.None? {
      return None;
    }
    result := Some(FoldResult(fold, |train.value.trades|, EnteredFrom(test.value.trades, bars[fold.testStart].time)));
  }

  method RunWalkForward(cfg: BacktestConfig, spec: Risk.QtySpec, bars: seq<Candle>, warmup: nat, k: nat)
    returns (results: Option<seq<FoldResult>>, trades: seq<Trade>)
    ensures AllFit(FoldsOf(|bars|, warmup, k), |bars|)
    ensures results == ResultsOf(cfg, spec, bars, warmup, FoldsOf(|bars|, warmup, k))
    ensures results.Some? ==> trades == Combined(results.value)
  {
    hide ResultOfFold, FoldsOf;
    var folds := WalkForwardFolds(|bars|, warmup, k);
    AllFoldsFit(|bars|, warmup, k);
    results, trades := Some([]), [];
    for i := 0 to |folds|
      invariant results.Some? && results == ResultsOf(cfg, spec, bars, warmup, folds[..i])
      invariant trades == Combined(results.value)
    {
      Grow(folds, i);
      var result := RunFold(cfg, spec, bars, warmup, folds[i]);
      if result.None? {
        FailureStays(cfg, spec, bars, warmup, folds, i + 1);
        return None, [];
      }
      Grow(results.value + [result.value], |results.value|);
      results, trades := Some(results.value + [result.value]), trades + result.value.oosTrades;
    }
    assert folds[..|folds|] == folds;
  }

  lemma {:induction false} FailureStays(cfg: BacktestConfig, spec: Risk.QtySpec, bars: seq<Candle>, warmup: nat,
                                        folds: seq<Fold>, i: nat)
    requires AllFit(folds, |bars|) && i <= |folds| && ResultsOf(cfg, spec, bars, warmup, folds[..i]).None?
    ensures ResultsOf(cfg, spec, bars, warmup, folds).None?
    decreases |folds| - i
  {
    hide ResultOfFold;
    if i == |folds| {
      assert folds[..i] == folds;
    } else {
      Grow(folds, i);
      FailureStays(cfg, spec, bars, warmup, folds, i + 1);
    }
  }

  // ---------- separation ----------

  /** Opened at bar e and left at the later bar x. */
  predicate Spans(t: Trade, bars: seq<Candle>, e: int, x: int) {
    0 <= e < x < |bars| && t.entryTime == bars[e].time && t.exit.Some? && t.exit.value.time == bars[x].time
  }

  /** A run opens after its warm-up, one trade at a time. */
  lemma RunInPlace(cfg: BacktestConfig, spec: Risk.QtySpec, bars: seq<Candle>)
    requires RunOf(cfg, spec, bars).Some? && IncreasingTimes(bars)
    ensures var trades := RunOf(cfg, spec, bars).value.trades;
            OneAtATime(trades) && forall i :: 0 <= i < |trades| ==> Placed(trades[i], bars, cfg.warmupBars, |bars|)
  {
    if |bars| >= cfg.warmupBars + 10 {
      hide StateAt, Analysis, Placed, OneAtATime;
      AnalysisLength(bars);
      StatesInPlace(cfg, spec, bars, Analysis(bars).value, |bars|);
    }
  }

  /** Every out-of-sample trade opens and closes inside the test range of its fold. */
  lemma OosInsideTestRange(cfg: BacktestConfig, spec: Risk.QtySpec, bars: seq<Candle>, warmup: nat, fold: Fold,
                           t: Trade) returns (e: int, x: int)
    requires Fits(fold, |bars|) && IncreasingTimes(bars)
    requires ResultOfFold(cfg, spec, bars, warmup, fold).Some?
    requires t in ResultOfFold(cfg, spec, bars, warmup, fold).value.oosTrades
    ensures Spans(t, bars, e, x) && fold.testStart <= e && x <= fold.testEnd
  {
    hide RunOf, EnteredFrom, OneAtATime, Placed;
    var slice, start := OosSlice(bars, fold, warmup), OosStart(fold, warmup);
    SliceTimes(bars, start, fold.testEnd + 1);
    RunInPlace(cfg, spec, slice);
    var trades := RunOf(cfg, spec, slice).value.trades;
    EnteredOnes(trades, bars[fold.testStart].time, t);
    var i :| 0 <= i < |trades| && trades[i] == t;
    assert Placed(trades[i], slice, cfg.warmupBars, |slice|);
    e, x := PlacedInSlice(bars, start, fold.testEnd + 1, cfg.warmupBars, t);
    assert bars[e].time >= bars[fold.testStart].time;
  }

  lemma PlacedInSlice(bars: seq<Candle>, lo: nat, hi: nat, warmup: int, t: Trade) returns (e: int, x: int)
    requires lo <= hi <= |bars| && Placed(t, bars[lo..hi], warmup, hi - lo)
    ensures Spans(t, bars, e, x) && lo <= e && x < hi
  {
    var slice := bars[lo..hi];
    var j :| t.entryBar + 1 <= j < hi - lo && LeftAt(t, slice, j);
    e, x := lo + t.entryBar, lo + j;
    assert slice[t.entryBar] == bars[e] && slice[j] == bars[x];
  }

  lemma SliceTimes(bars: seq<Candle>, lo: nat, hi: nat)
    requires IncreasingTimes(bars) && lo <= hi <= |bars|
    ensures IncreasingTimes(bars[lo..hi])
  {
    forall i, j | 0 <= i < j < hi - lo
      ensures bars[lo..hi][i].time < bars[lo..hi][j].time
    {
      assert bars[lo..hi][i] == bars[lo + i] && bars[lo..hi][j] == bars[lo + j];
    }
  }

  /** With the simulator's warm-up equal to the folds' warm-up the entry-time filter drops nothing: no trade can open
      before the test range, not even on its first bar. */
  lemma FilterDropsNothing(cfg: BacktestConfig, spec: Risk.QtySpec, bars: seq<Candle>, warmup: nat, fold: Fold)
    requires Fits(fold, |bars|) && IncreasingTimes(bars) && cfg.warmupBars == warmup <= fold.testStart
    requires ResultOfFold(cfg, spec, bars, warmup, fold).Some?
    ensures var kept, all :=
            ResultOfFold(cfg, spec, bars, warmup, fold).value.oosTrades,
            RunOf(cfg, spec, OosSlice(bars, fold, warmup)).value.trades;
            kept == all && forall i :: 0 <= i < |all| ==> all[i].entryTime > bars[fold.testStart].time
  {
    hide RunOf, EnteredFrom, OneAtATime;
    var slice, start := OosSlice(bars, fold, warmup), OosStart(fold, warmup);
    SliceTimes(bars, start, fold.testEnd + 1);
    RunInPlace(cfg, spec, slice);
    var trades := RunOf(cfg, spec, slice).value.trades;
    forall i | 0 <= i < |trades|
      ensures trades[i].entryTime > bars[fold.testStart].time
    {
      assert Placed(trades[i], slice, warmup, |slice|);
      assert slice[trades[i].entryBar] == bars[start + trades[i].entryBar];
    }
    AllEntered(trades, bars[fold.testStart].time);
  }

  /** The trades of one fold all lie in its test range, one at a time. */
  ghost predicate InTestRange(t: Trade, bars: seq<Candle>, fold: Fold) {
    exists e, x :: Spans(t, bars, e, x) && fold.testStart <= e && x <= fold.testEnd
  }

  ghost predicate Separated(r: FoldResult, bars: seq<Candle>) {
    OneAtATime(r.oosTrades) && forall t :: t in r.oosTrades ==> InTestRange(t, bars, r.fold)
  }

  lemma FoldIsSeparated(cfg: BacktestConfig, spec: Risk.QtySpec, bars: seq<Candle>, warmup: nat, fold: Fold)
    requires Fits(fold, |bars|) && IncreasingTimes(bars)
    requires ResultOfFold(cfg, spec, bars, warmup, fold).Some?
    ensures ResultOfFold(cfg, spec, bars, warmup, fold).value.fold == fold
    ensures Separated(ResultOfFold(cfg, spec, bars, warmup, fold).value, bars)
  {
    hide RunOf, OneAtATime, EnteredFrom;
    var r := ResultOfFold(cfg, spec, bars, warmup, fold).value;
    forall t | t in r.oosTrades
      ensures InTestRange(t, bars, fold)
    {
      var e, x := OosInsideTestRange(cfg, spec, bars, warmup, fold, t);
    }
    SliceTimes(bars, OosStart(fold, warmup), fold.testEnd + 1);
    RunInPlace(cfg, spec, OosSlice(bars, fold, warmup));
    EnteredOneAtATime(RunOf(cfg, spec, OosSlice(bars, fold, warmup)).value.trades, bars[fold.testStart].time);
  }

  /** A fold tests before the embargo bar of the other. */
  predicate Precedes(a: Fold, b: Fold) {
    a.testEnd < b.trainEnd + 1 < b.testStart
  }

  /** Results of folds whose ranges follow each other. */
  ghost predicate InOrder(results: seq<FoldResult>, bars: seq<Candle>) {
    && (forall i :: 0 <= i < |results| ==> Separated(results[i], bars))
    && forall i, j :: 0 <= i < j < |results| ==> Precedes(results[i].fold, results[j].fold)
  }

  lemma RangesApart(bars: seq<Candle>, t: Trade, before: Fold, u: Trade, after: Fold)
    requires IncreasingTimes(bars) && InTestRange(t, bars, before) && InTestRange(u, bars, after)
    requires before.testEnd < after.testStart
    ensures t.exit.Some? && t.exit.value.time < u.entryTime
  {
    var e, x :| Spans(t, bars, e, x) && before.testStart <= e && x <= before.testEnd;
    var e', x' :| Spans(u, bars, e', x') && after.testStart <= e' && x' <= after.testEnd;
  }

  lemma {:induction false} FromSomeFold(results: seq<FoldResult>, i: int) returns (f: int)
    requires 0 <= i < |Combined(results)|
    ensures 0 <= f < |results| && Combined(results)[i] in results[f].oosTrades
  {
    var before := Combined(Front(results));
    if i < |before| {
      f := FromSomeFold(Front(results), i);
      assert Front(results)[f] == results[f];
    } else {
      f := |results| - 1;
      assert Combined(results)[i] == Last(results).oosTrades[i - |before|];
    }
  }

  lemma FrontInOrder(bars: seq<Candle>, results: seq<FoldResult>)
    requires InOrder(results, bars) && results != []
    ensures InOrder(Front(results), bars)
  {
    hide Separated;
    var front := Front(results);
    forall i | 0 <= i < |front|
      ensures Separated(front[i], bars)
    {
      assert front[i] == results[i];
    }
    forall i, j | 0 <= i < j < |front|
      ensures Precedes(front[i].fold, front[j].fold)
    {
      assert front[i] == results[i] && front[j] == results[j];
    }
  }

  /** No two trades of the combined report overlap, within a fold or across folds. */
  lemma {:induction false} CombinedOneAtATime(bars: seq<Candle>, results: seq<FoldResult>)
    requires IncreasingTimes(bars) && InOrder(results, bars)
    ensures OneAtATime(Combined(results))
  {
    if results != [] {
      var front := Front(results);
      FrontInOrder(bars, results);
      CombinedOneAtATime(bars, front);
      var before, added := Combined(front), Last(results).oosTrades;
      assert OneAtATime(added);
      forall i, j | 0 <= i < |before| && 0 <= j < |added|
        ensures before[i].exit.Some? && before[i].exit.value.time <= added[j].entryTime
      {
        var f := FromSomeFold(front, i);
        assert front[f] == results[f];
        assert added[j] in added;
        RangesApart(bars, before[i], results[f].fold, added[j], Last(results).fold);
      }
      Joined(before, added);
      assert Combined(results) == before + added;
    } else {
      assert Combined(results) == [];
    }
  }

  lemma Joined(before: seq<Trade>, added: seq<Trade>)
    requires OneAtATime(before) && OneAtATime(added)
    requires forall i, j :: 0 <= i < |before| && 0 <= j < |added| ==>
             before[i].exit.Some? && before[i].exit.value.time <= added[j].entryTime
    ensures OneAtATime(before + added)
  {
    var all := before + added;
    forall i | 0 <= i < |all|
      ensures all[i].exit.Some?
    {
      assert all[i] == if i < |before| then before[i] else added[i - |before|];
    }
    forall i, j | 0 <= i < j < |all|
      ensures all[i].exit.value.time <= all[j].entryTime
    {
      assert all[i] == if i < |before| then before[i] else added[i - |before|];
      assert all[j] == if j < |before| then before[j] else added[j - |before|];
    }
  }

  /** The whole report: each fold's trades open and close inside its own test range, after its training range and the
      embargo bar, and the combined trades never overlap. */
  lemma ReportIsSeparated(cfg: BacktestConfig, spec: Risk.QtySpec, bars: seq<Candle>, warmup: nat, k: nat)
    requires AllFit(FoldsOf(|bars|, warmup, k), |bars|) && IncreasingTimes(bars)
    requires ResultsOf(cfg, spec, bars, warmup, FoldsOf(|bars|, warmup, k)).Some?
    ensures var results := ResultsOf(cfg, spec, bars, warmup, FoldsOf(|bars|, warmup, k)).value;
            InOrder(results, bars) && OneAtATime(Combined(results))
  {
    hide ResultOfFold, Separated, Combined;
    var folds := FoldsOf(|bars|, warmup, k);
    var results := ResultsOf(cfg, spec, bars, warmup, folds).value;
    if folds != [] { ResultAt(cfg, spec, bars, warmup, folds, 0); }
    forall i | 0 <= i < |results|
      ensures results[i].fold == folds[i] && Separated(results[i], bars)
    {
      ResultAt(cfg, spec, bars, warmup, folds, i);
      FoldIsSeparated(cfg, spec, bars, warmup, folds[i]);
    }
    forall i, j | 0 <= i < j < |results|
      ensures Precedes(results[i].fold, results[j].fold)
    {
      FoldsAhead(|bars|, warmup, k, i + 1, j + 1);
    }
    CombinedOneAtATime(bars, results);
  }

  /** Folds of ten bars are too short for the simulator: all but the last report no trade. */
  lemma TenBarFoldsTradeNothing(cfg: BacktestConfig, spec: Risk.QtySpec, bars: seq<Candle>, warmup: nat, k: nat, f: nat)
    requires Enough(|bars|, warmup, k) && 1 <= f < k && FoldLength(|bars|, warmup, k) == 10 && cfg.warmupBars == warmup
    ensures Fits(FoldAt(|bars|, warmup, k, f), |bars|)
    ensures ResultOfFold(cfg, spec, bars, warmup, FoldAt(|bars|, warmup, k, f)).Some? ==>
              ResultOfFold(cfg, spec, bars, warmup, FoldAt(|bars|, warmup, k, f)).value.oosTrades == []
  {
    hide StateAt, Analysis;
    FoldsFit(|bars|, warmup, k, f);
  }
}
