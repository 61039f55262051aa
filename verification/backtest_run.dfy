/** The bar loop of the replay engine, proved against `Backtest.RunOf`. */
module BacktestRun {
  import opened Wrappers
  import Risk
  import opened Indicators
  import opened Scoring
  import opened Analyzer
  import opened Backtest

  /** The collision, stop, second target, first target and timestop rules, in the engine's order. */
  method ManageTrade(cfg: BacktestConfig, t: Trade, i: int, bar: Candle) returns (o: BarOutcome)
    ensures o == TradeOutcome(cfg, t, i, bar)
  {
    hide MoveGain, SellFee, LeavePrice;
    var slHit := if t.dir == 1 then bar.low <= t.sl else bar.high >= t.sl;
    var tp1Hit := if t.dir == 1 then bar.high >= t.tp1 else bar.low <= t.tp1;
    var tp2Hit := if t.dir == 1 then bar.high >= t.tp2 else bar.low <= t.tp2;
    if slHit && (tp1Hit || tp2Hit) && cfg.intrabarConservative {
      o := LeaveTrade(cfg, t, bar, SlCollision);
    } else if slHit {
      o := LeaveTrade(cfg, t, bar, SlOnly);
    } else if tp2Hit {
      o := LeaveTrade(cfg, t, bar, Tp2);
    } else if tp1Hit && !t.tp1Hit {
      var closedQty := t.qty * 0.5;
      var tp1Fee := SellFee(closedQty, t.tp1, cfg.makerFee);
      var netTp1 := MoveGain(t, t.tp1, closedQty) - tp1Fee;
      o := BarOutcome(
        netTp1,
        Some(t.(qty := t.qty - closedQty, tp1Hit := true, sl := t.entry, tp1Pnl := netTp1, fees := t.fees + tp1Fee)),
        None);
    } else if i - t.entryBar >= cfg.maxHoldBars {
      o := LeaveTrade(cfg, t, bar, Timeout);
    } else {
      o := BarOutcome(0.0, Some(t), None);
    }
  }

  method LeaveTrade(cfg: BacktestConfig, t: Trade, bar: Candle, kind: ExitKind) returns (o: BarOutcome)
    ensures var done := Finished(cfg, t, bar, kind);
            o == BarOutcome(done.exit.value.realizedPnl - t.tp1Pnl, None, Some(done))
  {
    hide MoveGain, SellFee, LeavePrice;
    var exitP := LeavePrice(cfg, t, bar, kind);
    var gross := MoveGain(t, exitP, t.qty);
    var exitFee := SellFee(t.qty, exitP, if kind.Tp2? then cfg.makerFee else cfg.takerFee);
    var netPnl := gross - exitFee + t.tp1Pnl;
    var rNet := if t.initRisk > 0.0 then netPnl / t.initRisk else 0.0;
    var done := t.(
      outcome := if kind.Tp2? || netPnl > 0.0 then Win else Loss,
      fees := t.fees + exitFee,
      exit := Some(TradeExit(exitP, bar.time, kind, gross + t.tp1Pnl, netPnl, rNet)));
    o := BarOutcome(gross - exitFee, None, Some(done));
  }

  /** The body of the bar loop: manage the open trade, look for an entry, track the drawdown. */
  method OneBar(cfg: BacktestConfig, spec: Risk.QtySpec, s: BtState, i: int, bar: Candle, signal: Option<BarReading>)
    returns (t: BtState)
    ensures t == BarStep(cfg, s, spec, i, bar, signal)
  {
    hide TradeOutcome, NewTrade, TrackDrawdown;
    var equity, trades, active := s.equity, s.trades, s.active;
    if active.Some? {
      var o := ManageTrade(cfg, active.value, i, bar);
      equity, active := equity + o.gain, o.kept;
      if o.done.Some? {
        trades := trades + [o.done.value];
      }
    }
    if active.None? && signal.Some? {
      var entered := NewTrade(cfg, equity, spec, i, bar, signal.value);
      if entered.Some? {
        equity, active := equity - entered.value.fees, entered;
      }
    }
    t := Drawdown(s.(equity := equity, trades := trades, active := active));
  }

  method Drawdown(s: BtState) returns (t: BtState)
    ensures t == TrackDrawdown(s)
  {
    var peak, maxDd := s.peak, s.maxDd;
    if s.equity > peak {
      peak := s.equity;
    }
    var dd := if peak > 0.0 then (peak - s.equity) / peak * 100.0 else 0.0;
    if dd > maxDd {
      maxDd := dd;
    }
    t := s.(peak := peak, maxDd := maxDd);
  }

  /** The bar loop: each bar is managed, then entered on the reading of the bar before. */
  method RunBars(cfg: BacktestConfig, spec: Risk.QtySpec, bars: seq<Candle>, readings: seq<BarReading>)
    returns (s: BtState)
    requires |readings| == |bars| && cfg.warmupBars <= |bars|
    ensures s == StateAt(cfg, spec, bars, readings, |bars|)
  {
    hide BarStep;
    s := Initial(cfg);
    for i := cfg.warmupBars to |bars|
      invariant s == StateAt(cfg, spec, bars, readings, i)
    {
      s := OneBar(cfg, spec, s, i, bars[i], if i > cfg.warmupBars then Some(readings[i - 1]) else None);
    }
  }

  method Run(cfg: BacktestConfig, spec: Risk.QtySpec, bars: seq<Candle>) returns (result: Option<BacktestResult>)
    ensures result == RunOf(cfg, spec, bars)
  {
    if |bars| < cfg.warmupBars + 10 {
      return Some(BacktestResult([], None, cfg.startingEquity, 0.0));
    }
    hide Analysis, StateAt, InputsIn, Summarizes, ResultOf;
    var analysis := AnalyzeCandles(bars);
    if analysis.None? {
      return None;
    }
    assert |analysis.value.readings| == |bars| by { AnalysisLength(bars); }
    var s := RunBars(cfg, spec, bars, analysis.value.readings);
    result := Some(ResultOf(s));
  }

  // ---------- no look-ahead ----------

  lemma {:induction false} SameStates(cfg: BacktestConfig, spec: Risk.QtySpec, a: seq<Candle>, b: seq<Candle>,
                                      ra: seq<BarReading>, rb: seq<BarReading>, m: nat)
    requires |ra| == |a| && |rb| == |b|
    requires m <= |a| && m <= |b| && a[..m] == b[..m] && ra[..m] == rb[..m]
    ensures StateAt(cfg, spec, a, ra, m) == StateAt(cfg, spec, b, rb, m)
  {
    hide BarStep;
    if m > cfg.warmupBars {
      var i := m - 1;
      TakeTake(a, m);
      assert a[..i] == a[..m][..i] && b[..i] == b[..m][..i] && ra[..i] == ra[..m][..i] && rb[..i] == rb[..m][..i];
      SameStates(cfg, spec, a, b, ra, rb, i);
      assert a[i] == a[..m][i] && b[i] == b[..m][i];
      if i > cfg.warmupBars {
        assert ra[i - 1] == ra[..m][i - 1] && rb[i - 1] == rb[..m][i - 1];
      }
    }
  }

  /** The trade left at bar j. */
  predicate LeftAt(t: Trade, bars: seq<Candle>, j: int) {
    0 <= j < |bars| && t.exit.Some? && t.exit.value.time == bars[j].time
  }

  ghost predicate LeftBetween(t: Trade, bars: seq<Candle>, lo: int, hi: int) {
    exists j :: lo <= j < hi && LeftAt(t, bars, j)
  }

  lemma StepAppends(cfg: BacktestConfig, s: BtState, spec: Risk.QtySpec, i: int, bar: Candle,
                    signal: Option<BarReading>)
    ensures var t := BarStep(cfg, s, spec, i, bar, signal);
            t.trades == s.trades ||
              (exists done: Trade ::
               done.exit.Some? && done.exit.value.time == bar.time && t.trades == s.trades + [done])
  {
    hide MoveGain, SellFee, LeavePrice, LeaveFee, HalfGain, NewTrade, Decide, TrackDrawdown;
    DrawdownKeepsTrades(cfg, s, spec, i, bar, signal);
    if s.active.Some? && Decide(cfg, s.active.value, i, bar).Leave? {
      var done := Finished(cfg, s.active.value, bar, Decide(cfg, s.active.value, i, bar).kind);
      assert done.exit.value.time == bar.time;
      assert Manage(cfg, s, i, bar).trades == s.trades + [done];
    }
  }

  lemma DrawdownKeepsTrades(cfg: BacktestConfig, s: BtState, spec: Risk.QtySpec, i: int, bar: Candle,
                            signal: Option<BarReading>)
    ensures BarStep(cfg, s, spec, i, bar, signal).trades == Manage(cfg, s, i, bar).trades
  {
    hide Manage, NewTrade;
  }

  /** Later bars only append trades, and those leave at the later bars. */
  lemma {:induction false} TradesGrow(cfg: BacktestConfig, spec: Risk.QtySpec, bars: seq<Candle>,
                                      readings: seq<BarReading>, m: nat, n: nat)
    requires |readings| == |bars| && m <= n <= |bars|
    ensures var part, all := StateAt(cfg, spec, bars, readings, m).trades, StateAt(cfg, spec, bars, readings, n).trades;
            part <= all && forall k :: |part| <= k < |all| ==> LeftBetween(all[k], bars, m, n)
    decreases n
  {
    hide BarStep;
    if m < n && n > cfg.warmupBars {
      var i := n - 1;
      TradesGrow(cfg, spec, bars, readings, m, i);
      var part, before, all :=
        StateAt(cfg, spec, bars, readings, m).trades, StateAt(cfg, spec, bars, readings, i).trades,
        StateAt(cfg, spec, bars, readings, n).trades;
      StepAppends(cfg, StateAt(cfg, spec, bars, readings, i), spec, i, bars[i],
                  if i > cfg.warmupBars then Some(readings[i - 1]) else None);
      assert |before| <= |all| && before == all[..|before|];
      forall k | |part| <= k < |all|
        ensures LeftBetween(all[k], bars, m, n)
      {
        if k < |before| {
          assert all[k] == before[k] && LeftBetween(before[k], bars, m, i);
          var j :| m <= j < i && LeftAt(before[k], bars, j);
          assert LeftAt(all[k], bars, j);
        } else {
          assert LeftAt(all[k], bars, i);
        }
      }
    }
  }

  predicate IncreasingTimes(bars: seq<Candle>) {
    forall i, j :: 0 <= i < j < |bars| ==> bars[i].time < bars[j].time
  }

  /** Running on a prefix gives exactly the trades of the full run that closed inside that prefix, unchanged. */
  lemma BacktestNoLookAhead(cfg: BacktestConfig, spec: Risk.QtySpec, bars: seq<Candle>, m: nat)
    requires WARMUP_DEFAULT <= m <= |bars| && cfg.warmupBars + 10 <= m && m > 0
    requires IncreasingTimes(bars)
    requires RunOf(cfg, spec, bars).Some?
    ensures RunOf(cfg, spec, bars[..m]).Some?
    ensures var part, all := RunOf(cfg, spec, bars[..m]).value.trades, RunOf(cfg, spec, bars).value.trades;
            && part <= all
            && forall k :: 0 <= k < |all| ==>
               all[k].exit.Some? && (k < |part| <==> all[k].exit.value.time <= bars[m - 1].time)
  {
    hide BarStep, Analysis;
    var prefix := bars[..m];
    PrefixSucceeds(bars, m);
    assert prefix[..m] == prefix == bars[..m];
    NoLookAhead(prefix, bars, m);
    AnalysisLength(bars);
    AnalysisLength(prefix);
    var rp, rb := Analysis(prefix).value, Analysis(bars).value;
    assert rp[..m] == rp;
    SameStates(cfg, spec, prefix, bars, rp, rb, m);
    var part, all := StateAt(cfg, spec, prefix, rp, m).trades, StateAt(cfg, spec, bars, rb, |bars|).trades;
    TradesGrow(cfg, spec, bars, rb, m, |bars|);
    TradesGrow(cfg, spec, bars, rb, 0, m);
    assert StateAt(cfg, spec, bars, rb, 0).trades == [];
    forall k | 0 <= k < |all|
      ensures all[k].exit.Some? && (k < |part| <==> all[k].exit.value.time <= bars[m - 1].time)
    {
      if k < |part| {
        assert all[k] == part[k] && LeftBetween(part[k], bars, 0, m);
        var j :| 0 <= j < m && LeftAt(part[k], bars, j);
        assert bars[j].time <= bars[m - 1].time;
      } else {
        assert LeftBetween(all[k], bars, m, |bars|);
        var j :| m <= j < |bars| && LeftAt(all[k], bars, j);
        assert bars[m - 1].time < bars[j].time;
      }
    }
  }
}
