/** How far `reconcile_accounting` (aura/core/stats.py) is from the equity of a backtest (aura/backtest/engine.py). */
module BacktestAccounting {
  import opened Wrappers
  import Risk
  import Positions
  import opened Indicators
  import opened Scoring
  import opened Backtest
  import opened BacktestLedger

  function GrossOf(t: Trade): real {
    if t.exit.Some? then t.exit.value.grossPnl else 0.0
  }

  function CountedFees(t: Trade): real {
    if t.fees >= 0.0 then t.fees else 0.0
  }

  function GrossSum(trades: seq<Trade>): real {
    if trades == [] then 0.0 else GrossSum(Front(trades)) + GrossOf(Last(trades))
  }

  function FeeSum(trades: seq<Trade>): real {
    if trades == [] then 0.0 else FeeSum(Front(trades)) + CountedFees(Last(trades))
  }

  /** What the check leaves uncounted: fees below zero. */
  function UncountedFees(trades: seq<Trade>): real {
    if trades == [] then 0.0 else UncountedFees(Front(trades)) + (Last(trades).fees - CountedFees(Last(trades)))
  }

  /** The equity that the accounting check expects from a list of trades. */
  method ExpectedEquity(starting: real, trades: seq<Trade>) returns (expected: real)
    ensures expected == starting + GrossSum(trades) - FeeSum(trades)
  {
    var gross, fees := 0.0, 0.0;
    for k := 0 to |trades|
      invariant gross == GrossSum(trades[..k]) && fees == FeeSum(trades[..k])
    {
      Grow(trades, k);
      gross := gross + GrossOf(trades[k]);
      fees := fees + CountedFees(trades[k]);
    }
    assert trades[..|trades|] == trades;
    expected := starting + gross - fees;
  }

  lemma {:induction false} GrossLessFees(cfg: BacktestConfig, trades: seq<Trade>)
    requires forall k :: 0 <= k < |trades| ==> DoneTrade(cfg, trades[k])
    ensures GrossSum(trades) - FeeSum(trades) ==
            RealizedSum(trades) - EntryCosts(cfg, trades) - Tp1Fees(cfg, trades) + UncountedFees(trades)
  {
    hide EntryCost, Tp1Fee;
    if trades != [] {
      GrossLessFees(cfg, Front(trades));
      assert DoneTrade(cfg, Last(trades));
    }
  }

  /** What the list of finished trades cannot know of an open one: its entry fee, less what its first target banked. */
  function OpenPart(cfg: BacktestConfig, active: Option<Trade>): real {
    if active.Some? then EntryCost(cfg, active.value) - active.value.tp1Pnl else 0.0
  }

  /** In every run the accounting check is off by exactly three things: the first-target fees, which it counts twice,
      fees below zero, which it drops, and the open trade, which it does not see. */
  lemma ReconcileDiscrepancy(cfg: BacktestConfig, spec: Risk.QtySpec, bars: seq<Candle>)
    requires RunOf(cfg, spec, bars).Some?
    ensures var r := RunOf(cfg, spec, bars).value;
            cfg.startingEquity + GrossSum(r.trades) - FeeSum(r.trades) ==
            r.endingEquity - Tp1Fees(cfg, r.trades) + UncountedFees(r.trades) + OpenPart(cfg, r.active)
  {
    hide Analysis, StateAt, DoneTrade, LiveTrade;
    var r := RunOf(cfg, spec, bars).value;
    if |bars| >= cfg.warmupBars + 10 {
      AnalysisLength(bars);
      EveryStateIsSound(cfg, spec, bars, Analysis(bars).value, |bars|);
      GrossLessFees(cfg, r.trades);
    }
  }

  // ---------- positive prices ----------

  predicate PositiveBars(bars: seq<Candle>) {
    forall i :: 0 <= i < |bars| ==> 0.0 < bars[i].low && 0.0 < bars[i].close
  }

  /** No fee is negative, and slippage does not turn a price over. */
  predicate FairCosts(cfg: BacktestConfig) {
    cfg.makerFee >= 0.0 && cfg.takerFee >= 0.0 && -10000.0 < cfg.slippageBps < 10000.0
  }

  /** Bought or sold something, reached its first target at a positive price if at all, and paid no negative fee. */
  predicate Priced(t: Trade) {
    0.0 < t.initQty && 0.0 < t.entry && (t.tp1Hit ==> 0.0 < t.tp1) && 0.0 <= t.fees
  }

  /** An open trade: besides, a long's targets and a short's stop are positive. */
  predicate PricedOpen(t: Trade) {
    Priced(t) && 0.0 < t.qty && ((t.dir == 1 && 0.0 < t.tp1 && 0.0 < t.tp2) || (t.dir == -1 && 0.0 < t.sl))
  }

  predicate AllPriced(s: BtState) {
    && (s.active.Some? ==> PricedOpen(s.active.value))
    && forall k :: 0 <= k < |s.trades| ==> Priced(s.trades[k])
  }

  lemma FeeIsFair(qty: real, price: real, rate: real)
    requires 0.0 < qty && 0.0 < price && 0.0 <= rate
    ensures 0.0 <= SellFee(qty, price, rate)
  {
    MulStrict(0.0, qty, price);
    MulMono(0.0, rate, qty * price);
  }

  lemma SlippedIsPositive(cfg: BacktestConfig, price: real, dir: int)
    requires FairCosts(cfg) && 0.0 < price && (dir == 1 || dir == -1)
    ensures 0.0 < SlippedOut(cfg, price, dir)
  {
    MulStrict(0.0, price, 1.0 - cfg.slippageBps / 10000.0 * dir as real);
  }

  /** A stop or target that is reached lies at a positive price: at or above the low of the bar, or on the safe side of
      the entry. */
  lemma LeavesAtPositivePrice(cfg: BacktestConfig, t: Trade, i: int, bar: Candle)
    requires FairCosts(cfg) && PricedOpen(t) && 0.0 < bar.low && 0.0 < bar.close && Decide(cfg, t, i, bar).Leave?
    ensures 0.0 < LeavePrice(cfg, t, bar, Decide(cfg, t, i, bar).kind)
  {
    hide SlippedOut;
    var kind := Decide(cfg, t, i, bar).kind;
    match kind
    case Tp2 =>
    case Timeout => SlippedIsPositive(cfg, bar.close, t.dir);
    case _ => SlippedIsPositive(cfg, t.sl, t.dir);
  }

  lemma ManagePriced(cfg: BacktestConfig, s: BtState, i: int, bar: Candle)
    requires FairCosts(cfg) && AllPriced(s) && 0.0 < bar.low && 0.0 < bar.close
    ensures AllPriced(Manage(cfg, s, i, bar))
  {
    hide MoveGain, LeavePrice, SellFee, LeaveFee;
    if s.active.Some? {
      var t := s.active.value;
      var action := Decide(cfg, t, i, bar);
      if action.Leave? {
        LeavesAtPositivePrice(cfg, t, i, bar);
        LeaveFeeIsFair(cfg, t, LeavePrice(cfg, t, bar, action.kind), action.kind);
      } else if action.TakeHalf? {
        FeeIsFair(t.qty * 0.5, t.tp1, cfg.makerFee);
      }
    }
  }

  lemma LeaveFeeIsFair(cfg: BacktestConfig, t: Trade, price: real, kind: ExitKind)
    requires FairCosts(cfg) && 0.0 < t.qty && 0.0 < price
    ensures 0.0 <= LeaveFee(cfg, t, price, kind)
  {
    FeeIsFair(t.qty, price, if kind.Tp2? then cfg.makerFee else cfg.takerFee);
  }

  lemma NewTradePriced(cfg: BacktestConfig, equity: real, spec: Risk.QtySpec, i: int, bar: Candle, signal: BarReading)
    requires FairCosts(cfg)
    ensures var t := NewTrade(cfg, equity, spec, i, bar, signal); t.Some? ==> PricedOpen(t.value)
  {
    hide EntrySize, Max;
    var t := NewTrade(cfg, equity, spec, i, bar, signal);
    if t.Some? {
      var stopDist := Max(signal.atr * 1.5, t.value.entry * 0.005);
      SizedIsPositive(cfg, equity, spec, t.value.entry, stopDist);
      FeeIsFair(t.value.qty, t.value.entry, cfg.takerFee);
    }
  }

  lemma SizedIsPositive(cfg: BacktestConfig, equity: real, spec: Risk.QtySpec, entry: real, stopDist: real)
    requires EntrySize(cfg, equity, spec, entry, stopDist).contracts > 0
    ensures entry > 0.0 && stopDist > 0.0
  {
    hide Risk.SizePosition, RiskAmount;
    Positions.SizeNeedsPositive(RiskAmount(cfg, equity), entry, stopDist, cfg.leverage, spec);
  }

  lemma {:induction false} StatesPriced(cfg: BacktestConfig, spec: Risk.QtySpec, bars: seq<Candle>,
                                        readings: seq<BarReading>, m: nat)
    requires m <= |bars| == |readings| && FairCosts(cfg) && PositiveBars(bars)
    ensures AllPriced(StateAt(cfg, spec, bars, readings, m))
  {
    hide Manage, NewTrade, TrackDrawdown, PricedOpen, Priced, FairCosts;
    if m > cfg.warmupBars {
      var i := m - 1;
      StatesPriced(cfg, spec, bars, readings, i);
      var s := StateAt(cfg, spec, bars, readings, i);
      ManagePriced(cfg, s, i, bars[i]);
      var managed := Manage(cfg, s, i, bars[i]);
      if i > cfg.warmupBars {
        NewTradePriced(cfg, managed.equity, spec, i, bars[i], readings[i - 1]);
        DrawdownLeaves(Enter(cfg, managed, spec, i, bars[i], readings[i - 1]));
      } else {
        DrawdownLeaves(managed);
      }
    }
  }

  lemma DrawdownLeaves(s: BtState)
    ensures TrackDrawdown(s).trades == s.trades && TrackDrawdown(s).active == s.active
  {
  }

  lemma {:induction false} NothingUncounted(trades: seq<Trade>)
    requires forall k :: 0 <= k < |trades| ==> trades[k].fees >= 0.0
    ensures UncountedFees(trades) == 0.0
  {
    if trades != [] {
      NothingUncounted(Front(trades));
    }
  }

  lemma RunPriced(cfg: BacktestConfig, spec: Risk.QtySpec, bars: seq<Candle>)
    requires RunOf(cfg, spec, bars).Some? && FairCosts(cfg) && PositiveBars(bars)
    ensures var r := RunOf(cfg, spec, bars).value;
            && (forall k :: 0 <= k < |r.trades| ==> Priced(r.trades[k]))
            && (r.active.Some? ==> PricedOpen(r.active.value))
  {
    hide Analysis, StateAt, Priced, PricedOpen;
    if |bars| >= cfg.warmupBars + 10 {
      AnalysisLength(bars);
      StatesPriced(cfg, spec, bars, Analysis(bars).value, |bars|);
    }
  }

  /** With a maker fee, the fees of the first targets add up to nothing exactly when no trade reached its first
      target. */
  lemma {:induction false} Tp1FeesVanish(cfg: BacktestConfig, trades: seq<Trade>)
    requires cfg.makerFee > 0.0
    requires forall k :: 0 <= k < |trades| ==> Priced(trades[k])
    ensures Tp1Fees(cfg, trades) >= 0.0
    ensures Tp1Fees(cfg, trades) == 0.0 <==> forall k :: 0 <= k < |trades| ==> !trades[k].tp1Hit
  {
    if trades != [] {
      Tp1FeesVanish(cfg, Front(trades));
      assert Last(trades) == trades[|trades| - 1];
      assert forall k :: 0 <= k < |Front(trades)| ==> Front(trades)[k] == trades[k];
      PositiveFee(cfg, Last(trades));
      hide Tp1Fee;
    }
  }

  lemma PositiveFee(cfg: BacktestConfig, t: Trade)
    requires cfg.makerFee > 0.0 && Priced(t)
    ensures if t.tp1Hit then Tp1Fee(cfg, t) > 0.0 else Tp1Fee(cfg, t) == 0.0
  {
    if t.tp1Hit {
      MulStrict(0.0, t.initQty * 0.5, t.tp1);
      MulStrict(0.0, t.initQty * 0.5 * t.tp1, cfg.makerFee);
    }
  }

  lemma PositiveEntryCost(cfg: BacktestConfig, t: Trade)
    requires cfg.takerFee > 0.0 && Priced(t)
    ensures EntryCost(cfg, t) > 0.0
  {
    MulStrict(0.0, t.initQty, t.entry);
    MulStrict(0.0, t.initQty * t.entry, cfg.takerFee);
  }

  predicate NoFirstTarget(trades: seq<Trade>) {
    forall k :: 0 <= k < |trades| ==> !trades[k].tp1Hit
  }

  /** For every run over positive prices with positive fees, the accounting check gives the simulator's equity if and
      only if no trade is open and none reached its first target, or one is open whose entry fee, less what its own
      first target banked, is exactly what the finished trades paid at theirs. */
  lemma ReconcileExactly(cfg: BacktestConfig, spec: Risk.QtySpec, bars: seq<Candle>)
    requires RunOf(cfg, spec, bars).Some? && FairCosts(cfg) && PositiveBars(bars)
    requires cfg.makerFee > 0.0 && cfg.takerFee > 0.0
    ensures var r := RunOf(cfg, spec, bars).value;
            cfg.startingEquity + GrossSum(r.trades) - FeeSum(r.trades) == r.endingEquity
            <==> if r.active.None? then NoFirstTarget(r.trades) else Tp1Fees(cfg, r.trades) == OpenPart(cfg, r.active)
    ensures var r := RunOf(cfg, spec, bars).value;
            r.active.Some? && !r.active.value.tp1Hit && NoFirstTarget(r.trades) ==>
              cfg.startingEquity + GrossSum(r.trades) - FeeSum(r.trades) > r.endingEquity
  {
    hide RunOf, EntryCost, Tp1Fees;
    var r := RunOf(cfg, spec, bars).value;
    ReconcileDiscrepancy(cfg, spec, bars);
    RunPriced(cfg, spec, bars);
    NothingUncounted(r.trades);
    Tp1FeesVanish(cfg, r.trades);
    if r.active.Some? {
      PositiveEntryCost(cfg, r.active.value);
      OpenBeforeTarget(cfg, spec, bars);
    }
  }

  lemma OpenBeforeTarget(cfg: BacktestConfig, spec: Risk.QtySpec, bars: seq<Candle>)
    requires RunOf(cfg, spec, bars).Some? && RunOf(cfg, spec, bars).value.active.Some?
    ensures var t := RunOf(cfg, spec, bars).value.active.value; !t.tp1Hit ==> t.tp1Pnl == 0.0
  {
    hide Analysis, StateAt, DoneTrade, LedgerLaw;
    if |bars| >= cfg.warmupBars + 10 {
      AnalysisLength(bars);
      EveryStateIsSound(cfg, spec, bars, Analysis(bars).value, |bars|);
    }
  }

  // ---------- a run that the check gets wrong ----------

  const CFG := BacktestConfig(1000.0, 1.0, 0.01, 0.01, 0.0, 1, 100, 0, true)

  const SPEC := Risk.QtySpec(Some(1.0), Some(0.0), Some(0.0))

  /** A reading that calls for a long trade. */
  const SIGNAL := BarReading(
    Scores(70.0, 70.0, 70.0, 70.0, 70.0, 1), 4.0, 1, None, None, 1, None, None, None, None, 0, false)

  const QUIET := SIGNAL.(stDir := 0)

  const READINGS := [SIGNAL, SIGNAL, QUIET, QUIET]

  /** The trade enters at 100 on the second bar, reaches its first target on the third and its stop on the fourth. */
  const BARS := [
    Candle(0, 100.0, 101.0, 99.0, 100.0, 1.0), Candle(1, 100.0, 101.0, 99.0, 100.0, 1.0),
    Candle(2, 105.0, 110.0, 104.0, 105.0, 1.0), Candle(3, 101.0, 102.0, 99.0, 100.0, 1.0)]

  const ENTERED := Trade(
    1, 100.0, 94.0, 109.0, 118.0, 1.0, 1, 1.0, 6.0, 70.0, 1, 1, false, 0.0, 1.0, Pending, None)

  lemma SizedOne()
    ensures var size := EntrySize(CFG, 1000.0, SPEC, 100.0, 6.0); size.qty == 1.0 && size.contracts == 1
  {
    assert RiskAmount(CFG, 1000.0) == 10.0;
    assert 1.0 < 10.0 / 6.0 / 1.0 < 2.0 && Risk.BudgetSteps(10.0, 6.0, 1.0) == 1;
    assert 0.0 / 1.0 == 0.0 && Risk.LeastSteps(0.0, 1.0) == 1;
    assert Risk.SizeSteps(10.0, 100.0, 6.0, SPEC) == 1;
    hide Risk.SizeSteps, Risk.Quantize8;
  }

  /** After the second bar the trade is open, and the check misses its entry fee. */
  lemma OpenTrade()
    ensures var s := StateAt(CFG, SPEC, BARS, READINGS, 2);
            && s.trades == [] && s.active == Some(ENTERED) && s.equity == 999.0
            && CFG.startingEquity + GrossSum(s.trades) - FeeSum(s.trades) == s.equity + 1.0
  {
    SizedOne();
    hide EntrySize;
    var first := StateAt(CFG, SPEC, BARS, READINGS, 1);
    assert StateAt(CFG, SPEC, BARS, READINGS, 0) == Initial(CFG);
    assert first == TrackDrawdown(Initial(CFG));
    assert 100.0 * (1.0 + 0.0 / 10000.0 * 1.0) == 100.0 && Max(4.0 * 1.5, 100.0 * 0.005) == 6.0;
    assert NewTrade(CFG, 1000.0, SPEC, 1, BARS[1], SIGNAL) == Some(ENTERED);
    hide NewTrade;
  }

  /** After the third bar half of the trade is sold. */
  lemma HalfSold()
    ensures var s := StateAt(CFG, SPEC, BARS, READINGS, 3);
            && s.trades == [] && s.active == Some(Halved(CFG, ENTERED)) && s.equity == 999.0 + HalfGain(CFG, ENTERED)
  {
    hide StateAt, NewTrade;
    OpenTrade();
    OneMoreBar(2);
    assert Decide(CFG, ENTERED, 2, BARS[2]) == TakeHalf;
    hide Decide, HalfGain, Halved;
  }

  lemma OneMoreBar(i: nat)
    requires 0 < i < 4
    ensures StateAt(CFG, SPEC, BARS, READINGS, i + 1) ==
            BarStep(CFG, StateAt(CFG, SPEC, BARS, READINGS, i), SPEC, i, BARS[i], Some(READINGS[i - 1]))
  {
    hide BarStep;
  }

  const LEFT := Finished(CFG, Halved(CFG, ENTERED), BARS[3], SlOnly)

  /** After the fourth bar the rest is stopped out. */
  lemma StoppedOut()
    ensures var s := StateAt(CFG, SPEC, BARS, READINGS, 4); s.trades == [LEFT] && s.active.None?
  {
    hide StateAt, NewTrade;
    HalfSold();
    OneMoreBar(3);
    assert Halved(CFG, ENTERED).sl == 100.0 && Halved(CFG, ENTERED).tp1 == 109.0 && Halved(CFG, ENTERED).tp2 == 118.0;
    hide HalfGain, Halved;
    assert Decide(CFG, Halved(CFG, ENTERED), 3, BARS[3]) == Leave(SlOnly);
    QuietEnters(3);
    hide Decide, Finished, Enter;
  }

  lemma QuietEnters(i: nat)
    ensures forall s, bar :: Enter(CFG, s, SPEC, i, bar, QUIET) == s
  {
    hide EntrySize;
  }

  /** A run of the bar loop, on explicit readings, whose finished trade reached its first target: the expected equity is
      short by that target's fee. */
  lemma CheckFails()
    ensures var s := StateAt(CFG, SPEC, BARS, READINGS, 4);
            && s.active.None? && |s.trades| == 1 && s.trades[0].tp1Hit
            && CFG.startingEquity + GrossSum(s.trades) - FeeSum(s.trades) == s.equity - 0.545
  {
    hide StateAt;
    var s := StateAt(CFG, SPEC, BARS, READINGS, 4);
    StoppedOut();
    EveryStateIsSound(CFG, SPEC, BARS, READINGS, 4);
    GrossLessFees(CFG, s.trades);
    LeftFees();
    hide LEFT;
    OneTrade(LEFT);
  }

  lemma LeftFees()
    ensures LEFT.tp1Hit && LEFT.fees >= 0.0 && Tp1Fee(CFG, LEFT) == 0.545
  {
  }

  lemma OneTrade(t: Trade)
    ensures Tp1Fees(CFG, [t]) == Tp1Fee(CFG, t) && UncountedFees([t]) == t.fees - CountedFees(t)
  {
    hide Tp1Fee, CountedFees;
    assert Front([t]) == [];
  }
}
