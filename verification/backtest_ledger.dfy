/** The money of a backtest (aura/backtest/engine.py): the ledger law over every run. */
module BacktestLedger {
  import opened Wrappers
  import Risk
  import opened Indicators
  import opened Scoring
  import opened Backtest

  function EntryCost(cfg: BacktestConfig, t: Trade): real {
    t.initQty * t.entry * cfg.takerFee
  }

  /** The maker fee of the half that was sold at the first target. */
  function Tp1Fee(cfg: BacktestConfig, t: Trade): real {
    if t.tp1Hit then SellFee(t.initQty * 0.5, t.tp1, cfg.makerFee) else 0.0
  }

  function EntryCosts(cfg: BacktestConfig, trades: seq<Trade>): real {
    if trades == [] then 0.0 else EntryCosts(cfg, Front(trades)) + EntryCost(cfg, Last(trades))
  }

  function Tp1Fees(cfg: BacktestConfig, trades: seq<Trade>): real {
    if trades == [] then 0.0 else Tp1Fees(cfg, Front(trades)) + Tp1Fee(cfg, Last(trades))
  }

  function RealizedOf(t: Trade): real {
    if t.exit.Some? then t.exit.value.realizedPnl else 0.0
  }

  function RealizedSum(trades: seq<Trade>): real {
    if trades == [] then 0.0 else RealizedSum(Front(trades)) + RealizedOf(Last(trades))
  }

  /** An open trade holds its whole quantity before the first target and half of it, stopped at the entry, after it. */
  predicate LiveTrade(cfg: BacktestConfig, t: Trade) {
    && t.exit.None?
    && t.fees == EntryCost(cfg, t) + Tp1Fee(cfg, t)
    && (if t.tp1Hit then t.qty == t.initQty * 0.5 && t.sl == t.entry
        else t.qty == t.initQty && t.tp1Pnl == 0.0)
  }

  /** The gross result of a finished trade has the fee of the first target taken out already, and its fees hold
      that fee once more. */
  predicate DoneTrade(cfg: BacktestConfig, t: Trade) {
    && t.exit.Some?
    && t.exit.value.grossPnl - t.fees == t.exit.value.realizedPnl - EntryCost(cfg, t) - Tp1Fee(cfg, t)
  }

  /** Equity is the starting equity, less all entry fees, plus everything realized: on finished trades and, for the
      open one, at its first target. */
  predicate LedgerLaw(cfg: BacktestConfig, s: BtState) {
    s.equity == cfg.startingEquity - EntryCosts(cfg, s.trades) + RealizedSum(s.trades)
                + (if s.active.Some? then s.active.value.tp1Pnl - EntryCost(cfg, s.active.value) else 0.0)
  }

  predicate Sound(cfg: BacktestConfig, s: BtState) {
    && LedgerLaw(cfg, s)
    && (s.active.Some? ==> LiveTrade(cfg, s.active.value))
    && forall k :: 0 <= k < |s.trades| ==> DoneTrade(cfg, s.trades[k])
  }

  lemma FinishedIsDone(cfg: BacktestConfig, t: Trade, bar: Candle, kind: ExitKind)
    requires LiveTrade(cfg, t)
    ensures var done := Finished(cfg, t, bar, kind);
            DoneTrade(cfg, done) && EntryCost(cfg, done) == EntryCost(cfg, t)
  {
    hide MoveGain, SellFee, LeavePrice;
  }

  lemma HalvedIsLive(cfg: BacktestConfig, t: Trade)
    requires LiveTrade(cfg, t) && !t.tp1Hit
    ensures var h := Halved(cfg, t);
            LiveTrade(cfg, h) && EntryCost(cfg, h) == EntryCost(cfg, t) && h.tp1Pnl == HalfGain(cfg, t)
  {
    hide MoveGain, SellFee;
  }

  lemma LeaveKeeps(cfg: BacktestConfig, s: BtState, done: Trade)
    requires Sound(cfg, s) && s.active.Some? && DoneTrade(cfg, done)
    requires EntryCost(cfg, done) == EntryCost(cfg, s.active.value)
    ensures Sound(cfg, s.(equity := s.equity + (done.exit.value.realizedPnl - s.active.value.tp1Pnl),
                          trades := s.trades + [done], active := None))
  {
    hide EntryCost, LiveTrade;
    var trades := s.trades + [done];
    assert Front(trades) == s.trades && Last(trades) == done;
  }

  lemma HalfKeeps(cfg: BacktestConfig, s: BtState, half: Trade)
    requires Sound(cfg, s) && s.active.Some? && s.active.value.tp1Pnl == 0.0
    requires LiveTrade(cfg, half) && EntryCost(cfg, half) == EntryCost(cfg, s.active.value)
    ensures Sound(cfg, s.(equity := s.equity + half.tp1Pnl, active := Some(half)))
  {
    hide EntryCost, LiveTrade, DoneTrade;
  }

  lemma ManageKeeps(cfg: BacktestConfig, s: BtState, i: int, bar: Candle)
    requires Sound(cfg, s)
    ensures Sound(cfg, Manage(cfg, s, i, bar))
  {
    if s.active.Some? {
      var t := s.active.value;
      var action := Decide(cfg, t, i, bar);
      TradeIsLive(cfg, s);
      hide Finished, Halved, HalfGain, DoneTrade, LiveTrade, Sound, Decide, EntryCost;
      if action.Leave? {
        FinishedIsDone(cfg, t, bar, action.kind);
        LeaveKeeps(cfg, s, Finished(cfg, t, bar, action.kind));
      } else if action.TakeHalf? {
        assert !t.tp1Hit by { HalvesOnce(cfg, t, i, bar); }
        HalvedIsLive(cfg, t);
        HalfKeeps(cfg, s, Halved(cfg, t));
      }
    }
  }

  lemma TradeIsLive(cfg: BacktestConfig, s: BtState)
    requires Sound(cfg, s) && s.active.Some?
    ensures LiveTrade(cfg, s.active.value)
    ensures !s.active.value.tp1Hit ==> s.active.value.tp1Pnl == 0.0
  {
  }

  lemma HalvesOnce(cfg: BacktestConfig, t: Trade, i: int, bar: Candle)
    requires Decide(cfg, t, i, bar).TakeHalf?
    ensures !t.tp1Hit
  {
  }

  lemma NewTradeIsLive(cfg: BacktestConfig, equity: real, spec: Risk.QtySpec, i: int, bar: Candle, signal: BarReading)
    ensures var t := NewTrade(cfg, equity, spec, i, bar, signal);
            t.Some? ==> LiveTrade(cfg, t.value) && t.value.fees == EntryCost(cfg, t.value) && t.value.tp1Pnl == 0.0
  {
    hide EntrySize;
  }

  lemma EnterKeeps(cfg: BacktestConfig, s: BtState, spec: Risk.QtySpec, i: int, bar: Candle, signal: BarReading)
    requires Sound(cfg, s)
    ensures Sound(cfg, Enter(cfg, s, spec, i, bar, signal))
  {
    NewTradeIsLive(cfg, s.equity, spec, i, bar, signal);
    hide NewTrade, LiveTrade, DoneTrade, EntryCost, EntryCosts, RealizedSum;
  }

  lemma BarKeeps(cfg: BacktestConfig, s: BtState, spec: Risk.QtySpec, i: int, bar: Candle, signal: Option<BarReading>)
    requires Sound(cfg, s)
    ensures Sound(cfg, BarStep(cfg, s, spec, i, bar, signal))
  {
    hide Sound, Manage, Enter, TrackDrawdown;
    var managed := Manage(cfg, s, i, bar);
    ManageKeeps(cfg, s, i, bar);
    if signal.Some? {
      EnterKeeps(cfg, managed, spec, i, bar, signal.value);
      DrawdownKeeps(cfg, Enter(cfg, managed, spec, i, bar, signal.value));
    } else {
      DrawdownKeeps(cfg, managed);
    }
  }

  /** The ledger law and the shape of the open trade hold before every bar of every run. */
  lemma {:induction false} EveryStateIsSound(cfg: BacktestConfig, spec: Risk.QtySpec, bars: seq<Candle>,
                                             readings: seq<BarReading>, m: nat)
    requires m <= |bars| && |readings| == |bars|
    ensures Sound(cfg, StateAt(cfg, spec, bars, readings, m))
  {
    if m > cfg.warmupBars {
      hide Sound, BarStep;
      var i := m - 1;
      EveryStateIsSound(cfg, spec, bars, readings, i);
      BarKeeps(cfg, StateAt(cfg, spec, bars, readings, i), spec, i, bars[i],
               if i > cfg.warmupBars then Some(readings[i - 1]) else None);
    } else {
      FirstIsSound(cfg);
      hide Sound, BarStep;
    }
  }

  lemma FirstIsSound(cfg: BacktestConfig)
    ensures Sound(cfg, Initial(cfg))
  {
  }

  lemma DrawdownKeeps(cfg: BacktestConfig, s: BtState)
    requires Sound(cfg, s)
    ensures Sound(cfg, TrackDrawdown(s))
  {
  }
}
