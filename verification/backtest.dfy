/** The replay engine (aura/backtest/engine.py): one open trade at a time, signals of the previous bar,
    entries at the open of the next one. */
module Backtest {
  import opened Wrappers
  import Risk
  import opened Indicators
  import opened Scoring

  datatype BacktestConfig = BacktestConfig(
    startingEquity: real, riskPerTradePct: real, makerFee: real, takerFee: real, slippageBps: real, leverage: int,
    maxHoldBars: int, warmupBars: nat, intrabarConservative: bool)

  datatype Outcome = Pending | Win | Loss

  datatype ExitKind = SlCollision | SlOnly | Tp2 | Timeout

  datatype TradeExit = TradeExit(price: real, time: int, kind: ExitKind, grossPnl: real, realizedPnl: real, rNet: real)

  datatype Trade = Trade(
    dir: int, entry: real, sl: real, tp1: real, tp2: real, qty: real, contracts: int, initQty: real, initRisk: real,
    score: real, entryBar: int, entryTime: int, tp1Hit: bool, tp1Pnl: real, fees: real, outcome: Outcome,
    exit: Option<TradeExit>)

  /** The running variables of the bar loop. */
  datatype BtState = BtState(equity: real, trades: seq<Trade>, active: Option<Trade>, peak: real, maxDd: real)

  function Initial(cfg: BacktestConfig): BtState {
    BtState(cfg.startingEquity, [], None, cfg.startingEquity, 0.0)
  }

  // ---------- one bar ----------

  datatype TradeAction = Leave(kind: ExitKind) | TakeHalf | Stay

  function StopTouched(t: Trade, bar: Candle): bool {
    if t.dir == 1 then bar.low <= t.sl else bar.high >= t.sl
  }

  function LevelReached(t: Trade, level: real, bar: Candle): bool {
    if t.dir == 1 then bar.high >= level else bar.low <= level
  }

  function Decide(cfg: BacktestConfig, t: Trade, i: int, bar: Candle): TradeAction {
    var slHit, tp1Hit, tp2Hit := StopTouched(t, bar), LevelReached(t, t.tp1, bar), LevelReached(t, t.tp2, bar);
    if slHit && (tp1Hit || tp2Hit) && cfg.intrabarConservative then Leave(SlCollision)
    else if slHit then Leave(SlOnly)
    else if tp2Hit then Leave(Tp2)
    else if tp1Hit && !t.tp1Hit then TakeHalf
    else if i - t.entryBar >= cfg.maxHoldBars then Leave(Timeout)
    else Stay
  }

  function SlippedOut(cfg: BacktestConfig, price: real, dir: int): real {
    price * (1.0 - cfg.slippageBps / 10000.0 * dir as real)
  }

  function LeavePrice(cfg: BacktestConfig, t: Trade, bar: Candle, kind: ExitKind): real {
    match kind
    case Tp2 => t.tp2
    case Timeout => SlippedOut(cfg, bar.close, t.dir)
    case _ => SlippedOut(cfg, t.sl, t.dir)
  }

  function SellFee(qty: real, price: real, rate: real): real {
    qty * price * rate
  }

  function LeaveFee(cfg: BacktestConfig, t: Trade, price: real, kind: ExitKind): real {
    SellFee(t.qty, price, if kind.Tp2? then cfg.makerFee else cfg.takerFee)
  }

  function MoveGain(t: Trade, price: real, qty: real): real {
    (price - t.entry) * t.dir as real * qty
  }

  /** The trade as it is appended to the list when it leaves. */
  function Finished(cfg: BacktestConfig, t: Trade, bar: Candle, kind: ExitKind): Trade {
    var price := LeavePrice(cfg, t, bar, kind);
    var gross := MoveGain(t, price, t.qty);
    var fee := LeaveFee(cfg, t, price, kind);
    var net := gross - fee + t.tp1Pnl;
    t.(outcome := if kind.Tp2? || net > 0.0 then Win else Loss,
       fees := t.fees + fee,
       exit := Some(TradeExit(price, bar.time, kind, gross + t.tp1Pnl, net,
                              if t.initRisk > 0.0 then net / t.initRisk else 0.0)))
  }

  function HalfGain(cfg: BacktestConfig, t: Trade): real {
    var closedQty := t.qty * 0.5;
    MoveGain(t, t.tp1, closedQty) - SellFee(closedQty, t.tp1, cfg.makerFee)
  }

  function Halved(cfg: BacktestConfig, t: Trade): Trade {
    var closedQty := t.qty * 0.5;
    t.(qty := t.qty - closedQty, tp1Hit := true, sl := t.entry, tp1Pnl := HalfGain(cfg, t),
       fees := t.fees + SellFee(closedQty, t.tp1, cfg.makerFee))
  }

  /** What a bar adds to the equity, the trade that stays open and the trade that is done. */
  datatype BarOutcome = BarOutcome(gain: real, kept: Option<Trade>, done: Option<Trade>)

  function TradeOutcome(cfg: BacktestConfig, t: Trade, i: int, bar: Candle): BarOutcome {
    match Decide(cfg, t, i, bar)
    case Leave(kind) =>
      var done := Finished(cfg, t, bar, kind);
      BarOutcome(done.exit.value.realizedPnl - t.tp1Pnl, None, Some(done))
    case TakeHalf => BarOutcome(HalfGain(cfg, t), Some(Halved(cfg, t)), None)
    case Stay => BarOutcome(0.0, Some(t), None)
  }

  function Manage(cfg: BacktestConfig, s: BtState, i: int, bar: Candle): BtState {
    if s.active.None? then s
    else
      var o := TradeOutcome(cfg, s.active.value, i, bar);
      s.(equity := s.equity + o.gain, active := o.kept,
         trades := if o.done.Some? then s.trades + [o.done.value] else s.trades)
  }

  /** The signal of a reading: long, short or none. */
  function SignalOf(r: BarReading): int {
    if r.scores.total >= 60.0 && r.stDir == 1 then 1
    else if r.scores.total <= 40.0 && r.stDir == -1 then -1
    else 0
  }

  function RiskAmount(cfg: BacktestConfig, equity: real): real {
    equity * (cfg.riskPerTradePct / 100.0)
  }

  /** The size that risks the configured share of the equity. */
  function EntrySize(cfg: BacktestConfig, equity: real, spec: Risk.QtySpec, entry: real,
                     stopDist: real): Risk.PositionSize
  {
    Risk.SizePosition(RiskAmount(cfg, equity), entry, stopDist, cfg.leverage, spec)
  }

  function NewTrade(cfg: BacktestConfig, equity: real, spec: Risk.QtySpec, i: int, bar: Candle,
                    signal: BarReading): Option<Trade>
  {
    var dir := SignalOf(signal);
    if dir == 0 then None
    else
      var entry := bar.open * (1.0 + cfg.slippageBps / 10000.0 * dir as real);
      var stopDist := Max(signal.atr * 1.5, entry * 0.005);
      var sized := EntrySize(cfg, equity, spec, entry, stopDist);
      if sized.qty <= 0.0 || sized.contracts <= 0 then None
      else
        Some(Trade(
               dir, entry, entry - stopDist * dir as real, entry + stopDist * 1.5 * dir as real,
               entry + stopDist * 3.0 * dir as real,
               sized.qty, sized.contracts, sized.qty, sized.qty * stopDist, signal.scores.total, i, bar.time,
               false, 0.0, sized.qty * entry * cfg.takerFee, Pending, None))
  }

  /** Enter at the open of bar i on the signal of bar i - 1. */
  function Enter(cfg: BacktestConfig, s: BtState, spec: Risk.QtySpec, i: int, bar: Candle,
                 signal: BarReading): BtState
  {
    if s.active.Some? then s
    else
      var t := NewTrade(cfg, s.equity, spec, i, bar, signal);
      if t.None? then s else s.(equity := s.equity - t.value.fees, active := t)
  }

  function TrackDrawdown(s: BtState): BtState {
    var peak := Max(s.peak, s.equity);
    var dd := if peak > 0.0 then (peak - s.equity) / peak * 100.0 else 0.0;
    s.(peak := peak, maxDd := Max(s.maxDd, dd))
  }

  function BarStep(cfg: BacktestConfig, s: BtState, spec: Risk.QtySpec, i: int, bar: Candle,
                   signal: Option<BarReading>): BtState
  {
    var managed := Manage(cfg, s, i, bar);
    TrackDrawdown(if signal.Some? then Enter(cfg, managed, spec, i, bar, signal.value) else managed)
  }

  /** The loop's state before bar m. */
  function StateAt(cfg: BacktestConfig, spec: Risk.QtySpec, bars: seq<Candle>, readings: seq<BarReading>,
                   m: nat): BtState
    requires m <= |bars| && |readings| == |bars|
  {
    if m <= cfg.warmupBars then Initial(cfg)
    else
      var i := m - 1;
      BarStep(cfg, StateAt(cfg, spec, bars, readings, i), spec, i, bars[i],
              if i > cfg.warmupBars then Some(readings[i - 1]) else None)
  }

  /** Trades, ending equity and drawdown; `None` when the analysis of the bars fails. */
  datatype BacktestResult = BacktestResult(trades: seq<Trade>, active: Option<Trade>, endingEquity: real,
                                           maxDrawdownPct: real)

  function ResultOf(s: BtState): BacktestResult {
    BacktestResult(s.trades, s.active, s.equity, s.maxDd)
  }

  ghost function RunOf(cfg: BacktestConfig, spec: Risk.QtySpec, bars: seq<Candle>): Option<BacktestResult> {
    if |bars| < cfg.warmupBars + 10 then Some(ResultOf(Initial(cfg)))
    else
      var readings := Analysis(bars);
      if readings.None? then None else Some(ResultOf(StateAt(cfg, spec, bars, readings.value, |bars|)))
  }
}
