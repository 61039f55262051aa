/** The paper engine and the replay engine agree: one position with the same levels, fees and slippage, fed the
    same gap-free bars, leaves on the same bar with the same result (aura/runner/paper_engine.py,
    aura/backtest/engine.py). */
module Parity {
  import opened Wrappers
  import Indicators
  import P = Positions
  import L = PaperLedger
  import R = PaperRestart
  import B = Backtest

  /** The same fees, slippage and holding time; the collision flags of the two engines need not agree. */
  predicate SameCosts(pc: P.EngineConfig, bc: B.BacktestConfig) {
    && pc.makerFee == bc.makerFee && pc.takerFee == bc.takerFee
    && pc.slippageBps == bc.slippageBps && pc.maxHoldBars == bc.maxHoldBars
  }

  function DirOf(d: P.Direction): int {
    if d.Long? then 1 else -1
  }

  /** The same open position in the two engines. */
  predicate Mirror(c: P.PositionCore, t: B.Trade) {
    && !c.status.Closed? && t.exit.None?
    && t.dir == DirOf(c.dir)
    && c.entry == t.entry && c.sl == t.sl && c.tp1 == t.tp1 && c.tp2 == t.tp2
    && c.qty == t.qty && c.initialQty == t.initQty && c.tp1Hit == t.tp1Hit
    && c.realized == t.tp1Pnl && c.fees == t.fees
    && t.initRisk == c.initialQty * Abs(c.entry - c.initialSl)
    && (!t.tp1Hit ==> t.tp1Pnl == 0.0)
  }

  function KindOf(r: P.ExitReason): B.ExitKind {
    match r
    case SlHitCollision => B.SlCollision
    case SlHit => B.SlOnly
    case Tp2Hit => B.Tp2
    case Timestop => B.Timeout
    case Manual(_) => B.Timeout
  }

  /** The exits agree; whether a stop that collides with a target is named a collision depends on each engine's flag. */
  predicate SameExit(c: P.PositionCore, t: B.Trade) {
    && c.status.Closed? && t.exit.Some?
    && c.exitPrice == Some(t.exit.value.price)
    && c.exitTime == Some(t.exit.value.time)
    && c.exitReason.Some? && !c.exitReason.value.Manual?
    && (KindOf(c.exitReason.value) == t.exit.value.kind
        || {KindOf(c.exitReason.value), t.exit.value.kind} == {B.SlCollision, B.SlOnly})
    && c.realized == t.exit.value.realizedPnl
    && c.fees == t.fees
    && c.qty == t.qty
    && P.RMultiple(c) == t.exit.value.rNet
  }

  function BarOf(bar: Indicators.Candle): P.Bar {
    P.Bar(bar.high, bar.low, bar.close, bar.time)
  }

  ghost function CoreAfter(pc: P.EngineConfig, c: P.PositionCore, bar: P.Bar): P.PositionCore {
    match P.BarDecision(pc, c, bar)
    case Exit(price, reason) => P.ClosedCore(pc, c, price, bar.time, reason)
    case BankTp1 => P.BankedCore(pc, c)
    case Hold => c
  }

  /** `CoreAfter` is what the paper engine's bar update does to the persisted fields. */
  lemma CoreAfterIsAfterBar(pc: P.EngineConfig, p: P.Position, bar: P.Bar)
    ensures P.AfterBar(pc, p, bar).core == CoreAfter(pc, p.core, bar)
  {
    hide P.ClosedCore, P.BankedCore, P.BarDecision;
  }

  function TradeAfter(bc: B.BacktestConfig, t: B.Trade, i: int, bar: Indicators.Candle): B.Trade {
    match B.Decide(bc, t, i, bar)
    case Leave(kind) => B.Finished(bc, t, bar, kind)
    case TakeHalf => B.Halved(bc, t)
    case Stay => t
  }

  lemma TradeAfterIsOutcome(bc: B.BacktestConfig, t: B.Trade, i: int, bar: Indicators.Candle)
    ensures var o := B.TradeOutcome(bc, t, i, bar);
            if B.Decide(bc, t, i, bar).Leave? then o.done == Some(TradeAfter(bc, t, i, bar))
            else o.done == None && o.kept == Some(TradeAfter(bc, t, i, bar))
  {
    hide B.Finished, B.Halved;
  }

  /** The bars arrive without gaps: the k-th bar after the entry starts k timeframes after it. */
  predicate OnTime(c: P.PositionCore, t: B.Trade, i: int, bar: Indicators.Candle) {
    bar.time == c.entryTime + (i - t.entryBar) * c.timeframe.Ms()
  }

  lemma SameHolding(c: P.PositionCore, t: B.Trade, i: int, bar: Indicators.Candle, maxHold: int)
    requires OnTime(c, t, i, bar) && c.timeframe.Ms() > 0
    ensures bar.time - c.entryTime >= maxHold * c.timeframe.Ms() <==> i - t.entryBar >= maxHold
  {
    var held, ms := i - t.entryBar, c.timeframe.Ms();
    if held >= maxHold {
      assert (held - maxHold) * ms >= 0;
    } else {
      assert (maxHold - held) * ms > 0;
    }
  }

  predicate SameActions(pa: P.BarAction, ba: B.TradeAction, c: P.PositionCore, bar: Indicators.Candle) {
    match pa
    case Exit(price, reason) =>
      && ba.Leave? && !reason.Manual?
      && (KindOf(reason) == ba.kind || {KindOf(reason), ba.kind} == {B.SlCollision, B.SlOnly})
      && price == (match ba.kind case Tp2 => c.tp2 case Timeout => bar.close case _ => c.sl)
    case BankTp1 => ba.TakeHalf?
    case Hold => ba.Stay?
  }

  lemma SameDecision(pc: P.EngineConfig, bc: B.BacktestConfig, c: P.PositionCore, t: B.Trade, i: int,
                     bar: Indicators.Candle)
    requires SameCosts(pc, bc) && Mirror(c, t) && OnTime(c, t, i, bar) && c.timeframe.Ms() > 0
    ensures SameActions(P.BarDecision(pc, c, BarOf(bar)), B.Decide(bc, t, i, bar), c, bar)
  {
    SameHolding(c, t, i, bar, pc.maxHoldBars);
  }

  lemma SameSlippage(pc: P.EngineConfig, bc: B.BacktestConfig, dir: P.Direction, price: real)
    requires SameCosts(pc, bc)
    ensures price * (1.0 + pc.slippageBps / 10000.0 * -dir.Sign()) == B.SlippedOut(bc, price, DirOf(dir))
  {
  }

  lemma SameGain(c: P.PositionCore, t: B.Trade, price: real, qty: real)
    requires t.dir == DirOf(c.dir) && c.entry == t.entry
    ensures P.Gross(c, price, qty) == B.MoveGain(t, price, qty)
  {
  }

  lemma SameFee(qty: real, price: real, rate: real)
    ensures P.Fee(qty, price, rate) == B.SellFee(qty, price, rate)
  {
  }

  lemma SameFinalPrice(pc: P.EngineConfig, bc: B.BacktestConfig, c: P.PositionCore, t: B.Trade, bar: Indicators.Candle,
                       price: real, reason: P.ExitReason, kind: B.ExitKind)
    requires SameCosts(pc, bc) && Mirror(c, t)
    requires SameActions(P.Exit(price, reason), B.Leave(kind), c, bar)
    ensures P.FinalPrice(pc, c.dir, price, reason) == B.LeavePrice(bc, t, bar, kind)
  {
    SameSlippage(pc, bc, c.dir, price);
    hide B.SlippedOut;
    if kind.Tp2? {
      assert P.FinalPrice(pc, c.dir, price, reason) == price * (1.0 + 0.0) == price;
    }
  }

  lemma LeavesAlike(pc: P.EngineConfig, bc: B.BacktestConfig, c: P.PositionCore, t: B.Trade, bar: Indicators.Candle,
                    price: real, reason: P.ExitReason, kind: B.ExitKind)
    requires SameCosts(pc, bc) && Mirror(c, t)
    requires SameActions(P.Exit(price, reason), B.Leave(kind), c, bar)
    ensures SameExit(P.ClosedCore(pc, c, price, bar.time, reason), B.Finished(bc, t, bar, kind))
  {
    var final := P.FinalPrice(pc, c.dir, price, reason);
    SameFinalPrice(pc, bc, c, t, bar, price, reason, kind);
    SameGain(c, t, final, c.qty);
    SameExitFee(pc, bc, c, t, final, reason, kind);
    hide P.Gross, P.ExitFee, B.MoveGain, B.LeaveFee, P.FinalPrice, B.LeavePrice, P.RMultiple;
    var closed, done := P.ClosedCore(pc, c, price, bar.time, reason), B.Finished(bc, t, bar, kind);
    assert closed.realized == done.exit.value.realizedPnl;
    SameRMultiple(closed, t.initRisk);
  }

  lemma SameRMultiple(c: P.PositionCore, initRisk: real)
    requires initRisk == c.initialQty * Abs(c.entry - c.initialSl)
    ensures P.RMultiple(c) == if initRisk > 0.0 then c.realized / initRisk else 0.0
  {
  }

  lemma SameExitFee(pc: P.EngineConfig, bc: B.BacktestConfig, c: P.PositionCore, t: B.Trade, final: real,
                    reason: P.ExitReason, kind: B.ExitKind)
    requires SameCosts(pc, bc) && c.qty == t.qty
    requires !reason.Manual? && (reason.Tp2Hit? <==> kind.Tp2?)
    ensures P.ExitFee(pc, c.qty, final, reason) == B.LeaveFee(bc, t, final, kind)
  {
    SameFee(c.qty, final, if P.IsTaker(reason) then pc.takerFee else pc.makerFee);
    hide P.Fee, B.SellFee;
  }

  lemma HalvesAlike(pc: P.EngineConfig, bc: B.BacktestConfig, c: P.PositionCore, t: B.Trade)
    requires SameCosts(pc, bc) && Mirror(c, t) && !t.tp1Hit
    ensures Mirror(P.BankedCore(pc, c), B.Halved(bc, t))
  {
    SameGain(c, t, c.tp1, c.qty * 0.5);
    SameFee(c.qty * 0.5, c.tp1, pc.makerFee);
    hide P.Gross, P.Fee, B.MoveGain, B.SellFee;
  }

  /** One bar keeps two mirrored positions mirrored, or closes both with the same exit. */
  lemma ParityOfBar(pc: P.EngineConfig, bc: B.BacktestConfig, c: P.PositionCore, t: B.Trade, i: int,
                    bar: Indicators.Candle)
    requires SameCosts(pc, bc) && Mirror(c, t) && OnTime(c, t, i, bar) && c.timeframe.Ms() > 0
    ensures var d, u := CoreAfter(pc, c, BarOf(bar)), TradeAfter(bc, t, i, bar);
            Mirror(d, u) || SameExit(d, u)
  {
    SameDecision(pc, bc, c, t, i, bar);
    match P.BarDecision(pc, c, BarOf(bar)) {
      case Exit(price, reason) =>
        var kind := B.Decide(bc, t, i, bar).kind;
        hide P.ClosedCore, B.Finished, SameExit, Mirror, P.BarDecision, B.Decide;
        LeavesAlike(pc, bc, c, t, bar, price, reason, kind);
      case BankTp1 =>
        assert !t.tp1Hit by { BanksOnce(pc, c, BarOf(bar)); }
        hide P.BankedCore, B.Halved, Mirror, P.BarDecision, B.Decide;
        HalvesAlike(pc, bc, c, t);
      case Hold =>
    }
  }

  lemma BanksOnce(pc: P.EngineConfig, c: P.PositionCore, bar: P.Bar)
    requires P.BarDecision(pc, c, bar).BankTp1?
    ensures !c.tp1Hit
  {
  }

  // ---------- whole runs ----------

  /** The bars from index i on arrive without gaps. */
  predicate GapFree(c: P.PositionCore, t: B.Trade, i: int, bars: seq<Indicators.Candle>) {
    forall k :: 0 <= k < |bars| ==> OnTime(c, t, i + k, bars[k])
  }

  /** The paper engine's bar updates of one symbol. */
  function BarUpdates(symbol: string, bars: seq<Indicators.Candle>): seq<R.Action> {
    if bars == [] then [] else [R.BarUpdate(symbol, BarOf(bars[0]))] + BarUpdates(symbol, bars[1..])
  }

  /** The replay engine's handling of its open trade, from bar i on. */
  function ManageRun(bc: B.BacktestConfig, s: B.BtState, i: int, bars: seq<Indicators.Candle>): B.BtState
    decreases |bars|
  {
    if bars == [] then s else ManageRun(bc, B.Manage(bc, s, i, bars[0]), i + 1, bars[1..])
  }

  /** A paper account and a replay state that hold the same open position. */
  ghost predicate Twins(pc: P.EngineConfig, s: L.EngineState, id: L.TradeId, symbol: string, b: B.BtState) {
    && L.Consistent(pc, s) && L.HolderOf(s.open, symbol) == Some(id) && id in s.open
    && b.active.Some? && Mirror(s.open[id].core, b.active.value)
  }

  /** Both still hold the position, or both left it with the same exit; either way both earned the same. */
  ghost predicate SameOutcome(s: L.EngineState, id: L.TradeId, b: B.BtState, s': L.EngineState, events: seq<R.Event>,
                              b': B.BtState)
  {
    && s'.equity - s.equity == b'.equity - b.equity
    && if b'.active.Some? then
         events == [] && b'.trades == b.trades && id in s'.open && Mirror(s'.open[id].core, b'.active.value)
       else
         && |b'.trades| == |b.trades| + 1 && b'.trades[..|b.trades|] == b.trades
         && id in s'.closed && events == [R.Exited(s'.closed[id].core)]
         && SameExit(s'.closed[id].core, b'.trades[|b.trades|])
  }

  predicate SameStart(c: P.PositionCore, t: B.Trade, d: P.PositionCore, u: B.Trade) {
    d.entryTime == c.entryTime && d.timeframe == c.timeframe && u.entryBar == t.entryBar
  }

  lemma OpeningIsKept(pc: P.EngineConfig, bc: B.BacktestConfig, c: P.PositionCore, t: B.Trade, i: int,
                      bar: Indicators.Candle)
    ensures var d, u := CoreAfter(pc, c, BarOf(bar)), TradeAfter(bc, t, i, bar);
            SameStart(c, t, d, u) && d.symbol == c.symbol
  {
    hide P.BarDecision, B.Decide, P.Gross, P.Fee, B.MoveGain, B.SellFee, P.FinalPrice, B.LeavePrice;
  }

  /** What the bar earns, read off the two positions. */
  lemma GainIsRealized(bc: B.BacktestConfig, t: B.Trade, i: int, bar: Indicators.Candle)
    requires t.exit.None? && (!t.tp1Hit ==> t.tp1Pnl == 0.0)
    ensures var o, u := B.TradeOutcome(bc, t, i, bar), TradeAfter(bc, t, i, bar);
            && (u.exit.Some? <==> o.done == Some(u) && o.kept.None?)
            && (u.exit.None? <==> o.kept == Some(u) && o.done.None?)
            && o.gain == (if u.exit.Some? then u.exit.value.realizedPnl else u.tp1Pnl) - t.tp1Pnl
  {
    TradeAfterIsOutcome(bc, t, i, bar);
    hide B.MoveGain, B.SellFee, B.LeavePrice, B.LeaveFee;
  }

  /** One bar on twins: they stay twins, or both leave with the same exit. */
  lemma TwinStep(pc: P.EngineConfig, bc: B.BacktestConfig, s: L.EngineState, id: L.TradeId, symbol: string,
                 b: B.BtState, i: int, bar: Indicators.Candle)
    requires SameCosts(pc, bc) && Twins(pc, s, id, symbol, b)
    requires OnTime(s.open[id].core, b.active.value, i, bar) && s.open[id].core.timeframe.Ms() > 0
    ensures var s', b' := L.BarStep(pc, s, symbol, BarOf(bar)), B.Manage(bc, b, i, bar);
            && SameOutcome(s, id, b, s', R.ExitEvents(L.BarExits(pc, s, symbol, BarOf(bar))), b')
            && (b'.active.Some? ==>
                  Twins(pc, s', id, symbol, b') &&
                    SameStart(s.open[id].core, b.active.value, s'.open[id].core, b'.active.value))
            && (b'.active.None? ==> L.HolderOf(s'.open, symbol).None?)
  {
    var p, t := s.open[id], b.active.value;
    var q := P.AfterBar(pc, p, BarOf(bar));
    var d, u := CoreAfter(pc, p.core, BarOf(bar)), TradeAfter(bc, t, i, bar);
    CoreAfterIsAfterBar(pc, p, BarOf(bar));
    ParityOfBar(pc, bc, p.core, t, i, bar);
    OpeningIsKept(pc, bc, p.core, t, i, bar);
    GainIsRealized(bc, t, i, bar);
    L.LiveRowOf(pc, s, id);
    L.AfterBarIsLive(pc, p, BarOf(bar));
    L.BarKeeps(pc, s, symbol, BarOf(bar));
    L.ConsistentIsLive(pc, s);
    L.HolderHasSymbol(s.open, symbol);
    hide CoreAfter, TradeAfter, P.AfterBar, P.BarNet, B.TradeOutcome, L.Consistent, L.RowOf, L.Upsert, P.BarDecision,
         P.RMultiple, L.LiveCore, L.SameOpening;
    SettledTwin(pc, bc, s, id, symbol, b, i, bar, q, u);
  }

  lemma SettledTwin(pc: P.EngineConfig, bc: B.BacktestConfig, s: L.EngineState, id: L.TradeId, symbol: string,
                    b: B.BtState, i: int, bar: Indicators.Candle, q: P.Position, u: B.Trade)
    requires Twins(pc, s, id, symbol, b) && L.OnePerSymbol(s.open) && s.open[id].core.symbol == symbol == q.core.symbol
    requires q == P.AfterBar(pc, s.open[id], BarOf(bar)) && u == TradeAfter(bc, b.active.value, i, bar)
    requires q.core.status.Closed? <==> P.BarDecision(pc, s.open[id].core, BarOf(bar)).Exit?
    requires (Mirror(q.core, u) || SameExit(q.core, u)) && SameStart(s.open[id].core, b.active.value, q.core, u)
    requires q.core.realized == s.open[id].core.realized + P.BarNet(pc, s.open[id].core, BarOf(bar))
    requires var o := B.TradeOutcome(bc, b.active.value, i, bar);
             && (u.exit.Some? <==> o.done == Some(u) && o.kept.None?)
             && (u.exit.None? <==> o.kept == Some(u) && o.done.None?)
             && o.gain == (if u.exit.Some? then u.exit.value.realizedPnl else u.tp1Pnl) - b.active.value.tp1Pnl
    requires L.Consistent(pc, L.BarStep(pc, s, symbol, BarOf(bar)))
    ensures var s', b' := L.BarStep(pc, s, symbol, BarOf(bar)), B.Manage(bc, b, i, bar);
            && SameOutcome(s, id, b, s', R.ExitEvents(L.BarExits(pc, s, symbol, BarOf(bar))), b')
            && (b'.active.Some? ==>
                  Twins(pc, s', id, symbol, b') &&
                    SameStart(s.open[id].core, b.active.value, s'.open[id].core, b'.active.value))
            && (b'.active.None? ==> L.HolderOf(s'.open, symbol).None?)
  {
    hide TradeAfter, P.AfterBar, P.BarNet, B.TradeOutcome, L.Consistent, P.BarDecision, P.RMultiple, L.BarStep,
         L.BarExits,
         L.HolderOf, L.OnePerSymbol, SameStart;
    var s', b' := L.BarStep(pc, s, symbol, BarOf(bar)), B.Manage(bc, b, i, bar);
    var exits := L.BarExits(pc, s, symbol, BarOf(bar));
    TwinAfterBar(pc, s, id, symbol, BarOf(bar));
    var net := P.BarNet(pc, s.open[id].core, BarOf(bar));
    assert b'.equity == b.equity + net && s'.equity == s.equity + net;
    if u.exit.Some? {
      assert SameExit(q.core, u) && b' == B.BtState(b'.equity, b.trades + [u], None, b'.peak, b'.maxDd);
      hide *;
      LeftOutcome(s, id, b, s', exits, b', q, u);
    } else {
      assert Mirror(q.core, u) && b'.active == Some(u) && b'.trades == b.trades;
      hide *;
      KeptOutcome(s, id, b, s', exits, b', q, u);
    }
  }

  lemma LeftOutcome(s: L.EngineState, id: L.TradeId, b: B.BtState, s': L.EngineState, exits: seq<P.Position>,
                    b': B.BtState, q: P.Position, u: B.Trade)
    requires s'.equity - s.equity == b'.equity - b.equity && exits == [q] && id in s'.closed && s'.closed[id] == q
    requires b'.active.None? && b'.trades == b.trades + [u] && SameExit(q.core, u)
    ensures SameOutcome(s, id, b, s', R.ExitEvents(exits), b')
  {
    hide SameExit;
  }

  lemma KeptOutcome(s: L.EngineState, id: L.TradeId, b: B.BtState, s': L.EngineState, exits: seq<P.Position>,
                    b': B.BtState, q: P.Position, u: B.Trade)
    requires s'.equity - s.equity == b'.equity - b.equity && exits == [] && id in s'.open && s'.open[id] == q
    requires b'.active == Some(u) && b'.trades == b.trades && Mirror(q.core, u)
    ensures SameOutcome(s, id, b, s', R.ExitEvents(exits), b')
  {
    hide Mirror;
  }

  /** The paper account after the bar: the position is put back, or it leaves and frees its symbol. */
  lemma TwinAfterBar(pc: P.EngineConfig, s: L.EngineState, id: L.TradeId, symbol: string, bar: P.Bar)
    requires L.OnePerSymbol(s.open) && id in s.open && s.open[id].core.symbol == symbol
    ensures var s', q := L.BarStep(pc, s, symbol, bar), P.AfterBar(pc, s.open[id], bar);
            && s'.equity == s.equity + P.BarNet(pc, s.open[id].core, bar)
            && (if P.BarDecision(pc, s.open[id].core, bar).Exit? then
                  && L.BarExits(pc, s, symbol, bar) == [q] && id in s'.closed && s'.closed[id] == q
                  && L.HolderOf(s'.open, symbol).None?
                else
                  && L.BarExits(pc, s, symbol, bar) == [] && id in s'.open && s'.open[id] == q
                  && L.HolderOf(s'.open, symbol) == Some(id))
  {
    var q := P.AfterBar(pc, s.open[id], bar);
    L.AfterBarSymbol(pc, s.open[id], bar);
    L.HolderIsUnique(s.open, id);
    L.NewSymbol(s.open, id, q);
    hide P.AfterBar, P.BarNet, L.RowOf, L.Upsert, P.BarDecision;
    if !P.BarDecision(pc, s.open[id].core, bar).Exit? {
      L.HolderIsUnique(s.open[id := q], id);
    }
  }

  /** Without a position in the symbol, bar updates change nothing; without an open trade, neither does managing. */
  lemma {:induction false} QuietRun(pc: P.EngineConfig, bc: B.BacktestConfig, s: L.EngineState, symbol: string,
                                    b: B.BtState, i: int, bars: seq<Indicators.Candle>)
    requires L.HolderOf(s.open, symbol).None? && b.active.None?
    ensures R.Run(pc, s, BarUpdates(symbol, bars)) == (s, []) && ManageRun(bc, b, i, bars) == b
    decreases |bars|
  {
    if bars != [] {
      QuietRun(pc, bc, s, symbol, b, i + 1, bars[1..]);
      FirstUpdate(pc, s, symbol, bars);
      var none: seq<R.Event> := [];
      assert R.ExitEvents([]) == none && none + none == none;
    }
  }

  lemma FirstUpdate(pc: P.EngineConfig, s: L.EngineState, symbol: string, bars: seq<Indicators.Candle>)
    requires bars != []
    ensures var (s', events) := R.Run(pc, L.BarStep(pc, s, symbol, BarOf(bars[0])), BarUpdates(symbol, bars[1..]));
            R.Run(pc, s, BarUpdates(symbol, bars)) ==
              (s', R.ExitEvents(L.BarExits(pc, s, symbol, BarOf(bars[0]))) + events)
  {
    hide L.BarStep, L.BarExits, R.ExitEvents;
    var updates := BarUpdates(symbol, bars);
    assert updates[0] == R.BarUpdate(symbol, BarOf(bars[0])) && updates[1..] == BarUpdates(symbol, bars[1..]);
    assert R.Step(pc, s, updates[0]) == L.BarStep(pc, s, symbol, BarOf(bars[0]));
    assert R.Events(pc, s, updates[0]) == R.ExitEvents(L.BarExits(pc, s, symbol, BarOf(bars[0])));
  }

  /** For every gap-free run of bars, the paper engine's bar updates and the replay engine's trade management of the
      same position end alike: both still hold it, unchanged or halved the same way, or both left it on the same bar
      with the same price, realized result, fees, quantity and R multiple; and both earned the same, whatever their
      collision flags. */
  lemma {:induction false} EngineParity(pc: P.EngineConfig, bc: B.BacktestConfig, s: L.EngineState, id: L.TradeId,
                                        symbol: string, b: B.BtState, i: int, bars: seq<Indicators.Candle>)
    requires SameCosts(pc, bc) && Twins(pc, s, id, symbol, b)
    requires GapFree(s.open[id].core, b.active.value, i, bars) && s.open[id].core.timeframe.Ms() > 0
    ensures var (s', events) := R.Run(pc, s, BarUpdates(symbol, bars));
            SameOutcome(s, id, b, s', events, ManageRun(bc, b, i, bars))
    decreases |bars|
  {
    hide *;
    if bars != [] {
      EngineParityStep(pc, bc, s, id, symbol, b, i, bars);
      FirstManage(bc, b, i, bars);
      var rest := bars[1..];
      var s1, b1 := L.BarStep(pc, s, symbol, BarOf(bars[0])), B.Manage(bc, b, i, bars[0]);
      var events1 := R.ExitEvents(L.BarExits(pc, s, symbol, BarOf(bars[0])));
      FirstUpdate(pc, s, symbol, bars);
      var (s2, events2) := R.Run(pc, s1, BarUpdates(symbol, rest));
      if b1.active.Some? {
        EngineParity(pc, bc, s1, id, symbol, b1, i + 1, rest);
        OutcomeAfter(s, id, b, s1, events1, b1, s2, events2, ManageRun(bc, b1, i + 1, rest));
      } else {
        QuietRun(pc, bc, s1, symbol, b1, i + 1, rest);
        assert events1 + [] == events1;
      }
    } else {
      NoBars(pc, bc, s, id, symbol, b, i);
    }
  }

  lemma FirstManage(bc: B.BacktestConfig, b: B.BtState, i: int, bars: seq<Indicators.Candle>)
    requires bars != []
    ensures ManageRun(bc, b, i, bars) == ManageRun(bc, B.Manage(bc, b, i, bars[0]), i + 1, bars[1..])
  {
    hide B.Manage;
  }

  lemma NoBars(pc: P.EngineConfig, bc: B.BacktestConfig, s: L.EngineState, id: L.TradeId, symbol: string, b: B.BtState,
               i: int)
    requires Twins(pc, s, id, symbol, b)
    ensures var (s', events) := R.Run(pc, s, BarUpdates(symbol, []));
            SameOutcome(s, id, b, s', events, ManageRun(bc, b, i, []))
  {
    hide L.Consistent, Mirror;
  }

  /** What `TwinStep` leaves for the rest of the run. */
  lemma EngineParityStep(pc: P.EngineConfig, bc: B.BacktestConfig, s: L.EngineState, id: L.TradeId, symbol: string,
                         b: B.BtState, i: int, bars: seq<Indicators.Candle>)
    requires bars != [] && SameCosts(pc, bc) && Twins(pc, s, id, symbol, b)
    requires GapFree(s.open[id].core, b.active.value, i, bars) && s.open[id].core.timeframe.Ms() > 0
    ensures var s1, b1 := L.BarStep(pc, s, symbol, BarOf(bars[0])), B.Manage(bc, b, i, bars[0]);
            && SameOutcome(s, id, b, s1, R.ExitEvents(L.BarExits(pc, s, symbol, BarOf(bars[0]))), b1)
            && (b1.active.Some? ==>
                  && Twins(pc, s1, id, symbol, b1) && s1.open[id].core.timeframe.Ms() > 0
                  && GapFree(s1.open[id].core, b1.active.value, i + 1, bars[1..]))
            && (b1.active.None? ==> L.HolderOf(s1.open, symbol).None?)
  {
    assert OnTime(s.open[id].core, b.active.value, i + 0, bars[0]);
    TwinStep(pc, bc, s, id, symbol, b, i, bars[0]);
    var s1, b1 := L.BarStep(pc, s, symbol, BarOf(bars[0])), B.Manage(bc, b, i, bars[0]);
    hide L.BarStep, L.BarExits, L.Consistent, L.HolderOf, B.Manage, Mirror, SameExit, SameOutcome, GapFree, OnTime;
    if b1.active.Some? {
      RestGapFree(s.open[id].core, b.active.value, s1.open[id].core, b1.active.value, i, bars);
    }
  }

  lemma OutcomeAfter(s: L.EngineState, id: L.TradeId, b: B.BtState, s1: L.EngineState, events1: seq<R.Event>,
                     b1: B.BtState, s2: L.EngineState, events2: seq<R.Event>, b2: B.BtState)
    requires b1.active.Some? && SameOutcome(s, id, b, s1, events1, b1) && SameOutcome(s1, id, b1, s2, events2, b2)
    ensures SameOutcome(s, id, b, s2, events1 + events2, b2)
  {
    hide Mirror, SameExit;
    assert [] + events2 == events2;
  }

  lemma RestGapFree(c: P.PositionCore, t: B.Trade, d: P.PositionCore, u: B.Trade, i: int, bars: seq<Indicators.Candle>)
    requires bars != [] && GapFree(c, t, i, bars) && SameStart(c, t, d, u)
    ensures GapFree(d, u, i + 1, bars[1..])
  {
    hide OnTime;
    forall k | 0 <= k < |bars[1..]|
      ensures OnTime(d, u, i + 1 + k, bars[1..][k])
    {
      assert OnTime(c, t, i + (k + 1), bars[k + 1]);
      SameClock(c, t, d, u, i + 1 + k, bars[k + 1]);
    }
  }

  lemma SameClock(c: P.PositionCore, t: B.Trade, d: P.PositionCore, u: B.Trade, i: int, bar: Indicators.Candle)
    requires SameStart(c, t, d, u)
    ensures OnTime(c, t, i, bar) == OnTime(d, u, i, bar)
  {
  }
}
