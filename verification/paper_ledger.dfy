/** The state of one paper account and its trades table, as values: every step, the invariant that
    every step keeps, and the ledger law (aura/runner/paper_engine.py). */
module PaperLedger {
  import opened Wrappers
  import opened Positions

  type TradeId = string

  /** A row of the trades table. Columns added by later migrations may be null. */
  datatype TradeRow = TradeRow(
    symbol: string, dir: Direction, closed: bool, entryPrice: real, currentSl: real, initialSl: real, tp1: real,
    tp2: real, tp1Hit: bool, notional: real, margin: real, leverage: int, openedAt: int, closedAt: Option<int>,
    exitPrice: Option<real>, exitReason: Option<ExitReason>, realizedPnl: real, fees: real, entryFee: Option<real>,
    timeframe: Timeframe, remainingQty: Option<real>)

  type TradeTable = map<TradeId, TradeRow>

  /** The dictionaries of open and closed positions are maps: every order of visiting them gives the same result. */
  datatype EngineState = EngineState(
    equity: real, open: map<TradeId, Position>, closed: map<TradeId, Position>, trades: TradeTable)

  function Value(qty: real, price: real): real {
    qty * price
  }

  function TakerFee(cfg: EngineConfig, value: real): real {
    value * cfg.takerFee
  }

  function EntryFee(cfg: EngineConfig, c: PositionCore): real {
    TakerFee(cfg, Value(c.initialQty, c.entry))
  }

  function RowOf(cfg: EngineConfig, c: PositionCore): TradeRow {
    TradeRow(
      c.symbol, c.dir, c.status.Closed?, c.entry, c.sl, c.initialSl, c.tp1, c.tp2, c.tp1Hit,
      Value(c.initialQty, c.entry),
      c.margin, c.leverage, c.entryTime, c.exitTime, c.exitPrice, c.exitReason, c.realized, c.fees,
      Some(EntryFee(cfg, c)), c.timeframe, Some(c.qty))
  }

  /** Insert a row; an existing row keeps every column that is not updated on conflict. */
  function Upsert(trades: TradeTable, id: TradeId, row: TradeRow): TradeTable {
    if id !in trades then trades[id := row]
    else
      trades[id := trades[id].(
          closed := row.closed, currentSl := row.currentSl, tp1Hit := row.tp1Hit, closedAt := row.closedAt,
          exitPrice := row.exitPrice, exitReason := row.exitReason, realizedPnl := row.realizedPnl, fees := row.fees,
          remainingQty := row.remainingQty)]
  }

  // ---------- loading ----------

  function InitialQty(row: TradeRow): real {
    if row.entryPrice > 0.0 then row.notional / row.entryPrice else 0.0
  }

  function LoadOpen(row: TradeRow): PositionCore {
    var initialQty := InitialQty(row);
    PositionCore(
      row.symbol, row.timeframe, row.dir, row.entryPrice, row.currentSl, row.initialSl, row.tp1, row.tp2,
      if row.remainingQty.Some? then row.remainingQty.value else if row.tp1Hit then initialQty * 0.5 else initialQty,
      initialQty, row.margin, row.leverage, row.openedAt,
      if row.tp1Hit then PartialTp1 else Active, row.tp1Hit, None, None, None, row.realizedPnl, row.fees)
  }

  /** A closed position comes back with its initial quantity, and a closing time of zero comes back as none. */
  function LoadClosed(row: TradeRow): PositionCore {
    var qty := InitialQty(row);
    PositionCore(
      row.symbol, row.timeframe, row.dir, row.entryPrice, row.currentSl, row.initialSl, row.tp1, row.tp2,
      qty, qty, row.margin, row.leverage, row.openedAt, Closed, row.tp1Hit, row.exitPrice,
      if row.closedAt == Some(0) then None else row.closedAt, row.exitReason, row.realizedPnl, row.fees)
  }

  const LOADED_DISPLAY := Display(1, 0.0, 0.0, 0.0, 0.0, 50.0)

  function PaidEntryFee(row: TradeRow): real {
    if row.entryFee.Some? then row.entryFee.value else if row.closed then 0.0 else row.fees
  }

  function LoadedOpen(trades: TradeTable): map<TradeId, Position> {
    map id | id in trades && !trades[id].closed :: Position(LoadOpen(trades[id]), LOADED_DISPLAY)
  }

  function LoadedClosed(trades: TradeTable): map<TradeId, Position> {
    map id | id in trades && trades[id].closed :: Position(LoadClosed(trades[id]), LOADED_DISPLAY)
  }

  function PaidFees(trades: TradeTable): map<TradeId, real> {
    map id | id in trades :: PaidEntryFee(trades[id])
  }

  function Results(trades: TradeTable): map<TradeId, real> {
    map id | id in trades :: trades[id].realizedPnl
  }

  /** Starting equity, less every entry fee, plus everything realized on open and closed trades. */
  ghost function LoadedEquity(cfg: EngineConfig, trades: TradeTable): real {
    cfg.startingEquity - Sum(PaidFees(trades)) + Sum(Results(trades))
  }

  ghost function Load(cfg: EngineConfig, trades: TradeTable): EngineState {
    EngineState(LoadedEquity(cfg, trades), LoadedOpen(trades), LoadedClosed(trades), trades)
  }

  /** What loading one more row adds. */
  lemma LoadOneMore(trades: TradeTable, id: TradeId, row: TradeRow)
    requires id !in trades
    ensures LoadedOpen(trades[id := row])
            == if row.closed then LoadedOpen(trades)
              else LoadedOpen(trades)[id := Position(LoadOpen(row), LOADED_DISPLAY)]
    ensures LoadedClosed(trades[id := row])
            == if row.closed then LoadedClosed(trades)[id := Position(LoadClosed(row), LOADED_DISPLAY)]
              else LoadedClosed(trades)
  {
    hide LoadOpen, LoadClosed;
  }

  lemma SumOneMore(trades: TradeTable, id: TradeId, row: TradeRow)
    requires id !in trades
    ensures Sum(PaidFees(trades[id := row])) == Sum(PaidFees(trades)) + PaidEntryFee(row)
    ensures Sum(Results(trades[id := row])) == Sum(Results(trades)) + row.realizedPnl
  {
    hide PaidEntryFee;
    assert PaidFees(trades[id := row]) == PaidFees(trades)[id := PaidEntryFee(row)];
    assert Results(trades[id := row]) == Results(trades)[id := row.realizedPnl];
    SumPut(PaidFees(trades), id, PaidEntryFee(row));
    SumPut(Results(trades), id, row.realizedPnl);
  }

  // ---------- steps ----------

  ghost function HolderOf(open: map<TradeId, Position>, symbol: string): Option<TradeId> {
    if exists id :: id in open && open[id].core.symbol == symbol then
      var id :| id in open && open[id].core.symbol == symbol;
      Some(id)
    else None
  }

  predicate OnePerSymbol(open: map<TradeId, Position>) {
    forall id, id' :: id in open && id' in open && open[id].core.symbol == open[id'].core.symbol ==> id == id'
  }

  lemma HolderIsUnique(open: map<TradeId, Position>, id: TradeId)
    requires OnePerSymbol(open) && id in open
    ensures HolderOf(open, open[id].core.symbol) == Some(id)
  {
  }

  lemma HolderHasSymbol(open: map<TradeId, Position>, symbol: string)
    ensures var holder := HolderOf(open, symbol);
            holder.Some? ==> holder.value in open && open[holder.value].core.symbol == symbol
  {
  }

  function OpenedCore(p: Plan, timeframe: Timeframe, now: int): PositionCore
    requires p.Plan?
  {
    PositionCore(
      p.symbol, timeframe, p.dir, p.fill, p.sl, p.sl, p.tp1, p.tp2, p.qty, p.qty, p.margin, p.leverage, now,
      Active, false, None, None, None, 0.0, p.entryFee)
  }

  predicate Accepts(cfg: EngineConfig, s: EngineState, p: Plan) {
    p.Plan? && |s.open| < cfg.maxOpenPositions && forall id :: id in s.open ==> s.open[id].core.symbol != p.symbol
  }

  function OpenStep(cfg: EngineConfig, s: EngineState, id: TradeId, p: Plan, timeframe: Timeframe, score: real,
                    now: int): EngineState
  {
    if !Accepts(cfg, s, p) then s
    else
      var core := OpenedCore(p, timeframe, now);
      EngineState(
        s.equity - p.entryFee,
        s.open[id := Position(core, Display(p.contracts, 0.0, 0.0, p.fill, p.fill, score))],
        s.closed,
        Upsert(s.trades, id, RowOf(cfg, core)))
  }

  /** Put a changed position back: book its result, persist it and move it if it is now closed. */
  function Settle(cfg: EngineConfig, s: EngineState, id: TradeId, p: Position, net: real): EngineState {
    var trades := Upsert(s.trades, id, RowOf(cfg, p.core));
    if p.core.status.Closed? then EngineState(s.equity + net, s.open - {id}, s.closed[id := p], trades)
    else EngineState(s.equity + net, s.open[id := p], s.closed, trades)
  }

  /** A bar exits a position by its own decision, so a closed one among the open ones is looked at like any other. */
  ghost function BarStep(cfg: EngineConfig, s: EngineState, symbol: string, bar: Bar): EngineState {
    match HolderOf(s.open, symbol)
    case None => s
    case Some(id) =>
      var p, t := AfterBar(cfg, s.open[id], bar), TornBar(cfg, s, symbol, bar);
      var trades := Upsert(s.trades, id, RowOf(cfg, p.core));
      if BarDecision(cfg, s.open[id].core, bar).Exit? then
        t.(open := t.open - {id}, closed := t.closed[id := p], trades := trades)
      else t.(trades := trades)
  }

  /** An update whose row cannot be written: the position and the equity have changed, the row has not, and an exited
      position has not been moved. */
  ghost function TornBar(cfg: EngineConfig, s: EngineState, symbol: string, bar: Bar): EngineState {
    match HolderOf(s.open, symbol)
    case None => s
    case Some(id) =>
      s.(equity := s.equity + BarNet(cfg, s.open[id].core, bar), open := s.open[id := AfterBar(cfg, s.open[id], bar)])
  }

  ghost function BarExits(cfg: EngineConfig, s: EngineState, symbol: string, bar: Bar): seq<Position> {
    match HolderOf(s.open, symbol)
    case None => []
    case Some(id) =>
      if BarDecision(cfg, s.open[id].core, bar).Exit? then [AfterBar(cfg, s.open[id], bar)] else []
  }

  /** An opening whose row cannot be written. */
  function TornOpen(cfg: EngineConfig, s: EngineState, id: TradeId, p: Plan, timeframe: Timeframe, score: real,
                    now: int): EngineState
  {
    OpenStep(cfg, s, id, p, timeframe, score, now).(trades := s.trades)
  }

  /** A manual close sells at the entry price. */
  ghost function CloseStep(cfg: EngineConfig, s: EngineState, id: TradeId, reason: string, time: int): EngineState {
    if id !in s.open then s
    else
      var p := s.open[id];
      Settle(cfg, s, id, ClosedPosition(cfg, p, p.core.entry, time, Manual(reason)),
             CloseNet(cfg, p.core, p.core.entry, Manual(reason)))
  }

  function ResetStep(cfg: EngineConfig, s: EngineState): EngineState {
    EngineState(cfg.startingEquity, map[], map[], map[])
  }

  // ---------- the invariant ----------

  /** Before the first target a live position has its initial quantity and stop; after it, half the quantity
      and its stop at the entry. */
  predicate LiveCore(c: PositionCore) {
    && 0.0 < c.entry && 0.0 < c.initialQty
    && c.exitPrice.None? && c.exitTime.None? && c.exitReason.None?
    && (if c.tp1Hit then c.status.PartialTp1? && c.qty == c.initialQty * 0.5 && c.sl == c.entry
        else c.status.Active? && c.qty == c.initialQty && c.sl == c.initialSl && c.realized == 0.0)
  }

  /** What a closed position keeps through a reload. */
  function Settled(c: PositionCore): PositionCore {
    c.(qty := 0.0, exitTime := if c.exitTime == Some(0) then None else c.exitTime)
  }

  predicate SettledRow(cfg: EngineConfig, c: PositionCore, row: TradeRow) {
    && row.closed && c.status.Closed?
    && 0.0 < c.entry
    && Settled(c) == Settled(LoadClosed(row))
    && row.entryFee == Some(EntryFee(cfg, c))
    && row.realizedPnl == c.realized
  }

  predicate LiveRows(cfg: EngineConfig, open: map<TradeId, Position>, trades: TradeTable) {
    forall id :: id in open ==> id in trades && LiveCore(open[id].core) && trades[id] == RowOf(cfg, open[id].core)
  }

  predicate SettledRows(cfg: EngineConfig, closed: map<TradeId, Position>, trades: TradeTable) {
    forall id :: id in closed ==> id in trades && SettledRow(cfg, closed[id].core, trades[id])
  }

  /** The table holds exactly the rows of the positions in memory. */
  predicate InStep(cfg: EngineConfig, s: EngineState) {
    && s.open.Keys !! s.closed.Keys
    && s.trades.Keys == s.open.Keys + s.closed.Keys
    && OnePerSymbol(s.open)
    && LiveRows(cfg, s.open, s.trades)
    && SettledRows(cfg, s.closed, s.trades)
  }

  /** The ledger law over the rows; `LedgerOverPositions` states it over the positions in memory. */
  ghost predicate Consistent(cfg: EngineConfig, s: EngineState) {
    InStep(cfg, s) && s.equity == LoadedEquity(cfg, s.trades)
  }

  // ---------- sums over a map ----------

  ghost function Sum(m: map<TradeId, real>): real
    decreases |m|
  {
    if m == map[] then 0.0
    else
      var id :| id in m;
      m[id] + Sum(m - {id})
  }

  lemma {:induction false} SumPick(m: map<TradeId, real>, id: TradeId)
    requires id in m
    ensures Sum(m) == m[id] + Sum(m - {id})
    decreases |m|
  {
    var first :| id in m && first in m && Sum(m) == m[first] + Sum(m - {first});
    if first != id {
      SumPick(m - {first}, id);
      SumPick(m - {id}, first);
      assert m - {first} - {id} == m - {id} - {first};
    }
  }

  lemma SumPut(m: map<TradeId, real>, id: TradeId, x: real)
    ensures Sum(m[id := x]) == Sum(m) + x - (if id in m then m[id] else 0.0)
  {
    SumPick(m[id := x], id);
    if id in m {
      SumPick(m, id);
      assert m[id := x] - {id} == m - {id};
    } else {
      assert m[id := x] - {id} == m;
    }
  }

  // ---------- every step keeps the invariant ----------

  lemma LedgerUpdate(cfg: EngineConfig, trades: TradeTable, id: TradeId, row: TradeRow)
    ensures LoadedEquity(cfg, trades[id := row])
            == LoadedEquity(cfg, trades)
               - (PaidEntryFee(row) - if id in trades then PaidEntryFee(trades[id]) else 0.0)
               + (row.realizedPnl - if id in trades then trades[id].realizedPnl else 0.0)
  {
    hide PaidEntryFee;
    assert PaidFees(trades[id := row]) == PaidFees(trades)[id := PaidEntryFee(row)];
    assert Results(trades[id := row]) == Results(trades)[id := row.realizedPnl];
    SumPut(PaidFees(trades), id, PaidEntryFee(row));
    SumPut(Results(trades), id, row.realizedPnl);
  }

  lemma OpenKeeps(cfg: EngineConfig, s: EngineState, id: TradeId, r: PlanRequest, timeframe: Timeframe, score: real,
                  now: int)
    requires Consistent(cfg, s) && id !in s.trades
    ensures Consistent(cfg, OpenStep(cfg, s, id, CreateExecutionPlan(cfg, s.equity, r), timeframe, score, now))
  {
    hide CreateExecutionPlan, LoadedEquity, OpenedCore, EntryFee, LiveCore, LiveRows, SettledRows, OnePerSymbol;
    var p := CreateExecutionPlan(cfg, s.equity, r);
    if Accepts(cfg, s, p) {
      var core := OpenedCore(p, timeframe, now);
      PositiveFill(cfg, s.equity, r);
      OpenedIsLive(cfg, p, timeframe, now);
      LedgerUpdate(cfg, s.trades, id, RowOf(cfg, core));
      assert id !in s.trades;
      var t := OpenStep(cfg, s, id, p, timeframe, score, now);
      OpenInStep(cfg, s, t, id, t.open[id]);
    }
  }

  lemma OpenInStep(cfg: EngineConfig, s: EngineState, t: EngineState, id: TradeId, p: Position)
    requires InStep(cfg, s) && id !in s.trades && LiveCore(p.core)
    requires forall k :: k in s.open ==> s.open[k].core.symbol != p.core.symbol
    requires t.open == s.open[id := p] && t.closed == s.closed && t.trades == s.trades[id := RowOf(cfg, p.core)]
    ensures InStep(cfg, t)
  {
    hide RowOf, LiveCore, LiveRows, SettledRows;
    NewSymbol(s.open, id, p);
    LiveRowsPut(cfg, s.open, s.trades, id, p);
    SettledRowsOther(cfg, s.closed, s.trades, id, RowOf(cfg, p.core));
    hide OnePerSymbol;
  }

  lemma NewSymbol(open: map<TradeId, Position>, id: TradeId, p: Position)
    requires OnePerSymbol(open)
    requires forall k :: k in open ==> k == id || open[k].core.symbol != p.core.symbol
    ensures OnePerSymbol(open[id := p]) && OnePerSymbol(open - {id})
  {
  }

  lemma LiveRowsPut(cfg: EngineConfig, open: map<TradeId, Position>, trades: TradeTable, id: TradeId, p: Position)
    requires LiveRows(cfg, open, trades) && LiveCore(p.core)
    ensures LiveRows(cfg, open[id := p], trades[id := RowOf(cfg, p.core)])
  {
    hide LiveCore, RowOf;
  }

  lemma LiveRowsDrop(cfg: EngineConfig, open: map<TradeId, Position>, trades: TradeTable, id: TradeId, row: TradeRow)
    requires LiveRows(cfg, open, trades)
    ensures LiveRows(cfg, open - {id}, trades[id := row])
  {
    hide LiveCore, RowOf;
  }

  lemma SettledRowsOther(cfg: EngineConfig, closed: map<TradeId, Position>, trades: TradeTable, id: TradeId,
                         row: TradeRow)
    requires SettledRows(cfg, closed, trades) && id !in closed
    ensures SettledRows(cfg, closed, trades[id := row])
  {
    hide SettledRow;
  }

  lemma SettledRowsPut(cfg: EngineConfig, closed: map<TradeId, Position>, trades: TradeTable, id: TradeId, p: Position)
    requires SettledRows(cfg, closed, trades) && SettledRow(cfg, p.core, RowOf(cfg, p.core))
    ensures SettledRows(cfg, closed[id := p], trades[id := RowOf(cfg, p.core)])
  {
    hide SettledRow, RowOf;
  }

  lemma OpenedIsLive(cfg: EngineConfig, p: Plan, timeframe: Timeframe, now: int)
    requires p.Plan? && 0.0 < p.fill && 0.0 < p.qty && p.entryFee == p.qty * p.fill * cfg.takerFee
    ensures var core := OpenedCore(p, timeframe, now);
            LiveCore(core) && EntryFee(cfg, core) == p.entryFee && core.symbol == p.symbol && core.realized == 0.0
  {
  }

  /** A change of a live position that leaves what it was opened with alone. */
  predicate SameOpening(c: PositionCore, d: PositionCore) {
    d == c.(sl := d.sl, qty := d.qty, status := d.status, tp1Hit := d.tp1Hit, exitPrice := d.exitPrice,
            exitTime := d.exitTime, exitReason := d.exitReason, realized := d.realized, fees := d.fees)
  }

  lemma SettleKeeps(cfg: EngineConfig, s: EngineState, id: TradeId, p: Position, net: real)
    requires Consistent(cfg, s) && id in s.open
    requires SameOpening(s.open[id].core, p.core)
    requires p.core.realized == s.open[id].core.realized + net
    requires p.core.status.Closed? || LiveCore(p.core)
    ensures Consistent(cfg, Settle(cfg, s, id, p, net))
  {
    var c := s.open[id].core;
    LiveRowOf(cfg, s, id);
    UpsertRow(cfg, s.trades, id, c, p.core);
    LedgerUpdate(cfg, s.trades, id, RowOf(cfg, p.core));
    assert PaidEntryFee(RowOf(cfg, p.core)) == PaidEntryFee(RowOf(cfg, c)) by { hide Value, TakerFee; }
    SettleInStep(cfg, s, id, p, net);
    hide LoadedEquity, InStep, Upsert, PaidEntryFee, Value, TakerFee;
  }

  lemma LiveRowOf(cfg: EngineConfig, s: EngineState, id: TradeId)
    requires InStep(cfg, s) && id in s.open
    ensures id in s.trades && LiveCore(s.open[id].core) && s.trades[id] == RowOf(cfg, s.open[id].core)
  {
    hide RowOf, LiveCore;
  }

  /** One position per symbol, none of them closed. */
  predicate Live(open: map<TradeId, Position>) {
    OnePerSymbol(open) && forall id :: id in open ==> !open[id].core.status.Closed?
  }

  lemma ConsistentIsLive(cfg: EngineConfig, s: EngineState)
    requires Consistent(cfg, s)
    ensures Live(s.open)
  {
    hide RowOf, LoadedEquity;
  }

  /** For a position that is not closed, the bar books its result and moves it exactly if it is closed now. */
  lemma BarSettles(cfg: EngineConfig, s: EngineState, symbol: string, bar: Bar)
    requires var holder := HolderOf(s.open, symbol); holder.Some? ==> !s.open[holder.value].core.status.Closed?
    ensures var holder := HolderOf(s.open, symbol);
            BarStep(cfg, s, symbol, bar) ==
            if holder.None? then s
            else
              var p := s.open[holder.value];
              Settle(cfg, s, holder.value, AfterBar(cfg, p, bar), BarNet(cfg, p.core, bar))
  {
    var holder := HolderOf(s.open, symbol);
    if holder.Some? {
      HolderHasSymbol(s.open, symbol);
      var id, p := holder.value, AfterBar(cfg, s.open[holder.value], bar);
      ClosedByExit(cfg, s.open[id], bar);
      hide AfterBar, RowOf, Upsert, BarNet, BarDecision, HolderOf;
      assert s.open[id := p] - {id} == s.open - {id};
    }
  }

  lemma ClosedByExit(cfg: EngineConfig, p: Position, bar: Bar)
    requires !p.core.status.Closed?
    ensures AfterBar(cfg, p, bar).core.status.Closed? <==> BarDecision(cfg, p.core, bar).Exit?
  {
    hide FinalPrice, ExitFee, CloseNet, Tp1Net, BarDecision;
  }

  /** A bar leaves one position per symbol, whether its row is written or not. */
  lemma BarKeepsSymbols(cfg: EngineConfig, s: EngineState, symbol: string, bar: Bar)
    requires OnePerSymbol(s.open)
    ensures OnePerSymbol(BarStep(cfg, s, symbol, bar).open) && OnePerSymbol(TornBar(cfg, s, symbol, bar).open)
  {
    var holder := HolderOf(s.open, symbol);
    if holder.Some? {
      var id := holder.value;
      var p := AfterBar(cfg, s.open[id], bar);
      AfterBarSymbol(cfg, s.open[id], bar);
      hide AfterBar, RowOf, Upsert, BarNet, BarDecision;
      assert s.open[id := p] - {id} == s.open - {id};
      NewSymbol(s.open, id, p);
      hide OnePerSymbol;
    }
  }

  /** A bar leaves live positions live, whatever the rows say. */
  lemma BarKeepsLive(cfg: EngineConfig, s: EngineState, symbol: string, bar: Bar)
    requires Live(s.open)
    ensures Live(BarStep(cfg, s, symbol, bar).open)
  {
    BarKeepsSymbols(cfg, s, symbol, bar);
    HolderHasSymbol(s.open, symbol);
    BarSettles(cfg, s, symbol, bar);
    hide AfterBar, RowOf, Upsert, BarNet, BarStep, OnePerSymbol, HolderOf;
  }

  lemma AfterBarSymbol(cfg: EngineConfig, p: Position, bar: Bar)
    ensures AfterBar(cfg, p, bar).core.symbol == p.core.symbol
  {
    hide FinalPrice, ExitFee, CloseNet, Tp1Net, BarDecision;
  }

  lemma OpenKeepsSymbols(cfg: EngineConfig, s: EngineState, id: TradeId, p: Plan, timeframe: Timeframe, score: real,
                         now: int)
    requires OnePerSymbol(s.open)
    ensures OnePerSymbol(OpenStep(cfg, s, id, p, timeframe, score, now).open)
  {
    hide RowOf, Upsert;
    if Accepts(cfg, s, p) {
      NewSymbol(s.open, id,
                Position(OpenedCore(p, timeframe, now), Display(p.contracts, 0.0, 0.0, p.fill, p.fill, score)));
      hide OnePerSymbol;
    }
  }

  lemma CloseKeepsSymbols(cfg: EngineConfig, s: EngineState, id: TradeId, reason: string, time: int)
    requires OnePerSymbol(s.open)
    ensures OnePerSymbol(CloseStep(cfg, s, id, reason, time).open)
  {
    hide RowOf, Upsert, CloseNet, FinalPrice, ExitFee, RMultiple;
  }

  lemma SettleInStep(cfg: EngineConfig, s: EngineState, id: TradeId, p: Position, net: real)
    requires InStep(cfg, s) && id in s.open
    requires SameOpening(s.open[id].core, p.core)
    requires p.core.status.Closed? || LiveCore(p.core)
    ensures InStep(cfg, Settle(cfg, s, id, p, net))
  {
    LiveRowOf(cfg, s, id);
    UpsertRow(cfg, s.trades, id, s.open[id].core, p.core);
    assert OnePerSymbol(s.open);
    NewSymbol(s.open, id, p);
    LiveEntry(s.open[id].core);
    ClosedRowSettles(cfg, p.core);
    hide Upsert, RowOf, LiveCore, OnePerSymbol, InStep;
    if p.core.status.Closed? {
      ClosedInStep(cfg, s, id, p, s.equity + net);
    } else {
      KeptInStep(cfg, s, id, p, s.equity + net);
    }
  }

  lemma ClosedInStep(cfg: EngineConfig, s: EngineState, id: TradeId, p: Position, equity: real)
    requires InStep(cfg, s) && id in s.open && OnePerSymbol(s.open - {id})
    requires SettledRow(cfg, p.core, RowOf(cfg, p.core))
    ensures InStep(cfg, EngineState(equity, s.open - {id}, s.closed[id := p], s.trades[id := RowOf(cfg, p.core)]))
  {
    LiveRowsDrop(cfg, s.open, s.trades, id, RowOf(cfg, p.core));
    SettledRowsPut(cfg, s.closed, s.trades, id, p);
    hide LiveRows, SettledRows, OnePerSymbol, RowOf, SettledRow;
  }

  lemma KeptInStep(cfg: EngineConfig, s: EngineState, id: TradeId, p: Position, equity: real)
    requires InStep(cfg, s) && id in s.open && OnePerSymbol(s.open[id := p]) && LiveCore(p.core)
    ensures InStep(cfg, EngineState(equity, s.open[id := p], s.closed, s.trades[id := RowOf(cfg, p.core)]))
  {
    LiveRowsPut(cfg, s.open, s.trades, id, p);
    SettledRowsOther(cfg, s.closed, s.trades, id, RowOf(cfg, p.core));
    hide LiveRows, SettledRows, OnePerSymbol, RowOf, LiveCore;
  }

  lemma LiveEntry(c: PositionCore)
    requires LiveCore(c)
    ensures 0.0 < c.entry
  {
  }

  lemma UpsertRow(cfg: EngineConfig, trades: TradeTable, id: TradeId, c: PositionCore, d: PositionCore)
    requires id in trades && trades[id] == RowOf(cfg, c) && SameOpening(c, d)
    ensures Upsert(trades, id, RowOf(cfg, d)) == trades[id := RowOf(cfg, d)]
  {
    hide Value, TakerFee;
    assert trades[id].(closed := d.status.Closed?, currentSl := d.sl, tp1Hit := d.tp1Hit, closedAt := d.exitTime,
                       exitPrice := d.exitPrice, exitReason := d.exitReason, realizedPnl := d.realized, fees := d.fees,
                       remainingQty := Some(d.qty)) == RowOf(cfg, d);
  }

  /** The row of a live position loads as that position. */
  lemma LiveRowLoads(cfg: EngineConfig, c: PositionCore)
    requires LiveCore(c)
    ensures LoadOpen(RowOf(cfg, c)) == c && !RowOf(cfg, c).closed
  {
    ReloadedQty(c);
    hide Value, TakerFee;
  }

  /** The row of a closed position loads as that position, up to its quantity and a closing time of zero. */
  lemma ClosedRowSettles(cfg: EngineConfig, c: PositionCore)
    requires 0.0 < c.entry
    ensures c.status.Closed? ==> SettledRow(cfg, c, RowOf(cfg, c))
  {
    ReloadedQty(c);
    hide Value, TakerFee;
  }

  lemma ReloadedQty(c: PositionCore)
    requires 0.0 < c.entry
    ensures Value(c.initialQty, c.entry) / c.entry == c.initialQty
  {
  }

  lemma BarKeeps(cfg: EngineConfig, s: EngineState, symbol: string, bar: Bar)
    requires Consistent(cfg, s)
    ensures Consistent(cfg, BarStep(cfg, s, symbol, bar))
  {
    var holder := HolderOf(s.open, symbol);
    if holder.Some? {
      var id := holder.value;
      HolderHasSymbol(s.open, symbol);
      LiveRowOf(cfg, s, id);
      AfterBarIsLive(cfg, s.open[id], bar);
      BarSettles(cfg, s, symbol, bar);
      hide BarStep, AfterBar, BarNet, Consistent, LiveCore;
      SettleKeeps(cfg, s, id, AfterBar(cfg, s.open[id], bar), BarNet(cfg, s.open[id].core, bar));
    }
  }

  lemma AfterBarIsLive(cfg: EngineConfig, p: Position, bar: Bar)
    requires LiveCore(p.core)
    ensures var q := AfterBar(cfg, p, bar);
            && SameOpening(p.core, q.core)
            && q.core.realized == p.core.realized + BarNet(cfg, p.core, bar)
            && (q.core.status.Closed? || LiveCore(q.core))
            && (q.core.status.Closed? <==> BarDecision(cfg, p.core, bar).Exit?)
  {
    hide FinalPrice, ExitFee, CloseNet, Tp1Net;
  }

  lemma CloseKeeps(cfg: EngineConfig, s: EngineState, id: TradeId, reason: string, time: int)
    requires Consistent(cfg, s)
    ensures Consistent(cfg, CloseStep(cfg, s, id, reason, time))
  {
    if id in s.open {
      var p := s.open[id];
      SettleKeeps(cfg, s, id, ClosedPosition(cfg, p, p.core.entry, time, Manual(reason)),
                  CloseNet(cfg, p.core, p.core.entry, Manual(reason)));
    }
  }

  lemma ResetKeeps(cfg: EngineConfig, s: EngineState)
    ensures Consistent(cfg, ResetStep(cfg, s))
  {
    assert PaidFees(map[]) == map[] && Results(map[]) == map[];
  }

  lemma LoadedSettled(cfg: EngineConfig, c: PositionCore, row: TradeRow)
    requires SettledRow(cfg, c, row)
    ensures row.closed && SettledRow(cfg, LoadClosed(row), row)
    ensures PaidEntryFee(row) == EntryFee(cfg, LoadClosed(row)) == EntryFee(cfg, c)
    ensures LoadClosed(row).realized == c.realized
  {
    hide InitialQty, Value, TakerFee;
    assert EntryFee(cfg, Settled(c)) == EntryFee(cfg, Settled(LoadClosed(row)));
  }

  /** Loading the table of a consistent account gives a consistent account with the same live positions. */
  lemma LoadKeeps(cfg: EngineConfig, s: EngineState)
    requires Consistent(cfg, s)
    ensures Consistent(cfg, Load(cfg, s.trades))
    ensures LoadedOpen(s.trades).Keys == s.open.Keys && LoadedClosed(s.trades).Keys == s.closed.Keys
    ensures forall id :: id in s.open ==> LoadedOpen(s.trades)[id].core == s.open[id].core
  {
    hide LoadOpen, LoadClosed, RowOf, SettledRow, LiveCore, LoadedEquity;
    forall id | id in s.open
      ensures !s.trades[id].closed && LoadOpen(s.trades[id]) == s.open[id].core
    {
      LiveRowLoads(cfg, s.open[id].core);
    }
    forall id | id in s.closed
      ensures s.trades[id].closed && SettledRow(cfg, LoadClosed(s.trades[id]), s.trades[id])
    {
      LoadedSettled(cfg, s.closed[id].core, s.trades[id]);
    }
    assert LoadedOpen(s.trades).Keys == s.open.Keys && LoadedClosed(s.trades).Keys == s.closed.Keys;
    hide OnePerSymbol;
    assert LiveRows(cfg, LoadedOpen(s.trades), s.trades);
    assert SettledRows(cfg, LoadedClosed(s.trades), s.trades);
    hide LiveRows, SettledRows;
    LoadedOnePerSymbol(s.open, LoadedOpen(s.trades));
  }

  lemma LoadedOnePerSymbol(open: map<TradeId, Position>, loaded: map<TradeId, Position>)
    requires OnePerSymbol(open) && loaded.Keys == open.Keys
    requires forall id :: id in open ==> loaded[id].core == open[id].core
    ensures OnePerSymbol(loaded)
  {
  }

  // ---------- the ledger law over the positions in memory ----------

  function Book(s: EngineState): map<TradeId, PositionCore> {
    map id | id in s.open.Keys + s.closed.Keys :: if id in s.open then s.open[id].core else s.closed[id].core
  }

  function EntryFees(cfg: EngineConfig, book: map<TradeId, PositionCore>): map<TradeId, real> {
    map id | id in book :: EntryFee(cfg, book[id])
  }

  function Realized(book: map<TradeId, PositionCore>): map<TradeId, real> {
    map id | id in book :: book[id].realized
  }

  /** Equity is the starting equity, less the entry fee of every position, plus everything realized. */
  lemma LedgerOverPositions(cfg: EngineConfig, s: EngineState)
    requires Consistent(cfg, s)
    ensures s.equity == cfg.startingEquity - Sum(EntryFees(cfg, Book(s))) + Sum(Realized(Book(s)))
  {
    hide InStep, PaidEntryFee, EntryFee, Book, Sum;
    BookKeys(cfg, s);
    forall id | id in s.trades
      ensures PaidEntryFee(s.trades[id]) == EntryFee(cfg, Book(s)[id])
      ensures s.trades[id].realizedPnl == Book(s)[id].realized
    {
      BookedRow(cfg, s, id);
    }
    assert PaidFees(s.trades) == EntryFees(cfg, Book(s));
    assert Results(s.trades) == Realized(Book(s));
  }

  lemma BookKeys(cfg: EngineConfig, s: EngineState)
    requires InStep(cfg, s)
    ensures Book(s).Keys == s.trades.Keys
  {
    hide LiveRows, SettledRows, OnePerSymbol;
  }

  lemma BookedRow(cfg: EngineConfig, s: EngineState, id: TradeId)
    requires InStep(cfg, s) && id in s.trades
    ensures id in Book(s)
    ensures PaidEntryFee(s.trades[id]) == EntryFee(cfg, Book(s)[id])
    ensures s.trades[id].realizedPnl == Book(s)[id].realized
  {
    hide EntryFee;
    if id in s.open {
      LiveRowOf(cfg, s, id);
    }
  }
}
