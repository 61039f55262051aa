/** The paper trading engine (aura/runner/paper_engine.py): an account that is updated in place and written
    through to its rows of the trades table. Every method is proved against the steps of `PaperLedger`. */
module PaperEngine {
  import opened Wrappers
  import opened Positions
  import opened PaperLedger

  class PaperTradingEngine {
    const config: EngineConfig
    var equity: real
    var openPositions: map<TradeId, Position>
    var closedPositions: map<TradeId, Position>
    var trades: TradeTable

    ghost function State(): EngineState
      reads this
    {
      EngineState(equity, openPositions, closedPositions, trades)
    }

    ghost predicate Valid()
      reads this
    {
      Consistent(config, State())
    }

    constructor (config: EngineConfig, trades: TradeTable)
      ensures this.config == config && State() == Load(config, trades)
    {
      this.config := config;
      this.trades := trades;
      equity := config.startingEquity;
      openPositions := map[];
      closedPositions := map[];
      new;
      LoadStateFromDb();
    }

    /** Rebuild the account from its rows. */
    method LoadStateFromDb()
      modifies this
      ensures State() == Load(config, trades) && trades == old(trades)
    {
      var entryFeesPaid, totalRealized := LoadRows();
      equity := config.startingEquity - entryFeesPaid + totalRealized;
    }

    /** Rebuild every position from its row, adding up fees and results on the way. */
    method LoadRows() returns (entryFeesPaid: real, totalRealized: real)
      modifies this
      ensures trades == old(trades)
      ensures openPositions == LoadedOpen(trades) && closedPositions == LoadedClosed(trades)
      ensures entryFeesPaid == Sum(PaidFees(trades)) && totalRealized == Sum(Results(trades))
    {
      openPositions := map[];
      closedPositions := map[];
      entryFeesPaid, totalRealized := 0.0, 0.0;
      var ids := trades.Keys;
      ghost var loaded: TradeTable := map[];
      while ids != {}
        invariant ids <= trades.Keys && trades == old(trades)
        invariant loaded == trades - ids
        invariant openPositions == LoadedOpen(loaded) && closedPositions == LoadedClosed(loaded)
        invariant entryFeesPaid == Sum(PaidFees(loaded)) && totalRealized == Sum(Results(loaded))
        decreases ids
      {
        hide LoadOpen, LoadClosed, PaidEntryFee, Sum, LoadedOpen, LoadedClosed, PaidFees, Results;
        var id :| id in ids;
        var row := trades[id];
        if row.closed {
          closedPositions := closedPositions[id := Position(LoadClosed(row), LOADED_DISPLAY)];
        } else {
          openPositions := openPositions[id := Position(LoadOpen(row), LOADED_DISPLAY)];
        }
        entryFeesPaid := entryFeesPaid + PaidEntryFee(row);
        totalRealized := totalRealized + row.realizedPnl;
        LoadOneMore(loaded, id, row);
        SumOneMore(loaded, id, row);
        TakeOut(trades, ids, id);
        ids := ids - {id};
        loaded := loaded[id := row];
      }
      assert loaded == trades;
    }

    /** Write a position's row; `fails` says that the database refuses. */
    method PersistTrade(id: TradeId, pos: Position, fails: bool) returns (raised: bool)
      modifies this`trades
      ensures raised == fails
      ensures trades == if raised then old(trades) else Upsert(old(trades), id, RowOf(config, pos.core))
    {
      if fails {
        return true;
      }
      trades := Upsert(trades, id, RowOf(config, pos.core));
      raised := false;
    }

    method SymbolIsFree(symbol: string) returns (free: bool)
      ensures free <==> forall k :: k in openPositions ==> openPositions[k].core.symbol != symbol
    {
      var ids := openPositions.Keys;
      while ids != {}
        invariant ids <= openPositions.Keys
        invariant forall k :: k in openPositions && k !in ids ==> openPositions[k].core.symbol != symbol
        decreases |ids|
      {
        var k :| k in ids;
        if openPositions[k].core.symbol == symbol {
          return false;
        }
        ids := ids - {k};
      }
      free := true;
    }

    /** Book a plan that was checked before; a refused plan, a full account and a second position for the
        symbol change nothing. When the row cannot be written, the position is in memory only. */
    method ExecutePlan(plan: Plan, id: TradeId, timeframe: Timeframe, score: real, now: int, fails: bool)
      returns (booked: Option<Position>, raised: bool)
      modifies this
      ensures raised <==> fails && Accepts(config, old(State()), plan)
      ensures State() == if raised then TornOpen(config, old(State()), id, plan, timeframe, score, now)
                         else OpenStep(config, old(State()), id, plan, timeframe, score, now)
      ensures booked.Some? <==> Accepts(config, old(State()), plan) && !raised
      ensures booked.Some? ==> id in openPositions && booked.value == openPositions[id]
    {
      booked, raised := None, false;
      if plan.Refused? {
        return;
      }
      if |openPositions| >= config.maxOpenPositions {
        return;
      }
      var free := SymbolIsFree(plan.symbol);
      if !free {
        return;
      }
      hide RowOf, Upsert, OpenedCore;
      var pos := Position(OpenedCore(plan, timeframe, now),
                          Display(plan.contracts, 0.0, 0.0, plan.fill, plan.fill, score));
      openPositions := openPositions[id := pos];
      equity := equity - plan.entryFee;
      raised := PersistTrade(id, pos, fails);
      if !raised {
        booked := Some(pos);
      }
    }

    /** Update the open positions of one symbol against a bar; closed positions move over after the loop, which is not
        reached when a row cannot be written. */
    method OnBarUpdate(symbol: string, bar: Bar, fails: bool) returns (closedInBar: seq<Position>, raised: bool)
      requires OnePerSymbol(openPositions)
      modifies this
      ensures raised <==> fails && HolderOf(old(openPositions), symbol).Some?
      ensures old(Valid()) && !raised ==> Valid()
      ensures State() == if raised then TornBar(config, old(State()), symbol, bar)
                         else BarStep(config, old(State()), symbol, bar)
      ensures closedInBar == if raised then [] else BarExits(config, old(State()), symbol, bar)
    {
      hide AfterBar, BarNet, RowOf, Upsert, LoadedEquity, InStep, Visited, Moved, BarDecision;
      ghost var start := State();
      if Consistent(config, start) { BarKeeps(config, start, symbol, bar); }
      hide Consistent;
      var toRemove;
      closedInBar, toRemove, raised := VisitPositions(symbol, bar, fails);
      if raised {
        closedInBar := [];
        return;
      }
      FinishBar(config, start, symbol, bar, State(), closedInBar, toRemove);
      MoveClosed(toRemove);
    }

    method VisitPositions(symbol: string, bar: Bar, fails: bool)
      returns (closedInBar: seq<Position>, toRemove: set<TradeId>, raised: bool)
      requires OnePerSymbol(openPositions)
      modifies this
      ensures raised <==> fails && HolderOf(old(openPositions), symbol).Some?
      ensures raised ==> State() == TornBar(config, old(State()), symbol, bar)
      ensures closedPositions == old(closedPositions)
      ensures var holder := HolderOf(old(openPositions), symbol);
              !raised ==>
                if holder.Some? then Visited(config, old(State()), holder.value, bar, State(), closedInBar, toRemove)
                else State() == old(State()) && closedInBar == [] && toRemove == {}
    {
      hide AfterBar, BarNet, RowOf, Upsert, HolderOf, OnePerSymbol, BarDecision;
      closedInBar, toRemove, raised := [], {}, false;
      var ids := openPositions.Keys;
      ghost var start := State();
      ghost var holder := HolderOf(openPositions, symbol);
      HolderHasSymbol(openPositions, symbol);
      while ids != {}
        invariant ids <= start.open.Keys && openPositions.Keys == start.open.Keys
        invariant closedPositions == start.closed
        invariant holder.None? || holder.value in ids ==> State() == start && closedInBar == [] && toRemove == {}
        invariant holder.Some? && holder.value !in ids ==>
                    !fails && Visited(config, start, holder.value, bar, State(), closedInBar, toRemove)
        decreases ids
      {
        var id :| id in ids;
        ids := ids - {id};
        if openPositions[id].core.symbol != symbol {
          continue;
        }
        OnlyHolder(config, start, symbol, id, holder, bar, State(), closedInBar, toRemove);
        var pos, closed;
        pos, closed, raised := UpdatePosition(id, bar, fails);
        if raised {
          return;
        }
        if closed {
          closedInBar := closedInBar + [pos];
          toRemove := toRemove + {id};
        }
      }
    }

    /** The collision, stop, second target, first target and timestop rules for one position. */
    method UpdatePosition(id: TradeId, bar: Bar, fails: bool) returns (pos: Position, closed: bool, raised: bool)
      requires id in openPositions
      modifies this
      ensures raised == fails
      ensures pos == AfterBar(config, old(openPositions)[id], bar)
      ensures openPositions == old(openPositions)[id := pos]
      ensures equity == old(equity) + BarNet(config, old(openPositions)[id].core, bar)
      ensures closedPositions == old(closedPositions)
      ensures trades == if raised then old(trades) else Upsert(old(trades), id, RowOf(config, pos.core))
      ensures closed <==> BarDecision(config, old(openPositions)[id].core, bar).Exit?
    {
      hide RowOf, Upsert, CloseNet, Tp1Net, FinalPrice, ExitFee, RMultiple, BarDecision, Fee;
      pos := openPositions[id];
      pos := pos.(display := MarkExtremes(pos.display, bar));
      closed := false;
      match BarDecision(config, pos.core, bar)
      case Exit(price, reason) =>
        pos, raised := CloseFull(id, pos, price, bar.time, reason, fails);
        closed := true;
      case BankTp1 =>
        pos, raised := ExecuteTp1Partial(id, pos, fails);
      case Hold =>
        pos := pos.(display :=
                    pos.display.(unrealized := pos.core.qty * ((bar.close - pos.core.entry) * pos.core.dir.Sign())));
        openPositions := openPositions[id := pos];
        raised := PersistTrade(id, pos, fails);
    }

    /** Sell half at the first target and move the stop to the entry. */
    method ExecuteTp1Partial(id: TradeId, pos: Position, fails: bool) returns (banked: Position, raised: bool)
      requires id in openPositions
      modifies this
      ensures raised == fails
      ensures banked == pos.(core := BankedCore(config, pos.core))
      ensures openPositions == old(openPositions)[id := banked]
      ensures equity == old(equity) + Tp1Net(config, pos.core)
      ensures closedPositions == old(closedPositions)
      ensures trades == if raised then old(trades) else Upsert(old(trades), id, RowOf(config, banked.core))
    {
      hide Gross, Fee, RowOf, Upsert;
      var c := pos.core;
      var closedQty := c.qty * 0.5;
      var grossPnl := Gross(c, c.tp1, closedQty);
      var exitFee := Fee(closedQty, c.tp1, config.makerFee);
      var netPartial := grossPnl - exitFee;
      banked := pos.(core := c.(realized := c.realized + netPartial, fees := c.fees + exitFee, qty := c.qty - closedQty,
                                    tp1Hit := true, status := PartialTp1, sl := c.entry));
      openPositions := openPositions[id := banked];
      equity := equity + netPartial;
      raised := PersistTrade(id, banked, fails);
    }

    /** Sell the remaining quantity and book the result. */
    method CloseFull(id: TradeId, pos: Position, exitPrice: real, time: int, reason: ExitReason, fails: bool)
      returns (closed: Position, raised: bool)
      requires id in openPositions
      modifies this
      ensures raised == fails
      ensures closed == ClosedPosition(config, pos, exitPrice, time, reason)
      ensures openPositions == old(openPositions)[id := closed]
      ensures equity == old(equity) + CloseNet(config, pos.core, exitPrice, reason)
      ensures closedPositions == old(closedPositions)
      ensures trades == if raised then old(trades) else Upsert(old(trades), id, RowOf(config, closed.core))
    {
      hide Gross, Fee, RowOf, Upsert, IsTaker, RMultiple;
      var c := pos.core;
      var isTaker := PaysTaker(reason);
      var feeRate := if isTaker then config.takerFee else config.makerFee;
      var slip := if isTaker then config.slippageBps / 10000.0 * -c.dir.Sign() else 0.0;
      var finalPrice := exitPrice * (1.0 + slip);
      var grossPnl := Gross(c, finalPrice, c.qty);
      var exitFee := Fee(c.qty, finalPrice, feeRate);
      var netPnl := grossPnl - exitFee;
      c := c.(realized := c.realized + netPnl, fees := c.fees + exitFee, exitPrice := Some(finalPrice),
              exitTime := Some(time), exitReason := Some(reason), status := Closed);
      assert finalPrice == FinalPrice(config, pos.core.dir, exitPrice, reason);
      assert exitFee == ExitFee(config, pos.core.qty, finalPrice, reason);
      assert c == ClosedCore(config, pos.core, exitPrice, time, reason);
      closed := Position(c, pos.display.(unrealized := 0.0, rMultiple := RMultiple(c)));
      openPositions := openPositions[id := closed];
      equity := equity + netPnl;
      raised := PersistTrade(id, closed, fails);
    }

    /** Move the listed positions from the open to the closed ones. */
    method MoveClosed(toRemove: set<TradeId>)
      modifies this`openPositions, this`closedPositions
      ensures openPositions == old(openPositions) - toRemove
      ensures closedPositions == Moved(old(openPositions), old(closedPositions), toRemove)
    {
      hide Moved;
      var left := toRemove;
      MovedNone(openPositions, closedPositions);
      assert toRemove - left == {};
      while left != {}
        invariant left <= toRemove
        invariant openPositions == old(openPositions) - (toRemove - left)
        invariant closedPositions == Moved(old(openPositions), old(closedPositions), toRemove - left)
        decreases left
      {
        var id :| id in left;
        MovedOne(old(openPositions), old(closedPositions), toRemove - left, id);
        assert toRemove - (left - {id}) == toRemove - left + {id};
        left := left - {id};
        if id in openPositions {
          closedPositions := closedPositions[id := openPositions[id]];
          openPositions := openPositions - {id};
        }
      }
      assert toRemove - left == toRemove;
    }

    /** The control plane's manual close: at the entry price, with the operator's reason. It keeps a copy of the
        account, which comes back when the row cannot be written. */
    method CloseTrade(id: TradeId, reason: string, time: int, fails: bool) returns (found: bool, raised: bool)
      modifies this
      ensures raised <==> fails && id in old(openPositions)
      ensures old(Valid()) ==> Valid()
      ensures State() == if raised then old(State()) else CloseStep(config, old(State()), id, reason, time)
      ensures found <==> id in old(openPositions)
    {
      hide CloseNet, RowOf, Upsert, Consistent, FinalPrice, ExitFee, RMultiple;
      if Consistent(config, State()) { CloseKeeps(config, State(), id, reason, time); }
      found, raised := id in openPositions, false;
      if found {
        var open, closed, equityBefore := openPositions, closedPositions, equity;
        var pos;
        pos, raised := CloseFull(id, openPositions[id], openPositions[id].core.entry, time, Manual(reason), fails);
        if raised {
          openPositions, closedPositions, equity := open, closed, equityBefore;
          return;
        }
        openPositions := openPositions - {id};
        closedPositions := closedPositions[id := pos];
        assert openPositions == old(openPositions) - {id};
      }
    }

    method ResetAccount()
      modifies this
      ensures Valid() && State() == ResetStep(config, old(State()))
    {
      ResetKeeps(config, State());
      trades, openPositions, closedPositions := map[], map[], map[];
      equity := config.startingEquity;
    }
  }

  /** Substring search over a manual reason. */
  method HasWord(text: string, word: string) returns (found: bool)
    ensures found <==> Mentions(text, word)
  {
    var i := 0;
    while i <= |text| - |word|
      invariant 0 <= i
      invariant forall k :: k < i ==> !WordAt(text, word, k)
    {
      if WordAt(text, word, i) {
        return true;
      }
      i := i + 1;
    }
    return false;
  }

  method PaysTaker(reason: ExitReason) returns (taker: bool)
    ensures taker <==> IsTaker(reason)
  {
    match reason
    case Tp2Hit => taker := false;
    case Manual(text) =>
      taker := HasWord(text, "sl");
      if !taker {
        taker := HasWord(text, "timestop");
      }
      if !taker {
        taker := HasWord(text, "manual");
      }
    case _ => taker := true;
  }

  /** The state of the bar loop once the only position of the symbol was visited. */
  ghost predicate Visited(cfg: EngineConfig, start: EngineState, id: TradeId, bar: Bar, s: EngineState,
                          exits: seq<Position>, toRemove: set<TradeId>)
    requires id in start.open
  {
    var p := AfterBar(cfg, start.open[id], bar);
    && s.equity == start.equity + BarNet(cfg, start.open[id].core, bar)
    && s.open == start.open[id := p]
    && s.trades == Upsert(start.trades, id, RowOf(cfg, p.core))
    && exits == (if BarDecision(cfg, start.open[id].core, bar).Exit? then [p] else [])
    && toRemove == (if BarDecision(cfg, start.open[id].core, bar).Exit? then {id} else {})
  }

  /** A position of the bar's symbol that was not visited yet is its only holder. */
  lemma OnlyHolder(cfg: EngineConfig, start: EngineState, symbol: string, id: TradeId, holder: Option<TradeId>,
                   bar: Bar, s: EngineState, exits: seq<Position>, toRemove: set<TradeId>)
    requires OnePerSymbol(start.open) && holder == HolderOf(start.open, symbol)
    requires id in start.open && id in s.open && s.open[id].core.symbol == symbol
    requires s.open == start.open ||
             (holder.Some? && holder.value != id && Visited(cfg, start, holder.value, bar, s, exits, toRemove))
    ensures s.open == start.open && holder == Some(id)
  {
    hide AfterBar, BarNet, RowOf, Upsert, BarDecision;
    HolderIsUnique(start.open, id);
  }

  /** The closed positions after the listed open ones joined them. */
  function Moved(open: map<TradeId, Position>, closed: map<TradeId, Position>, ids: set<TradeId>)
    : map<TradeId, Position>
  {
    closed + map id | id in ids && id in open :: open[id]
  }

  lemma MovedNone(open: map<TradeId, Position>, closed: map<TradeId, Position>)
    ensures Moved(open, closed, {}) == closed
  {
  }

  lemma MovedOne(open: map<TradeId, Position>, closed: map<TradeId, Position>, ids: set<TradeId>, id: TradeId)
    ensures Moved(open, closed, ids + {id})
            == if id in open then Moved(open, closed, ids)[id := open[id]] else Moved(open, closed, ids)
  {
  }

  lemma FinishBar(cfg: EngineConfig, start: EngineState, symbol: string, bar: Bar, s: EngineState,
                  exits: seq<Position>, toRemove: set<TradeId>)
    requires s.closed == start.closed
    requires var holder := HolderOf(start.open, symbol);
             if holder.Some? then Visited(cfg, start, holder.value, bar, s, exits, toRemove)
             else s == start && exits == [] && toRemove == {}
    ensures EngineState(s.equity, s.open - toRemove, Moved(s.open, s.closed, toRemove), s.trades) ==
            BarStep(cfg, start, symbol, bar)
    ensures exits == BarExits(cfg, start, symbol, bar)
  {
    HolderHasSymbol(start.open, symbol);
    hide AfterBar, BarNet, RowOf, Upsert, BarDecision, HolderOf;
    if toRemove == {} {
      assert s.open - toRemove == s.open && Moved(s.open, s.closed, toRemove) == s.closed;
    } else {
      var id := HolderOf(start.open, symbol).value;
      assert s.open - toRemove == s.open - {id};
      assert Moved(s.open, s.closed, toRemove) == s.closed[id := s.open[id]];
    }
  }

  lemma TakeOut(trades: TradeTable, ids: set<TradeId>, id: TradeId)
    requires id in ids && ids <= trades.Keys
    ensures trades - (ids - {id}) == (trades - ids)[id := trades[id]]
  {
  }
}
