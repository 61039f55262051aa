/** A restart of a paper account is invisible: an account that is reloaded from its trades table at any
    points runs exactly like one that never stops (aura/runner/paper_engine.py). */
module PaperRestart {
  import opened Wrappers
  import opened Positions
  import opened PaperLedger

  datatype Action =
    | Open(id: TradeId, request: PlanRequest, timeframe: Timeframe, score: real, now: int)
    | BarUpdate(symbol: string, bar: Bar)
    | CloseTrade(id: TradeId, reason: string, time: int)
    | Reset
    | Reload

  /** What the account reports: the position it opened, and the positions it closed with their final quantities. */
  datatype Event = Opened(id: TradeId, core: PositionCore) | Exited(core: PositionCore)

  ghost function Step(cfg: EngineConfig, s: EngineState, a: Action): EngineState {
    match a
    case Open(id, request, timeframe, score, now) =>
      OpenStep(cfg, s, id, CreateExecutionPlan(cfg, s.equity, request), timeframe, score, now)
    case BarUpdate(symbol, bar) => BarStep(cfg, s, symbol, bar)
    case CloseTrade(id, reason, time) => CloseStep(cfg, s, id, reason, time)
    case Reset => ResetStep(cfg, s)
    case Reload => Load(cfg, s.trades)
  }

  function ExitEvents(exits: seq<Position>): seq<Event> {
    seq(|exits|, i requires 0 <= i < |exits| => Exited(exits[i].core))
  }

  ghost function Events(cfg: EngineConfig, s: EngineState, a: Action): seq<Event> {
    match a
    case Open(id, request, timeframe, score, now) =>
      var p := CreateExecutionPlan(cfg, s.equity, request);
      if Accepts(cfg, s, p) then [Opened(id, OpenedCore(p, timeframe, now))] else []
    case BarUpdate(symbol, bar) => ExitEvents(BarExits(cfg, s, symbol, bar))
    case CloseTrade(id, reason, time) =>
      if id in s.open then [Exited(ClosedCore(cfg, s.open[id].core, s.open[id].core.entry, time, Manual(reason)))]
      else []
    case Reset => []
    case Reload => []
  }

  ghost function Run(cfg: EngineConfig, s: EngineState, actions: seq<Action>): (EngineState, seq<Event>)
    decreases |actions|
  {
    if actions == [] then (s, [])
    else
      var (t, events) := Run(cfg, Step(cfg, s, actions[0]), actions[1..]);
      (t, Events(cfg, s, actions[0]) + events)
  }

  function WithoutReloads(actions: seq<Action>): seq<Action> {
    if actions == [] then []
    else (if actions[0].Reload? then [] else [actions[0]]) + WithoutReloads(actions[1..])
  }

  /** Trade ids are never used twice. */
  predicate FreshIds(used: set<TradeId>, actions: seq<Action>)
    decreases |actions|
  {
    actions == [] ||
    if actions[0].Open? then actions[0].id !in used && FreshIds(used + {actions[0].id}, actions[1..])
    else FreshIds(used, actions[1..])
  }

  /** Two consistent accounts over the same table; `SameShows` says what they have in common. */
  ghost predicate Same(cfg: EngineConfig, s: EngineState, t: EngineState) {
    Consistent(cfg, s) && Consistent(cfg, t) && s.trades == t.trades
  }

  predicate SameCores(a: map<TradeId, Position>, b: map<TradeId, Position>) {
    a.Keys == b.Keys && forall id :: id in a ==> a[id].core == b[id].core
  }

  predicate SameSettled(a: map<TradeId, Position>, b: map<TradeId, Position>) {
    a.Keys == b.Keys && forall id :: id in a ==> Settled(a[id].core) == Settled(b[id].core)
  }

  /** Accounts over the same table have the same equity, the same live positions in every persisted field, and
      the same closed positions up to the closed quantity and a closing time of zero. */
  lemma SameShows(cfg: EngineConfig, s: EngineState, t: EngineState)
    requires Same(cfg, s, t)
    ensures s.equity == t.equity
    ensures SameCores(s.open, t.open)
    ensures SameSettled(s.closed, t.closed)
  {
    hide InStep, LoadedEquity;
    SameOpen(cfg, s, t);
    SameClosed(cfg, s, t);
  }

  lemma SameOpen(cfg: EngineConfig, s: EngineState, t: EngineState)
    requires InStep(cfg, s) && InStep(cfg, t) && s.trades == t.trades
    ensures SameCores(s.open, t.open)
  {
    hide InStep, RowOf, LiveCore, LoadOpen;
    forall id
      ensures id in s.open <==> id in t.open
      ensures id in s.open ==> s.open[id].core == t.open[id].core
    {
      KeysByRow(cfg, s, id);
      KeysByRow(cfg, t, id);
      if id in s.open {
        LiveRowOf(cfg, s, id);
        LiveRowOf(cfg, t, id);
        LiveRowLoads(cfg, s.open[id].core);
        LiveRowLoads(cfg, t.open[id].core);
      }
    }
  }

  lemma SameClosed(cfg: EngineConfig, s: EngineState, t: EngineState)
    requires InStep(cfg, s) && InStep(cfg, t) && s.trades == t.trades
    ensures SameSettled(s.closed, t.closed)
  {
    forall id
      ensures id in s.closed <==> id in t.closed
    {
      KeysByRow(cfg, s, id);
      KeysByRow(cfg, t, id);
    }
    assert SettledRows(cfg, s.closed, s.trades) && SettledRows(cfg, t.closed, t.trades);
    hide LiveRows, OnePerSymbol, LoadClosed, Settled, EntryFee, InStep;
  }

  lemma KeysByRow(cfg: EngineConfig, s: EngineState, id: TradeId)
    requires InStep(cfg, s)
    ensures id in s.open <==> id in s.trades && !s.trades[id].closed
    ensures id in s.closed <==> id in s.trades && s.trades[id].closed
  {
    hide LoadOpen, LoadClosed;
    if id in s.open {
      LiveRowLoads(cfg, s.open[id].core);
    }
  }

  // ---------- every action depends on the table only ----------

  lemma SameHolder(a: map<TradeId, Position>, b: map<TradeId, Position>, symbol: string)
    requires OnePerSymbol(a) && SameCores(a, b)
    ensures HolderOf(a, symbol) == HolderOf(b, symbol)
  {
    if id :| id in a && a[id].core.symbol == symbol {
      assert b[id].core.symbol == symbol;
    }
    if id :| id in b && b[id].core.symbol == symbol {
      assert a[id].core.symbol == symbol;
    }
  }

  lemma AfterBarByCore(cfg: EngineConfig, p: Position, q: Position, bar: Bar)
    requires p.core == q.core
    ensures AfterBar(cfg, p, bar).core == AfterBar(cfg, q, bar).core
  {
    hide ClosedCore, BankedCore;
  }

  lemma BarRespects(cfg: EngineConfig, s: EngineState, t: EngineState, symbol: string, bar: Bar)
    requires Same(cfg, s, t)
    ensures BarStep(cfg, s, symbol, bar).trades == BarStep(cfg, t, symbol, bar).trades
    ensures ExitEvents(BarExits(cfg, s, symbol, bar)) == ExitEvents(BarExits(cfg, t, symbol, bar))
  {
    hide AfterBar, RowOf, Upsert, LiveRows, SettledRows, LoadedEquity;
    SameShows(cfg, s, t);
    SameHolder(s.open, t.open, symbol);
    var holder := HolderOf(s.open, symbol);
    if holder.Some? {
      AfterBarByCore(cfg, s.open[holder.value], t.open[holder.value], bar);
    }
  }

  lemma OpenRespects(cfg: EngineConfig, s: EngineState, t: EngineState, id: TradeId, p: Plan, timeframe: Timeframe,
                     score: real, now: int)
    requires SameCores(s.open, t.open) && s.trades == t.trades
    ensures OpenStep(cfg, s, id, p, timeframe, score, now).trades ==
            OpenStep(cfg, t, id, p, timeframe, score, now).trades
    ensures Accepts(cfg, s, p) == Accepts(cfg, t, p)
  {
    hide RowOf, Upsert, OpenedCore;
    assert |s.open| == |s.open.Keys| && |t.open| == |t.open.Keys|;
  }

  lemma CloseRespects(cfg: EngineConfig, s: EngineState, t: EngineState, id: TradeId, reason: string, time: int)
    requires SameCores(s.open, t.open) && s.trades == t.trades
    ensures CloseStep(cfg, s, id, reason, time).trades == CloseStep(cfg, t, id, reason, time).trades
  {
    hide RowOf, Upsert, ClosedCore, CloseNet;
  }

  lemma StepKeeps(cfg: EngineConfig, s: EngineState, a: Action)
    requires Consistent(cfg, s)
    requires a.Open? ==> a.id !in s.trades
    ensures Consistent(cfg, Step(cfg, s, a))
    ensures Step(cfg, s, a).trades.Keys <= s.trades.Keys + if a.Open? then {a.id} else {}
  {
    hide Consistent, Load, CreateExecutionPlan, AfterBar, ClosedPosition, OpenedCore;
    match a
    case Open(id, request, timeframe, score, now) => OpenKeeps(cfg, s, id, request, timeframe, score, now);
    case BarUpdate(symbol, bar) => BarKeeps(cfg, s, symbol, bar); LiveIdsInTable(cfg, s);
    case CloseTrade(id, reason, time) => CloseKeeps(cfg, s, id, reason, time); LiveIdsInTable(cfg, s);
    case Reset => ResetKeeps(cfg, s);
    case Reload => LoadKeeps(cfg, s); assert Load(cfg, s.trades).trades == s.trades by { LoadTable(cfg, s.trades); }
  }

  lemma LoadTable(cfg: EngineConfig, trades: TradeTable)
    ensures Load(cfg, trades).trades == trades
  {
  }

  lemma LiveIdsInTable(cfg: EngineConfig, s: EngineState)
    requires Consistent(cfg, s)
    ensures s.open.Keys <= s.trades.Keys
  {
  }

  /** The table after an action, and what the action reports, depend on the table before it only. */
  lemma ActionRespects(cfg: EngineConfig, s: EngineState, t: EngineState, a: Action)
    requires Same(cfg, s, t)
    ensures Step(cfg, s, a).trades == Step(cfg, t, a).trades
    ensures Events(cfg, s, a) == Events(cfg, t, a)
  {
    SameShows(cfg, s, t);
    SameMeans(cfg, s, t);
    hide Same, Consistent, SameSettled, SameCores, Step, Events;
    match a
    case Open(_, _, _, _, _) => OpenAction(cfg, s, t, a);
    case BarUpdate(_, _) => BarAction(cfg, s, t, a);
    case CloseTrade(_, _, _) => CloseAction(cfg, s, t, a);
    case _ => StoredAction(cfg, s, t, a);
  }

  lemma OpenAction(cfg: EngineConfig, s: EngineState, t: EngineState, a: Action)
    requires a.Open? && s.equity == t.equity && SameCores(s.open, t.open) && s.trades == t.trades
    ensures Step(cfg, s, a).trades == Step(cfg, t, a).trades
    ensures Events(cfg, s, a) == Events(cfg, t, a)
  {
    hide CreateExecutionPlan, OpenStep, Accepts, OpenedCore;
    OpenRespects(cfg, s, t, a.id, CreateExecutionPlan(cfg, s.equity, a.request), a.timeframe, a.score, a.now);
  }

  lemma BarAction(cfg: EngineConfig, s: EngineState, t: EngineState, a: Action)
    requires a.BarUpdate? && Same(cfg, s, t)
    ensures Step(cfg, s, a).trades == Step(cfg, t, a).trades
    ensures Events(cfg, s, a) == Events(cfg, t, a)
  {
    hide Same, BarStep, BarExits, ExitEvents;
    BarRespects(cfg, s, t, a.symbol, a.bar);
  }

  lemma CloseAction(cfg: EngineConfig, s: EngineState, t: EngineState, a: Action)
    requires a.CloseTrade? && SameCores(s.open, t.open) && s.trades == t.trades
    ensures Step(cfg, s, a).trades == Step(cfg, t, a).trades
    ensures Events(cfg, s, a) == Events(cfg, t, a)
  {
    hide CloseStep, ClosedCore;
    CloseRespects(cfg, s, t, a.id, a.reason, a.time);
  }

  lemma StoredAction(cfg: EngineConfig, s: EngineState, t: EngineState, a: Action)
    requires (a.Reset? || a.Reload?) && s.trades == t.trades
    ensures Step(cfg, s, a).trades == Step(cfg, t, a).trades
    ensures Events(cfg, s, a) == Events(cfg, t, a)
  {
  }

  lemma StepRespects(cfg: EngineConfig, s: EngineState, t: EngineState, a: Action)
    requires Same(cfg, s, t)
    requires a.Open? ==> a.id !in s.trades
    ensures Same(cfg, Step(cfg, s, a), Step(cfg, t, a))
    ensures Events(cfg, s, a) == Events(cfg, t, a)
  {
    hide Consistent, Step, Events;
    StepKeeps(cfg, s, a);
    StepKeeps(cfg, t, a);
    ActionRespects(cfg, s, t, a);
  }

  /** A reload changes nothing that `SameShows` lists. */
  lemma ReloadIsSame(cfg: EngineConfig, s: EngineState)
    requires Consistent(cfg, s)
    ensures Same(cfg, s, Load(cfg, s.trades))
  {
    LoadKeeps(cfg, s);
  }

  /** For every run with reloads at any points, the events (openings and exits with their quantities, prices,
      results and fees) and the final account equal those of the run without the reloads. */
  lemma {:induction false} RestartIsInvisible(cfg: EngineConfig, s: EngineState, t: EngineState, used: set<TradeId>,
                                              actions: seq<Action>)
    requires Same(cfg, s, t)
    requires s.trades.Keys <= used && FreshIds(used, actions)
    ensures Run(cfg, s, actions).1 == Run(cfg, t, WithoutReloads(actions)).1
    ensures Same(cfg, Run(cfg, s, actions).0, Run(cfg, t, WithoutReloads(actions)).0)
    decreases |actions|
  {
    hide Same, Consistent, Step, Events;
    if actions != [] {
      var a, rest := actions[0], actions[1..];
      if a.Reload? {
        SkipReload(cfg, s, t);
        RestartIsInvisible(cfg, Load(cfg, s.trades), t, used, rest);
        assert Step(cfg, s, a) == Load(cfg, s.trades) && Events(cfg, s, a) == [] by { StepOfReload(cfg, s); }
        assert WithoutReloads(actions) == WithoutReloads(rest);
        assert Run(cfg, s, actions).1 == [] + Run(cfg, Load(cfg, s.trades), rest).1;
      } else {
        assert WithoutReloads(actions) == [a] + WithoutReloads(rest);
        assert WithoutReloads(actions)[1..] == WithoutReloads(rest);
        assert Consistent(cfg, s) && s.trades == t.trades by { SameMeans(cfg, s, t); }
        StepRespects(cfg, s, t, a);
        StepKeeps(cfg, s, a);
        RestartIsInvisible(cfg, Step(cfg, s, a), Step(cfg, t, a), if a.Open? then used + {a.id} else used, rest);
      }
    }
  }

  lemma SameMeans(cfg: EngineConfig, s: EngineState, t: EngineState)
    requires Same(cfg, s, t)
    ensures Consistent(cfg, s) && s.trades == t.trades
  {
  }

  lemma StepOfReload(cfg: EngineConfig, s: EngineState)
    ensures Step(cfg, s, Reload) == Load(cfg, s.trades) && Events(cfg, s, Reload) == []
  {
  }

  lemma SkipReload(cfg: EngineConfig, s: EngineState, t: EngineState)
    requires Same(cfg, s, t)
    ensures Same(cfg, Load(cfg, s.trades), t)
    ensures Load(cfg, s.trades).trades == s.trades
  {
    ReloadIsSame(cfg, s);
  }

  /** The ledger law and the live-position invariant hold after every run from an empty account. */
  lemma {:induction false} RunKeeps(cfg: EngineConfig, s: EngineState, used: set<TradeId>, actions: seq<Action>)
    requires Consistent(cfg, s) && s.trades.Keys <= used && FreshIds(used, actions)
    ensures Consistent(cfg, Run(cfg, s, actions).0)
    decreases |actions|
  {
    hide Consistent, Step;
    if actions != [] {
      var a := actions[0];
      StepKeeps(cfg, s, a);
      RunKeeps(cfg, Step(cfg, s, a), if a.Open? then used + {a.id} else used, actions[1..]);
    }
  }

  /** The quantity a closed position shows after a reload is its initial quantity, so it survives the reload
      exactly when the first target was never banked. */
  lemma ClosedQtySurvives(cfg: EngineConfig, c: PositionCore, price: real, time: int, reason: ExitReason)
    requires LiveCore(c)
    ensures var closed := ClosedCore(cfg, c, price, time, reason);
            LoadClosed(RowOf(cfg, closed)).qty == closed.qty <==> !c.tp1Hit
  {
    hide EntryFee, FinalPrice, ExitFee, CloseNet;
    ReloadedQty(ClosedCore(cfg, c, price, time, reason));
  }
}
