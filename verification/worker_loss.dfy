/** A run of the worker from a new database (aura/runner/worker.py) that reaches the failing attempt of
    `WorkerBarsSafety.LostStopOut`: it opens a long position and loses the decision log on the bar of its stop. */
module WorkerLoss {
  import opened Wrappers
  import opened Risk
  import opened Positions
  import opened PaperLedger
  import opened WorkerBars
  import opened WorkerBarsSafety

  const CFG := EngineConfig(1000.0, 0.0, 0.0, 0.0, 3, 100, 1.0, true)

  const SETUP := Setup(map[MASTER := CFG], [MASTER], {MASTER})

  const REQUEST := PlanRequest(
    "BTCUSDT", Long, 100.0, 90.0, 110.0, 120.0,
    ContractSpec(QtySpec(Some(1.0), Some(0.0), Some(0.0)), Some(1.0)), 10, Some(10.0))

  /** The bar of the entry. */
  const ENTRY := Job("BTCUSDT", Positions.Bar(101.0, 99.0, 100.0, 1), true, 1,
                     map[MASTER := Opening("t", REQUEST, Hours(1), 60.0, true)])

  /** The bar of the stop; entries are not allowed any more. */
  const STOP := Job("BTCUSDT", Positions.Bar(95.0, 80.0, 85.0, 2), false, 1, map[])

  lemma WholePrice(n: nat, mode: Rounding)
    ensures RoundPriceToTick(n as real, 1.0, mode) == n as real
  {
    assert n as real / 1.0 == n as real;
    assert (n as real).Floor == n && (n as real + 0.5).Floor == n;
  }

  lemma OneContract()
    ensures SizeSteps(10.0, 100.0, 10.0, REQUEST.spec.qty) == 1
  {
    assert 10.0 / 10.0 / 1.0 == 1.0 && BudgetSteps(10.0, 10.0, 1.0) == 1;
    assert 0.0 / 1.0 == 0.0 && LeastSteps(0.0, 1.0) == 1;
  }

  lemma FillsAtReference()
    ensures FillPrice(CFG, Long, 100.0, 1.0) == 100.0
  {
    WholePrice(100, HalfUp);
    hide RoundPriceToTick;
    assert 100.0 * (1.0 + 0.0 / 10000.0 * 1.0) == 100.0;
  }

  lemma SizedOne()
    ensures var size := SizePosition(10.0, 100.0, 10.0, 10, REQUEST.spec.qty); size.qty == 1.0 && size.contracts == 1
  {
    OneContract();
    hide SizeSteps, Quantize8;
  }

  lemma PlanAccepted(equity: real)
    ensures var p := CreateExecutionPlan(CFG, equity, REQUEST);
            p.Plan? && p.sl == 90.0 && p.symbol == "BTCUSDT" && p.dir.Long?
  {
    hide SizePosition, RoundPriceToTick, FillPrice;
    WholePrice(90, Rounding.Down);
    WholePrice(110, Up);
    WholePrice(120, Up);
    FillsAtReference();
    SizedOne();
  }

  lemma IsCovered()
    ensures Covered(SETUP)
  {
  }

  /** An account that holds nothing. */
  predicate Empty(s: EngineState) {
    s.open == map[] && s.trades == map[]
  }

  /** An account that holds the long position. */
  predicate HoldsLong(s: EngineState) {
    && s.open.Keys == {"t"} && s.open["t"].core.symbol == "BTCUSDT" && s.open["t"].core.dir.Long?
    && s.open["t"].core.sl == 90.0
  }

  lemma LoadsEmpty()
    ensures Empty(Load(CFG, map[]))
  {
    hide LoadedEquity;
  }

  lemma NothingToUpdate(s: EngineState)
    requires Empty(s)
    ensures Updated(CFG, s, ENTRY) == s && ExitAlerts(CFG, s, ENTRY) == []
  {
  }

  lemma EntersLong(s: EngineState)
    requires Empty(s)
    ensures HoldsLong(Entered(CFG, s, MASTER, ENTRY))
  {
    PlanAccepted(s.equity);
    hide CreateExecutionPlan, RowOf, Upsert;
  }

  lemma StopExits(s: EngineState)
    requires HoldsLong(s)
    ensures BarExits(CFG, s, STOP.symbol, STOP.bar) != []
  {
    HolderHasSymbol(s.open, "BTCUSDT");
    assert s.open["t"].core.symbol == "BTCUSDT";
    assert BarDecision(CFG, s.open["t"].core, STOP.bar).Exit?;
    hide AfterBar, BarDecision;
  }

  // ---------- the run ----------

  const OPENING := [Restart, Begin(ENTRY)] + Advances(4) + [Log(Logged), Commit, Send(true), Send(true)]

  /** A process over empty tables. */
  ghost predicate Started(w: World, phase: Phase, pending: seq<Alert>) {
    && w.phase == phase && w.pending == pending && w.db.tables == map[MASTER := map[]] && w.db.bars == map[]
    && w.engines.Keys == {MASTER} && Empty(w.engines[MASTER])
  }

  lemma RestartStep()
    ensures var w := Next(SETUP, Fresh(SETUP), Restart); Started(w, Ready, []) && w.bars == map[]
  {
    LoadsEmpty();
    hide Load;
  }

  lemma BeginStep(w: World)
    requires Started(w, Ready, []) && w.bars == map[]
    ensures var w' := Next(SETUP, w, Begin(ENTRY));
            Started(w', Updating(ENTRY, [MASTER], w.engines), []) && w'.bars == map[ENTRY.Key() := Processing]
  {
  }

  lemma UpdateTurn(w: World)
    requires Started(w, Updating(ENTRY, [MASTER], w.engines), [])
    ensures Started(Advanced(SETUP, w), Updating(ENTRY, [], w.engines), []) && Advanced(SETUP, w).bars == w.bars
  {
    NothingToUpdate(w.engines[MASTER]);
    hide Updated, ExitAlerts;
  }

  lemma GateOpens(w: World, snapshot: Engines)
    requires Started(w, Updating(ENTRY, [], snapshot), [])
    ensures Started(Advanced(SETUP, w), Entering(ENTRY, [MASTER], true, [], snapshot), [])
    ensures Advanced(SETUP, w).bars == w.bars
  {
  }

  lemma EntryTurn(w: World, snapshot: Engines)
    requires Started(w, Entering(ENTRY, [MASTER], true, [], snapshot), [])
    ensures var w' := Advanced(SETUP, w);
            && w'.phase.Entering? && w'.phase.job == ENTRY && w'.phase.todo == [] && w'.phase.gate
            && |w'.phase.entered| <= 1
            && w'.engines.Keys == {MASTER} && HoldsLong(w'.engines[MASTER]) && w'.bars == w.bars && w'.pending == []
  {
    EntersLong(w.engines[MASTER]);
    hide Entered;
  }

  lemma LogAndCommit(w: World)
    requires w.phase.Entering? && w.phase.job == ENTRY && w.phase.todo == [] && |w.phase.entered| <= 1
    requires w.pending == [] && w.bars == map[ENTRY.Key() := Processing]
    ensures var sending := Next(SETUP, Next(SETUP, Advanced(SETUP, w), Log(Logged)), Commit);
            && sending.phase.Sending? && |sending.pending| <= 1 && sending.engines == w.engines
            && sending.bars == map[ENTRY.Key() := Completed]
  {
    hide Tables, RowsBack, Updated, Entered, Gate;
  }

  lemma SendBoth(w: World)
    requires w.phase.Sending? && |w.pending| <= 1
    ensures var ready := Next(SETUP, Next(SETUP, w, Send(true)), Send(true));
            && (|w.pending| == 1 ==> ready.phase.Ready?) && ready.engines == w.engines && ready.bars == w.bars
            && (w.pending == [] ==> ready.phase.Ready?)
  {
    hide Advanced, RolledBack, Reloaded, AllCommanded, Left, LogDone;
  }

  /** After the entry: logged, committed, announced. */
  lemma Announced(w: World)
    requires w.phase.Entering? && w.phase.job == ENTRY && w.phase.todo == [] && |w.phase.entered| <= 1
    requires w.pending == [] && w.bars == map[ENTRY.Key() := Processing]
    ensures var sending := Next(SETUP, Next(SETUP, Advanced(SETUP, w), Log(Logged)), Commit);
            var ready := Next(SETUP, Next(SETUP, sending, Send(true)), Send(true));
            && ready.phase.Ready? && ready.engines == w.engines && ready.bars == map[ENTRY.Key() := Completed]
  {
    hide Next, Advanced;
    LogAndCommit(w);
    SendBoth(Next(SETUP, Next(SETUP, Advanced(SETUP, w), Log(Logged)), Commit));
  }

  /** The run up to the next bar: the master holds a long position, and nothing is in flight. */
  lemma LongIsOpen()
    ensures var w := Run(SETUP, Fresh(SETUP), OPENING);
            && w.phase.Ready? && w.engines.Keys == {MASTER} && HoldsLong(w.engines[MASTER])
            && w.bars == map[ENTRY.Key() := Completed]
  {
    hide Run, Next, Advanced, Started, HoldsLong, Fresh;
    var first := Fresh(SETUP);
    RestartStep();
    var restarted := Next(SETUP, first, Restart);
    BeginStep(restarted);
    var begun := Next(SETUP, restarted, Begin(ENTRY));
    StartedEngines(restarted, begun);
    UpdateTurn(begun);
    GateOpens(Advanced(SETUP, begun), begun.engines);
    EntryTurn(Advanced(SETUP, Advanced(SETUP, begun)), begun.engines);
    Announced(Advanced(SETUP, Advanced(SETUP, Advanced(SETUP, begun))));
    OpeningRuns(first);
  }

  lemma StartedEngines(w: World, w': World)
    requires Started(w, Ready, []) && w' == Next(SETUP, w, Begin(ENTRY)) && w.bars == map[]
    ensures w'.engines == w.engines
  {
  }

  lemma OpeningRuns(w: World)
    ensures var begun := Next(SETUP, Next(SETUP, w, Restart), Begin(ENTRY));
            var logging := Advanced(SETUP, Advanced(SETUP, Advanced(SETUP, Advanced(SETUP, begun))));
            var sending := Next(SETUP, Next(SETUP, logging, Log(Logged)), Commit);
            Run(SETUP, w, OPENING) == Next(SETUP, Next(SETUP, sending, Send(true)), Send(true))
  {
    hide Next, Advanced, Run, Advances;
    var start := [Restart, Begin(ENTRY)];
    var begun := Run(SETUP, w, start);
    TwoSteps(w, Restart, Begin(ENTRY));
    NoAdvance(SETUP, begun);
    OneMoreAdvance(SETUP, begun, 0);
    OneMoreAdvance(SETUP, begun, 1);
    OneMoreAdvance(SETUP, begun, 2);
    OneMoreAdvance(SETUP, begun, 3);
    RunJoin(SETUP, w, start, Advances(4));
    var applied := start + Advances(4);
    var tail := [Log(Logged), Commit] + [Send(true), Send(true)];
    RunJoin(SETUP, w, applied, tail);
    RunJoin(SETUP, Run(SETUP, w, applied), [Log(Logged), Commit], [Send(true), Send(true)]);
    TwoSteps(Run(SETUP, w, applied), Log(Logged), Commit);
    TwoSteps(Run(SETUP, Run(SETUP, w, applied), [Log(Logged), Commit]), Send(true), Send(true));
    assert OPENING == applied + tail;
  }

  lemma TwoSteps(w: World, s: Step, t: Step)
    ensures Run(SETUP, w, [s, t]) == Next(SETUP, Next(SETUP, w, s), t)
  {
    hide Next;
    assert [] + [s] == [s] && [s] + [t] == [s, t] && Run(SETUP, w, []) == w;
    RunOne(SETUP, w, [], s);
    RunOne(SETUP, w, [s], t);
  }

  lemma OpeningIsSound()
    ensures var w := Run(SETUP, Fresh(SETUP), OPENING); Covered(SETUP) && Inv(SETUP, w) && Bookkeeping(w)
  {
    hide Run, Fresh, Inv, Bookkeeping, Covered, LossesAreHarmless;
    IsCovered();
    NoLossYet();
    NothingLost(SETUP, OPENING);
    RunKeeps(SETUP, OPENING);
    RunBooks(SETUP, OPENING);
  }

  /** From a new database there is a run whose last attempt raises nothing, completes nothing, sends an alert, and
      leaves the master's memory against its rows. */
  lemma LossHappens()
    ensures exists steps ::
              var w := Run(SETUP, Fresh(SETUP), steps);
              && w.phase.Sending? && w.pending != [] && STOP.Key() !in w.db.bars
              && !AtRest(SETUP, w.db, w.engines, MASTER)
  {
    hide Run, Fresh, HoldsLong, AtRest, Advances, Covered, Inv, Bookkeeping, BarExits, OPENING;
    var w := Run(SETUP, Fresh(SETUP), OPENING);
    OpeningIsSound();
    LongIsOpen();
    StopExits(w.engines[MASTER]);
    var last := [Begin(STOP)] + Advances(|SETUP.accounts| + 2) + [Log(TransactionLost)] + [Commit];
    LostStopOut(SETUP, w, STOP);
    RunJoin(SETUP, Fresh(SETUP), OPENING, last);
    assert Run(SETUP, Fresh(SETUP), OPENING + last) == Run(SETUP, w, last);
  }

  lemma NoLossYet()
    ensures forall n :: 0 <= n < |OPENING| ==> OPENING[n] != Log(TransactionLost)
  {
    assert Advances(4) == [Advance, Advance, Advance, Advance] by {
      assert Advances(1) == [Advance] && Advances(2) == [Advance, Advance];
      assert Advances(3) == [Advance, Advance, Advance];
    }
  }
}
