/** Processing one closed bar on engines that are updated in place (aura/runner/worker.py), proved step by step against
    the `WorkerBars` machine with the source's own snapshot: the master account and no other. */
module WorkerProcess {
  import opened Wrappers
  import opened Positions
  import opened PaperLedger
  import opened PaperEngine
  import opened WorkerBars
  import opened WorkerBarsSafety

  /** How an attempt ends: it returns, after the given outcome of its decision log, or an exception is raised: after
      that many accounts were updated (none is also an exception in the claim), after that many looked at an entry,
      after the log, in the completion or in a COMMIT that rolls back, or in a COMMIT that fails without rolling back.
      `inTurn` says that it is raised inside the turn of the next account, when its row is to be written. */
  datatype Fate =
    | Completes(outcome: LogOutcome)
    | RaisesInUpdates(n: nat, inTurn: bool)
    | RaisesInEntries(n: nat, inTurn: bool)
    | RaisesAfterLog(outcome: LogOutcome)
    | CommitFails(outcome: LogOutcome)
  {
    predicate Applies() {
      Completes? || RaisesAfterLog? || CommitFails?
    }

    /** A lost transaction leaves nothing to commit. */
    predicate Stalls() {
      CommitFails? && !outcome.TransactionLost?
    }

    predicate Raises() {
      !Completes? && (CommitFails? ==> Stalls())
    }
  }

  /** The states of the engines, by account. */
  ghost function Named(accounts: seq<Account>, states: seq<EngineState>): Engines
    requires |states| == |accounts| && Distinct(accounts)
  {
    map i | 0 <= i < |accounts| :: accounts[i] := states[i]
  }

  lemma NamedAt(accounts: seq<Account>, states: seq<EngineState>, i: nat)
    requires |states| == |accounts| && Distinct(accounts) && i < |accounts|
    ensures accounts[i] in Named(accounts, states) && Named(accounts, states)[accounts[i]] == states[i]
    ensures Named(accounts, states).Keys == set a | a in accounts
  {
  }

  lemma NamedKeys(accounts: seq<Account>, states: seq<EngineState>)
    requires |states| == |accounts| && Distinct(accounts)
    ensures Named(accounts, states).Keys == set a | a in accounts
  {
  }

  lemma NamedUpdate(accounts: seq<Account>, states: seq<EngineState>, i: nat, s: EngineState)
    requires |states| == |accounts| && Distinct(accounts) && i < |accounts|
    ensures Named(accounts, states[i := s]) == Named(accounts, states)[accounts[i] := s]
  {
    var a, b := Named(accounts, states[i := s]), Named(accounts, states)[accounts[i] := s];
    assert a.Keys == b.Keys by {
      NamedAt(accounts, states, i);
      NamedAt(accounts, states[i := s], i);
    }
    forall k | k in a
      ensures a[k] == b[k]
    {
      var j :| 0 <= j < |accounts| && accounts[j] == k;
      NamedAt(accounts, states, j);
      NamedAt(accounts, states[i := s], j);
    }
  }

  class BarProcessor {
    const accounts: seq<Account>
    const engines: seq<PaperTradingEngine>
    var bars: map<BarKey, Decision>
    var sent: seq<Alert>
    ghost var history: seq<Deed>

    ghost predicate Valid()
      reads this, engines
    {
      && |engines| == |accounts| > 0 && Distinct(accounts) && accounts[0] == MASTER
      && (forall i, j :: 0 <= i < j < |engines| ==> engines[i] != engines[j])
      && forall i :: 0 <= i < |engines| ==> OnePerSymbol(engines[i].openPositions)
    }

    constructor (accounts: seq<Account>, engines: seq<PaperTradingEngine>, bars: map<BarKey, Decision>,
                 ghost history: seq<Deed>)
      requires |engines| == |accounts| > 0 && Distinct(accounts) && accounts[0] == MASTER
      requires forall i, j :: 0 <= i < j < |engines| ==> engines[i] != engines[j]
      requires forall i :: 0 <= i < |engines| ==> engines[i].Valid()
      ensures Valid() && this.accounts == accounts && this.engines == engines && this.bars == bars && sent == []
      ensures this.history == history
    {
      this.accounts, this.engines, this.bars, this.sent := accounts, engines, bars, [];
      this.history := history;
      new;
      forall i | 0 <= i < |engines|
        ensures OnePerSymbol(engines[i].openPositions)
      {
        ConsistentIsLive(engines[i].config, engines[i].State());
      }
    }

    ghost function States(): seq<EngineState>
      reads this, engines
    {
      seq(|engines|, i requires 0 <= i < |engines| reads this, engines => engines[i].State())
    }

    /** The engines' configurations, and the master as the only snapshotted account. */
    ghost function TheSetup(): Setup
      requires |engines| == |accounts| && Distinct(accounts)
      reads this
    {
      Setup(map i | 0 <= i < |accounts| :: accounts[i] := engines[i].config, accounts, {MASTER})
    }

    ghost function At(db: Db, phase: Phase, pending: seq<Alert>): World
      requires Valid()
      reads this, engines
    {
      World(db, Named(accounts, States()), bars, phase, pending, sent)
    }

    ghost function Stored(): Db
      requires Valid()
      reads this, engines
    {
      Db(Tables(Named(accounts, States())), bars, history)
    }

    lemma ConfigAt(i: nat)
      requires Valid() && i < |accounts|
      ensures accounts[i] in TheSetup().cfgs && TheSetup().cfgs[accounts[i]] == engines[i].config
    {
    }

    /** The master is snapshotted, so what `WorkerBars` proves of snapshotted accounts holds for it. */
    lemma MasterIsCovered()
      requires Valid()
      ensures Covered(TheSetup())
    {
      var z := TheSetup();
      forall a
        ensures a in z.accounts <==> a in z.cfgs
      {
        if a in z.accounts {
          var i :| 0 <= i < |accounts| && accounts[i] == a;
          ConfigAt(i);
        }
      }
      ConfigAt(0);
    }

    /** The bar on the first accounts, one engine after the other. */
    method UpdateAccounts(job: Job, count: nat, ghost db: Db, ghost snapshot: Engines) returns (alerts: seq<Alert>)
      requires Valid() && count <= |accounts|
      modifies engines
      ensures Valid()
      ensures At(db, Updating(job, accounts[count..], snapshot), alerts)
              == Run(TheSetup(), old(At(db, Updating(job, accounts, snapshot), [])), Advances(count))
    {
      hide Run, Advanced, Named, OnePerSymbol, Distinct, Advances;
      alerts := [];
      ghost var start := At(db, Updating(job, accounts, snapshot), []);
      assert accounts[0..] == accounts;
      NoAdvance(TheSetup(), start);
      for i := 0 to count
        invariant Valid() && bars == old(bars) && sent == old(sent)
        invariant At(db, Updating(job, accounts[i..], snapshot), alerts) == Run(TheSetup(), start, Advances(i))
      {
        alerts := UpdateNext(job, i, db, snapshot, alerts);
        OneMoreAdvance(TheSetup(), start, i);
      }
    }

    method UpdateNext(job: Job, i: nat, ghost db: Db, ghost snapshot: Engines, alerts: seq<Alert>)
      returns (more: seq<Alert>)
      requires Valid() && i < |accounts|
      modifies engines
      ensures Valid()
      ensures At(db, Updating(job, accounts[i + 1..], snapshot), more)
              == Advanced(TheSetup(), old(At(db, Updating(job, accounts[i..], snapshot), alerts)))
    {
      hide Advanced, Named, OnePerSymbol, Updated, ExitAlerts;
      ghost var was, before := At(db, Updating(job, accounts[i..], snapshot), alerts), States();
      var exits := UpdateAccount(job, i, false);
      ConfigAt(i);
      UpdateStep(TheSetup(), was, accounts, before, i, States()[i], exits);
      more := alerts + exits;
    }

    method UpdateAccount(job: Job, i: nat, fails: bool) returns (alerts: seq<Alert>)
      requires Valid() && i < |accounts|
      modifies engines[i]
      ensures Valid()
      ensures var s := old(States())[i];
              States() == old(States())[i := if fails then TornUpdate(engines[i].config, s, job)
                                             else Updated(engines[i].config, s, job)]
      ensures !fails ==> alerts == ExitAlerts(engines[i].config, old(States())[i], job)
    {
      hide BarStep, BarExits, TornBar, HolderOf, OnePerSymbol, Distinct;
      var e := engines[i];
      BarKeepsSymbols(e.config, e.State(), job.symbol, job.bar);
      NothingToTear(e.config, e.State(), job.symbol, job.bar);
      var exits, raised := e.OnBarUpdate(job.symbol, job.bar, fails);
      alerts := seq(|exits|, k requires 0 <= k < |exits| => Alert(job.Key(), exits[k].core));
    }

    method EnterAccount(job: Job, i: nat, fails: bool) returns (alerts: seq<Alert>)
      requires Valid() && i < |accounts|
      modifies engines[i]
      ensures Valid()
      ensures var s := old(States())[i];
              States() == old(States())[i := if fails then TornEntry(engines[i].config, s, accounts[i], job)
                                             else Entered(engines[i].config, s, accounts[i], job)]
      ensures !fails ==> alerts == EntryAlerts(engines[i].config, old(States())[i], accounts[i], job)
    {
      hide CreateExecutionPlan, PaperLedger.Accepts, RowOf, Upsert, OpenedCore;
      var e := engines[i];
      alerts := [];
      var o := OpeningOf(accounts[i], job);
      if o.None? || |e.openPositions| >= job.maxOpen || o.value.id in e.trades {
        assert Entered(e.config, e.State(), accounts[i], job) == e.State();
        return;
      }
      var plan := CreateExecutionPlan(e.config, e.equity, o.value.request);
      OpenKeepsSymbols(e.config, e.State(), o.value.id, plan, o.value.timeframe, o.value.score, job.bar.time);
      hide OnePerSymbol;
      var known := o.value.id in e.openPositions;
      var booked, raised := e.ExecutePlan(plan, o.value.id, o.value.timeframe, o.value.score, job.bar.time, fails);
      if !known && o.value.id in e.openPositions {
        alerts := [Alert(job.Key(), e.openPositions[o.value.id].core)];
      }
    }

    method EnterNext(job: Job, i: nat, ghost db: Db, ghost snapshot: Engines, ghost alerts: seq<Alert>,
                     entered: seq<Alert>)
      returns (last: seq<Alert>)
      requires Valid() && i < |accounts|
      modifies engines
      ensures Valid()
      ensures At(db, Entering(job, accounts[i + 1..], true, last, snapshot), alerts)
              == Advanced(TheSetup(), old(At(db, Entering(job, accounts[i..], true, entered, snapshot), alerts)))
    {
      hide Advanced, Named, OnePerSymbol, Entered, EntryAlerts;
      ghost var was, before := At(db, Entering(job, accounts[i..], true, entered, snapshot), alerts), States();
      var entries := EnterAccount(job, i, false);
      ConfigAt(i);
      EnterStep(TheSetup(), was, accounts, before, i, States()[i], entries);
      last := LastEntered(entered, entries);
    }

    /** Entries on the first accounts, one engine after the other; the alert is that of the last one that entered. */
    method EnterAccounts(job: Job, count: nat, ghost db: Db, ghost snapshot: Engines, ghost alerts: seq<Alert>)
      returns (entered: seq<Alert>)
      requires Valid() && count <= |accounts|
      modifies engines
      ensures Valid()
      ensures At(db, Entering(job, accounts[count..], true, entered, snapshot), alerts)
              == Run(TheSetup(), old(At(db, Entering(job, accounts, true, [], snapshot), alerts)), Advances(count))
    {
      hide Run, Advanced, Named, OnePerSymbol, Distinct, Advances;
      entered := [];
      ghost var start := At(db, Entering(job, accounts, true, [], snapshot), alerts);
      assert accounts[0..] == accounts;
      NoAdvance(TheSetup(), start);
      for i := 0 to count
        invariant Valid() && bars == old(bars) && sent == old(sent)
        invariant At(db, Entering(job, accounts[i..], true, entered, snapshot), alerts) ==
                  Run(TheSetup(), start, Advances(i))
      {
        entered := EnterNext(job, i, db, snapshot, alerts, entered);
        OneMoreAdvance(TheSetup(), start, i);
      }
    }

    method GateOpen(job: Job) returns (open: bool)
      requires Valid()
      ensures open <==> Gate(engines[0].State(), job)
    {
      if !job.canOpen || |engines[0].openPositions| >= job.maxOpen {
        return false;
      }
      var ids := engines[0].openPositions.Keys;
      while ids != {}
        invariant ids <= engines[0].openPositions.Keys
        invariant forall k :: k in engines[0].openPositions && k !in ids ==>
                  engines[0].openPositions[k].core.symbol != job.symbol
        decreases |ids|
      {
        var k :| k in ids;
        if engines[0].openPositions[k].core.symbol == job.symbol {
          return false;
        }
        ids := ids - {k};
      }
      open := true;
    }

    /** The database rolls every table back. */
    method RowsRollBack(saved: seq<TradeTable>, savedBars: map<BarKey, Decision>)
      requires Valid() && |saved| == |accounts|
      modifies this`bars, engines
      ensures Valid() && bars == savedBars
      ensures forall i :: 0 <= i < |accounts| ==> States()[i] == old(States())[i].(trades := saved[i])
    {
      hide OnePerSymbol;
      for i := 0 to |accounts|
        invariant Valid() && bars == old(bars)
        invariant forall k :: 0 <= k < |accounts| ==>
                    engines[k].State() == if k < i then old(engines[k].State()).(trades := saved[k])
                      else old(engines[k].State())
      {
        engines[i].trades := saved[i];
      }
      bars := savedBars;
    }

    /** The rows go back for every account; the worker puts back the memory of the master account only. */
    method RollBack(saved: Saved)
      requires Valid() && |saved.tables| == |accounts| && OnePerSymbol(saved.open)
      modifies this`bars, engines
      ensures Valid() && bars == saved.bars
      ensures forall i :: 0 <= i < |accounts| ==>
                States()[i] == if i == 0 then EngineState(saved.equity, saved.open, saved.closed, saved.tables[0])
                               else old(States())[i].(trades := saved.tables[i])
    {
      hide OnePerSymbol;
      RowsRollBack(saved.tables, saved.bars);
      engines[0].equity, engines[0].openPositions, engines[0].closedPositions := saved.equity, saved.open, saved.closed;
    }

    /** What the attempt can fall back on: the committed tables and bars, and the copy of the master account. */
    method TakeSnapshot() returns (saved: Saved)
      requires Valid()
      ensures Snapshots(saved, States(), bars)
    {
      var tables: seq<TradeTable> := [];
      for i := 0 to |engines|
        invariant |tables| == i && forall k :: 0 <= k < i ==> tables[k] == engines[k].trades
      {
        tables := tables + [engines[i].trades];
      }
      saved := Saved(tables, bars, engines[0].equity, engines[0].openPositions, engines[0].closedPositions);
    }

    /** The exception handler: an abort of the machine. */
    method Abort(saved: Saved, ghost states: seq<EngineState>, ghost phase: Phase, ghost alerts: seq<Alert>)
      requires Valid() && |states| == |accounts| && Snapshots(saved, states, saved.bars) && OnePerSymbol(saved.open)
      requires InBlock(phase) && phase.snapshot == Named(accounts, states)
      modifies this`bars, engines
      ensures Valid()
      ensures At(Stored(), Ready, []) ==
              Aborted(TheSetup(), old(At(Db(Tables(Named(accounts, states)), saved.bars, history), phase, alerts)))
      ensures States()[0] == states[0] && Stored() == Db(Tables(Named(accounts, states)), saved.bars, history)
    {
      hide Named, OnePerSymbol, Tables, RolledBack;
      ghost var before := States();
      ghost var was := At(Db(Tables(Named(accounts, states)), saved.bars, history), phase, alerts);
      RollBack(saved);
      AbortStep(TheSetup(), was, accounts, before, states, States());
    }

    method RunEntries(job: Job, gate: bool, count: nat, ghost db: Db, ghost snapshot: Engines, ghost alerts: seq<Alert>)
      returns (entered: seq<Alert>)
      requires Valid() && count <= |accounts|
      modifies engines
      ensures Valid()
      ensures At(db, Entering(job, if gate then accounts[count..] else [], gate, entered, snapshot), alerts)
              == Run(TheSetup(), old(At(db, Entering(job, if gate then accounts else [], gate, [], snapshot), alerts)),
                     Advances(if gate then count else 0))
    {
      hide Run, Advanced, Named, OnePerSymbol, Distinct, Advances;
      if gate {
        entered := EnterAccounts(job, count, db, snapshot, alerts);
      } else {
        entered := [];
        NoAdvance(TheSetup(), At(db, Entering(job, [], gate, [], snapshot), alerts));
      }
    }

    /** Write the decision log and mark the bar completed. When the log's insert loses the transaction the error is
        swallowed: every row is back, memory stays, and there is no row of the bar to mark. */
    method LogAndComplete(job: Job, outcome: LogOutcome, saved: Saved, ghost states: seq<EngineState>, ghost gate: bool,
                          ghost alerts: seq<Alert>)
      requires Valid() && |states| == |accounts| && Snapshots(saved, states, saved.bars)
      requires job.Key() !in saved.bars && job.Key() in bars
      modifies this`bars, engines
      ensures Valid()
      ensures var db, snapshot := Db(Tables(Named(accounts, states)), saved.bars, history), Named(accounts, states);
              At(db, if outcome.TransactionLost? then Lost(job, gate, snapshot) else Committing(job, gate, snapshot),
                 alerts)
              == Next(TheSetup(), old(At(db, Logging(job, gate, snapshot), alerts)), Log(outcome))
      ensures outcome.TransactionLost? ==>
              bars == saved.bars && Tables(Named(accounts, States())) == Tables(Named(accounts, states))
    {
      hide Named, OnePerSymbol, Tables, RowsBack, Run, Advanced;
      ghost var before := States();
      if outcome.TransactionLost? {
        RowsRollBack(saved.tables, saved.bars);
        RowsBackNamed(Db(Tables(Named(accounts, states)), saved.bars, history), accounts, before, states, States());
        SameTables(accounts, states, States());
      }
      ghost var logged := States();
      if job.Key() in bars {
        bars := bars[job.Key() := Completed];
      }
      assert States() == logged;
    }

    /** Leave the block: commit, unless the transaction is lost. */
    method LeaveBlock(job: Job, lost: bool, ghost db: Db, ghost phase: Phase, ghost alerts: seq<Alert>)
      requires Valid() && db.history == history
      requires if lost then phase.Lost? && Stored() == db && job.Key() !in bars else phase.Committing?
      requires (phase.Lost? || phase.Committing?) && phase.job == job
      modifies this`history
      ensures Valid() && history == if lost then old(history) else old(history) + [BarDone(job)]
      ensures At(Stored(), Sending, alerts) == Next(TheSetup(), old(At(db, phase, alerts)), Commit)
    {
      hide Named, OnePerSymbol, Tables;
      ghost var states := States();
      if !lost {
        history := history + [BarDone(job)];
      }
      assert States() == states;
    }

    /** Only now the alerts go out; a failing delivery is passed over. */
    method SendAlerts(alerts: seq<Alert>, delivers: nat -> bool)
      requires Valid()
      modifies this`sent
      ensures Valid() && Stored() == old(Stored())
      ensures At(Stored(), Ready, []) ==
              Run(TheSetup(), old(At(Stored(), Sending, alerts)), SendSteps(|alerts|, delivers) + [Send(true)])
    {
      hide Run, Named, OnePerSymbol, Tables, Distinct, SendSteps, Next;
      ghost var start := At(Stored(), Sending, alerts);
      ghost var booked := States();
      assert alerts[0..] == alerts;
      NoSend(TheSetup(), start, delivers);
      for i := 0 to |alerts|
        invariant Valid() && bars == old(bars) && history == old(history) && States() == booked
        invariant At(Stored(), Sending, alerts[i..]) == Run(TheSetup(), start, SendSteps(i, delivers))
      {
        ghost var w, states := At(Stored(), Sending, alerts[i..]), States();
        if delivers(i) {
          sent := sent + [alerts[i]];
        }
        assert States() == states;
        SendOne(TheSetup(), w, alerts, i, delivers);
        OneMoreSend(TheSetup(), start, i, delivers);
      }
      LastSend(TheSetup(), start, At(Stored(), Sending, []), SendSteps(|alerts|, delivers));
    }

    /** How many accounts take their turn before the exception. */
    function Turns(n: nat): (k: nat)
      ensures k <= |accounts|
    {
      if n < |accounts| then n else |accounts|
    }

    /** With every account updated: the gate, the entries behind it, and the alert of the last one. */
    method EnterBar(job: Job, fate: Fate, ghost db: Db, ghost snapshot: Engines, alerts: seq<Alert>)
      returns (open: bool, more: seq<Alert>, ghost phase: Phase, ghost n: nat)
      requires Valid() && !fate.RaisesInUpdates?
      modifies engines
      ensures Valid()
      ensures At(db, phase, more) == Run(TheSetup(), old(At(db, Updating(job, [], snapshot), alerts)), Advances(n))
      ensures if !fate.RaisesInEntries? then phase == Logging(job, open, snapshot)
              else
                && phase.Entering? && phase.job == job && phase.snapshot == snapshot
                && (open ==> phase.todo == accounts[Turns(fate.n)..])
    {
      hide Run, Advanced, Named, OnePerSymbol, Distinct, Advances;
      ghost var start := At(db, Updating(job, [], snapshot), alerts);
      NoAdvance(TheSetup(), start);
      open := GateOpen(job);
      GateStep(TheSetup(), start, accounts, States());
      OneMoreAdvance(TheSetup(), start, 0);
      var count := if fate.RaisesInEntries? then Turns(fate.n) else |accounts|;
      var entered := RunEntries(job, open, count, db, snapshot, alerts);
      assert accounts[|accounts|..] == [];
      phase := Entering(job, if open then accounts[count..] else [], open, entered, snapshot);
      n := if open then count else 0;
      AdvancesJoin(TheSetup(), start, 1, n);
      more, n := alerts, n + 1;
      if !fate.RaisesInEntries? {
        EnteredStep(TheSetup(), At(db, phase, alerts), entered);
        OneMoreAdvance(TheSetup(), start, n);
        more, phase, n := alerts + entered, Logging(job, open, snapshot), n + 1;
      }
    }

    /** The next account's update raises when its row is to be written. */
    method TearUpdate(job: Job, i: nat, ghost db: Db, ghost phase: Phase, ghost alerts: seq<Alert>)
      requires Valid() && i < |accounts| && phase.Updating? && phase.job == job && phase.todo == accounts[i..]
      modifies engines
      ensures Valid()
      ensures InTurn(old(At(db, phase, alerts)))
      ensures At(db, phase, alerts) == Torn(TheSetup(), old(At(db, phase, alerts)))
    {
      hide Named, OnePerSymbol, TornUpdate, Updated, Distinct;
      ghost var was, before := At(db, phase, alerts), States();
      var _ := UpdateAccount(job, i, true);
      ConfigAt(i);
      TornStep(TheSetup(), was, accounts, before, i, States()[i]);
    }

    /** The next account's entry raises when its row is to be written. */
    method TearEntry(job: Job, i: nat, ghost db: Db, ghost phase: Phase, ghost alerts: seq<Alert>)
      requires Valid() && i < |accounts| && phase.Entering? && phase.job == job && phase.todo == accounts[i..]
      modifies engines
      ensures Valid()
      ensures InTurn(old(At(db, phase, alerts)))
      ensures At(db, phase, alerts) == Torn(TheSetup(), old(At(db, phase, alerts)))
    {
      hide Named, OnePerSymbol, TornEntry, Entered, Distinct;
      ghost var was, before := At(db, phase, alerts), States();
      var _ := EnterAccount(job, i, true);
      ConfigAt(i);
      TornStep(TheSetup(), was, accounts, before, i, States()[i]);
    }

    /** All accounts on the bar, then the entries if the gate is open; an exception between two turns stops it. */
    method ApplyTurns(job: Job, fate: Fate, ghost db: Db, ghost snapshot: Engines)
      returns (open: bool, alerts: seq<Alert>, ghost phase: Phase, ghost n: nat)
      requires Valid()
      modifies engines
      ensures Valid()
      ensures At(db, phase, alerts) == Run(TheSetup(), old(At(db, Updating(job, accounts, snapshot), [])), Advances(n))
      ensures match fate
              case RaisesInUpdates(k, _) => phase == Updating(job, accounts[Turns(k)..], snapshot)
              case RaisesInEntries(k, _) =>
                && phase.Entering? && phase.job == job && phase.snapshot == snapshot
                && (open ==> phase.todo == accounts[Turns(k)..])
              case _ => phase == Logging(job, open, snapshot)
    {
      hide Run, Advanced, Named, OnePerSymbol, Distinct, Advances;
      ghost var start := At(db, Updating(job, accounts, snapshot), []);
      var count := if fate.RaisesInUpdates? then Turns(fate.n) else |accounts|;
      alerts := UpdateAccounts(job, count, db, snapshot);
      open, phase, n := false, Updating(job, accounts[count..], snapshot), count;
      if !fate.RaisesInUpdates? {
        assert accounts[|accounts|..] == [];
        ghost var m;
        open, alerts, phase, m := EnterBar(job, fate, db, snapshot, alerts);
        AdvancesJoin(TheSetup(), start, count, m);
        n := count + m;
      }
    }

    /** All accounts on the bar, then the entries; false if an exception, between two turns or inside one, stops it. */
    method ApplyBar(job: Job, fate: Fate, ghost db: Db, ghost snapshot: Engines)
      returns (applied: bool, alerts: seq<Alert>, ghost gate: bool, ghost phase: Phase, ghost n: nat, ghost torn: bool)
      requires Valid()
      modifies engines
      ensures Valid()
      ensures Reaches(TheSetup(), old(At(db, Updating(job, accounts, snapshot), [])), n, torn, At(db, phase, alerts))
      ensures applied <==> fate.Applies()
      ensures if applied then phase == Logging(job, gate, snapshot) && !torn
              else (phase.Updating? || phase.Entering?) && phase.snapshot == snapshot
    {
      hide Run, Advanced, Named, OnePerSymbol, Distinct, Advances, Torn;
      var open;
      open, alerts, phase, n := ApplyTurns(job, fate, db, snapshot);
      applied, gate, torn := fate.Applies(), open, false;
      if fate.RaisesInUpdates? && fate.inTurn && fate.n < |accounts| {
        TearUpdate(job, fate.n, db, phase, alerts);
        torn := true;
      } else if fate.RaisesInEntries? && fate.inTurn && fate.n < |accounts| && open {
        TearEntry(job, fate.n, db, phase, alerts);
        torn := true;
      }
    }

    /** An applied bar from its log on: the block is left, the bar is completed unless its transaction was lost, and the
        alerts go out in either case; or an exception after the log ends it in an abort. */
    method FinishBar(job: Job, fate: Fate, delivers: nat -> bool, saved: Saved, ghost states: seq<EngineState>,
                     ghost gate: bool, alerts: seq<Alert>)
      returns (done: bool, stalled: bool, ghost steps: seq<Step>)
      requires Valid() && fate.Applies()
      requires |states| == |accounts| && Snapshots(saved, states, saved.bars) && OnePerSymbol(saved.open)
      requires job.Key() !in saved.bars && job.Key() in bars
      modifies this, engines
      ensures Valid()
      ensures var before := Db(Tables(Named(accounts, states)), saved.bars, old(history));
              && At(if stalled then before else Stored(), if stalled then Stuck else Ready, []) ==
                 Run(TheSetup(), old(At(before, Logging(job, gate, Named(accounts, states)), alerts)), steps)
              && (!done && !stalled ==> Stored() == before)
      ensures stalled == fate.Stalls() && (done <==> fate.Completes? && !fate.outcome.TransactionLost?)
      ensures history == if done then old(history) + [BarDone(job)] else old(history)
      ensures fate.Raises() ==> sent == old(sent) && States()[0].(trades := states[0].trades) == states[0]
    {
      hide Run, Named, OnePerSymbol, Tables, Distinct, Next, SendSteps, Aborted;
      ghost var z, db, snapshot := TheSetup(), Db(Tables(Named(accounts, states)), saved.bars, history),
        Named(accounts, states);
      ghost var start := At(db, Logging(job, gate, snapshot), alerts);
      LogAndComplete(job, fate.outcome, saved, states, gate, alerts);
      ghost var phase :=
        if fate.outcome.TransactionLost? then Lost(job, gate, snapshot) else Committing(job, gate, snapshot);
      LogRun(z, start, fate.outcome);
      steps, stalled := [Log(fate.outcome)], fate.Stalls();
      if fate.RaisesAfterLog? {
        ghost var logged := At(db, phase, alerts);
        Abort(saved, states, phase, alerts);
        AbortRun(z, logged, false, logged);
        RunOne(z, start, steps, WorkerBars.Abort);
        return false, false, steps + [WorkerBars.Abort];
      }
      if stalled {
        RestoreSnapshot(saved, states, db, phase, alerts);
        RunOne(z, start, steps, CommitStalls);
        return false, true, steps + [CommitStalls];
      }
      LeaveAndSend(job, fate.outcome.TransactionLost?, delivers, db, phase, alerts);
      ghost var rest := [Commit] + (SendSteps(|alerts|, delivers) + [Send(true)]);
      RunJoin(z, start, steps, rest);
      done, steps := !fate.outcome.TransactionLost?, steps + rest;
    }

    /** The exception handler while the transaction is still open: only the memory of the master goes back. */
    method RestoreSnapshot(saved: Saved, ghost states: seq<EngineState>, ghost db: Db, ghost phase: Phase,
                           ghost alerts: seq<Alert>)
      requires Valid() && |states| == |accounts| && Snapshots(saved, states, saved.bars) && OnePerSymbol(saved.open)
      requires phase.Committing? && phase.snapshot == Named(accounts, states)
      modifies engines
      ensures Valid() && States()[0].(trades := states[0].trades) == states[0]
      ensures At(db, Stuck, []) == Next(TheSetup(), old(At(db, phase, alerts)), CommitStalls)
    {
      hide Named, OnePerSymbol, Stalled;
      ghost var before, was := States(), At(db, phase, alerts);
      engines[0].equity, engines[0].openPositions, engines[0].closedPositions := saved.equity, saved.open, saved.closed;
      assert States() == before[0 := states[0].(trades := before[0].trades)];
      StallStep(TheSetup(), was, accounts, before, states);
    }

    /** Leave the block, then send the alerts. */
    method LeaveAndSend(job: Job, lost: bool, delivers: nat -> bool, ghost db: Db, ghost phase: Phase,
                        alerts: seq<Alert>)
      requires Valid() && db.history == history
      requires if lost then phase.Lost? && Stored() == db && job.Key() !in bars else phase.Committing?
      requires (phase.Lost? || phase.Committing?) && phase.job == job
      modifies this`history, this`sent
      ensures Valid() && history == if lost then old(history) else old(history) + [BarDone(job)]
      ensures lost ==> Stored() == db
      ensures At(Stored(), Ready, []) ==
              Run(TheSetup(), old(At(db, phase, alerts)), [Commit] + (SendSteps(|alerts|, delivers) + [Send(true)]))
    {
      hide Run, Named, OnePerSymbol, Tables, Distinct, Next, SendSteps;
      ghost var z, start, states := TheSetup(), At(db, phase, alerts), States();
      LeaveBlock(job, lost, db, phase, alerts);
      assert States() == states;
      CommitRun(z, start);
      SendAlerts(alerts, delivers);
      RunJoin(z, start, [Commit], SendSteps(|alerts|, delivers) + [Send(true)]);
    }

    /** Claim a bar and apply it, or abort on an exception on the way. */
    method StartBar(job: Job, fate: Fate)
      returns (applied: bool, alerts: seq<Alert>, saved: Saved, ghost gate: bool, ghost steps: seq<Step>)
      requires Valid() && job.Key() !in bars
      modifies this`bars, engines
      ensures Valid()
      ensures applied <==> fate.Applies()
      ensures Snapshots(saved, old(States()), old(bars)) && OnePerSymbol(saved.open)
      ensures var snapshot := Named(accounts, old(States()));
              if applied then
                job.Key() in bars &&
                  At(old(Stored()), Logging(job, gate, snapshot), alerts) ==
                    Run(TheSetup(), old(At(Stored(), Ready, [])), steps)
              else
                && At(Stored(), Ready, []) == Run(TheSetup(), old(At(Stored(), Ready, [])), steps)
                && States()[0] == old(States())[0] && Stored() == old(Stored())
    {
      hide Run, Advanced, Named, OnePerSymbol, Tables, Distinct, Advances, Next, Reaches, Aborted;
      ghost var z, db, start := TheSetup(), Stored(), At(Stored(), Ready, []);
      saved := TakeSnapshot();
      ghost var states, snapshot := States(), Named(accounts, States());
      bars := bars[job.Key() := Processing];
      assert States() == states;
      BeginSteps(z, start, job);
      ghost var phase, n, torn;
      applied, alerts, gate, phase, n, torn := ApplyBar(job, fate, db, snapshot);
      ReachedRun(z, start, job, n, torn, At(db, phase, alerts));
      steps := [Begin(job)] + Advances(n);
      if !applied {
        ghost var reached := Run(z, start, steps);
        AbortRun(z, reached, torn, At(db, phase, alerts));
        Abort(saved, states, phase, alerts);
        RunOne(z, start, steps, Stop(z, reached, torn));
        steps := steps + [Stop(z, reached, torn)];
      }
    }

    /** One attempt at a closed bar: a claimed bar is passed over; an exception anywhere in the transaction ends in an
        abort; a COMMIT that fails without a rollback leaves the connection stuck in the transaction; otherwise the
        block is left, the bar is completed unless its transaction was lost, and the alerts go out in either case. */
    method ProcessClosedBar(job: Job, fate: Fate, delivers: nat -> bool)
      returns (done: bool, stalled: bool, ghost steps: seq<Step>)
      requires Valid()
      modifies this, engines
      ensures Valid()
      ensures At(if stalled then old(Stored()) else Stored(), if stalled then Stuck else Ready, []) ==
              Run(TheSetup(), old(At(Stored(), Ready, [])), steps)
      ensures done <==> job.Key() !in old(bars) && fate.Completes? && !fate.outcome.TransactionLost?
      ensures stalled <==> job.Key() !in old(bars) && fate.Stalls()
      ensures history == if done then old(history) + [BarDone(job)] else old(history)
      ensures !done && !stalled ==> Stored() == old(Stored())
      ensures fate.Raises() ==>
                sent == old(sent) && States()[0].(trades := old(States())[0].trades) == old(States())[0]
    {
      hide Run, Named, OnePerSymbol, Tables, Distinct;
      ghost var z, start, states := TheSetup(), At(Stored(), Ready, []), States();
      if job.Key() in bars {
        BeginSteps(z, start, job);
        return false, false, [Begin(job)];
      }
      ghost var gate, more;
      var applied, alerts, saved;
      applied, alerts, saved, gate, steps := StartBar(job, fate);
      if !applied {
        return false, false, steps;
      }
      done, stalled, more := FinishBar(job, fate, delivers, saved, states, gate, alerts);
      RunJoin(z, start, steps, more);
      steps := steps + more;
    }

    // ---------- commands between bars ----------

    /** The first account that holds the trade open, if any. */
    method FindHolder(id: TradeId) returns (i: nat)
      requires Valid()
      ensures i <= |engines| && (i < |engines| ==> id in States()[i].open)
      ensures forall k :: 0 <= k < i ==> id !in States()[k].open
    {
      i := 0;
      while i < |engines| && id !in engines[i].openPositions
        invariant i <= |engines| && forall k :: 0 <= k < i ==> id !in States()[k].open
      {
        i := i + 1;
      }
    }

    /** Close a trade on the first account that holds it open. A row that cannot be written leaves everything as it
        was. */
    method CloseTradeCommand(id: TradeId, reason: string, time: int, fails: bool) returns (found: bool, raised: bool)
      requires Valid()
      modifies this`history, engines
      ensures Valid()
      ensures found <==> exists i :: 0 <= i < |engines| && id in old(States())[i].open
      ensures raised <==> fails && found
      ensures At(Stored(), Ready, []) ==
              if raised then old(At(Stored(), Ready, []))
              else Next(TheSetup(), old(At(Stored(), Ready, [])), Apply(CloseTrade(id, reason, time)))
    {
      hide Named, Tables, CloseStep, Applied, OnePerSymbol, HolderAccount, Next;
      ghost var states, start := States(), At(Stored(), Ready, []);
      var i := FindHolder(id);
      found, raised := i < |engines|, false;
      assert States() == states;
      if !found {
        NoHolder(accounts, states, id);
        NothingApplied(TheSetup(), start, id, reason, time);
        return;
      }
      raised := CloseOn(i, id, reason, time, fails);
      if raised {
        assert States() == states;
      } else {
        ghost var d, after := CloseDone(accounts[i], id, reason, time), States();
        history := history + [d];
        assert States() == after;
        ConfigAt(i);
        HolderFound(accounts, states, i, id);
        CommandStep(TheSetup(), start, CloseTrade(id, reason, time), d, accounts, states, i, States()[i]);
      }
    }

    method CloseOn(i: nat, id: TradeId, reason: string, time: int, fails: bool) returns (raised: bool)
      requires Valid() && i < |engines| && id in States()[i].open
      modifies engines[i]
      ensures Valid() && raised == fails
      ensures States() == if raised then old(States())
                          else old(States())[i := CloseStep(engines[i].config, old(States())[i], id, reason, time)]
    {
      CloseKeepsSymbols(engines[i].config, engines[i].State(), id, reason, time);
      hide CloseStep, OnePerSymbol, Distinct;
      var found;
      found, raised := engines[i].CloseTrade(id, reason, time, fails);
    }

    method FindAccount(account: Account) returns (i: nat)
      ensures i <= |accounts| && (i < |accounts| ==> accounts[i] == account)
      ensures i == |accounts| ==> account !in accounts
    {
      i := 0;
      while i < |accounts| && accounts[i] != account
        invariant i <= |accounts| && forall k :: 0 <= k < i ==> accounts[k] != account
      {
        i := i + 1;
      }
    }

    /** Reset an account; an unknown one changes nothing. */
    method ResetCommand(account: Account) returns (found: bool)
      requires Valid()
      modifies this`history, engines
      ensures Valid()
      ensures found <==> account in accounts
      ensures At(Stored(), Ready, []) == Next(TheSetup(), old(At(Stored(), Ready, [])), Apply(ResetAccount(account)))
    {
      hide Named, Tables, ResetStep, Applied, OnePerSymbol, Next, Distinct;
      ghost var states, start := States(), At(Stored(), Ready, []);
      NamedKeys(accounts, states);
      var i := FindAccount(account);
      found := i < |accounts|;
      assert States() == states;
      if !found {
        NobodyReset(TheSetup(), start, account);
        return;
      }
      ResetOn(i);
      ghost var d, after := ResetDone(account), States();
      history := history + [d];
      assert States() == after;
      ConfigAt(i);
      CommandStep(TheSetup(), start, ResetAccount(account), d, accounts, states, i, States()[i]);
    }

    method ResetOn(i: nat)
      requires Valid() && i < |engines|
      modifies engines[i]
      ensures Valid() && States() == old(States())[i := ResetStep(engines[i].config, old(States())[i])]
    {
      engines[i].ResetAccount();
      ConsistentIsLive(engines[i].config, engines[i].State());
      hide ResetStep, Consistent, OnePerSymbol, Distinct;
    }
  }

  // ---------- steps of the machine ----------

  /** Where an attempt has come to: that many turns, and perhaps one that was cut short. */
  ghost predicate Reaches(z: Setup, start: World, n: nat, torn: bool, w: World) {
    var x := Run(z, start, Advances(n));
    && (torn ==> InTurn(x) && x.phase.todo[0] in z.cfgs)
    && w == if torn then Torn(z, x) else x
  }

  /** The abort of an attempt. */
  ghost function Stop(z: Setup, x: World, torn: bool): Step {
    if torn && InTurn(x) && x.phase.todo[0] in z.cfgs then AbortInTurn(TornTurn(z, x)) else WorkerBars.Abort
  }

  lemma AbortRun(z: Setup, x: World, torn: bool, w: World)
    requires torn ==> InTurn(x) && x.phase.todo[0] in z.cfgs
    requires w == (if torn then Torn(z, x) else x) && InBlock(w.phase)
    ensures Next(z, x, Stop(z, x, torn)) == Aborted(z, w)
  {
    hide TornTurn, Aborted;
  }

  lemma ReachedRun(z: Setup, start: World, job: Job, n: nat, torn: bool, w: World)
    requires Reaches(z, Run(z, start, [Begin(job)]), n, torn, w)
    ensures var x := Run(z, start, [Begin(job)] + Advances(n));
            && (torn ==> InTurn(x) && x.phase.todo[0] in z.cfgs)
            && w == if torn then Torn(z, x) else x
  {
    hide Run, Torn, Advances;
    RunJoin(z, start, [Begin(job)], Advances(n));
  }

  lemma LogRun(z: Setup, start: World, outcome: LogOutcome)
    ensures Run(z, start, [Log(outcome)]) == Next(z, start, Log(outcome))
  {
    hide Next;
    RunOne(z, start, [], Log(outcome));
    assert [] + [Log(outcome)] == [Log(outcome)] && Run(z, start, []) == start;
  }

  lemma CommitRun(z: Setup, start: World)
    ensures Run(z, start, [Commit]) == Next(z, start, Commit)
  {
    hide Next;
    RunOne(z, start, [], Commit);
    assert [] + [Commit] == [Commit] && Run(z, start, []) == start;
  }

  lemma NothingToTear(cfg: EngineConfig, s: EngineState, symbol: string, bar: Bar)
    ensures HolderOf(s.open, symbol).None? ==> BarStep(cfg, s, symbol, bar) == TornBar(cfg, s, symbol, bar)
  {
    hide AfterBar, BarNet, RowOf, Upsert;
  }

  lemma TornStep(z: Setup, w: World, accounts: seq<Account>, states: seq<EngineState>, i: nat, s: EngineState)
    requires |states| == |accounts| && Distinct(accounts) && i < |accounts| && accounts[i] in z.cfgs
    requires (w.phase.Updating? || w.phase.Entering?) && w.phase.todo == accounts[i..]
    requires w.engines == Named(accounts, states)
    requires s == if w.phase.Updating? then TornUpdate(z.cfgs[accounts[i]], states[i], w.phase.job)
                  else TornEntry(z.cfgs[accounts[i]], states[i], accounts[i], w.phase.job)
    ensures InTurn(w) && w.phase.todo[0] in z.cfgs && Torn(z, w) == w.(engines := Named(accounts, states[i := s]))
  {
    NamedAt(accounts, states, i);
    NamedUpdate(accounts, states, i, s);
    hide TornUpdate, TornEntry, Named;
    assert accounts[i..][0] == accounts[i];
  }

  lemma {:induction false} HolderFrom(accounts: seq<Account>, engines: Engines, i: nat, id: TradeId)
    requires i < |accounts| && accounts[i] in engines && id in engines[accounts[i]].open
    requires forall k :: 0 <= k < i ==> accounts[k] !in engines || id !in engines[accounts[k]].open
    ensures HolderAccount(accounts, engines, id) == Some(accounts[i])
  {
    if i > 0 {
      assert accounts[1..][i - 1] == accounts[i];
      HolderFrom(accounts[1..], engines, i - 1, id);
    }
  }

  lemma HolderFound(accounts: seq<Account>, states: seq<EngineState>, i: nat, id: TradeId)
    requires |states| == |accounts| && Distinct(accounts) && i < |accounts| && id in states[i].open
    requires forall k :: 0 <= k < i ==> id !in states[k].open
    ensures HolderAccount(accounts, Named(accounts, states), id) == Some(accounts[i])
  {
    hide Named;
    forall k | 0 <= k <= i
      ensures accounts[k] in Named(accounts, states) && Named(accounts, states)[accounts[k]] == states[k]
    {
      NamedAt(accounts, states, k);
    }
    HolderFrom(accounts, Named(accounts, states), i, id);
  }

  lemma NoHolder(accounts: seq<Account>, states: seq<EngineState>, id: TradeId)
    requires |states| == |accounts| && Distinct(accounts)
    requires forall k :: 0 <= k < |states| ==> id !in states[k].open
    ensures HolderAccount(accounts, Named(accounts, states), id).None?
  {
    hide Named;
    forall a | a in accounts
      ensures a in Named(accounts, states) && id !in Named(accounts, states)[a].open
    {
      var k :| 0 <= k < |accounts| && accounts[k] == a;
      NamedAt(accounts, states, k);
    }
  }

  lemma NothingApplied(z: Setup, w: World, id: TradeId, reason: string, time: int)
    requires w.phase.Ready? && HolderAccount(z.accounts, w.engines, id).None?
    ensures Next(z, w, Apply(CloseTrade(id, reason, time))) == w
  {
  }

  lemma NobodyReset(z: Setup, w: World, a: Account)
    requires w.phase.Ready? && a !in w.engines
    ensures Next(z, w, Apply(ResetAccount(a))) == w
  {
  }

  /** A command on one account. */
  lemma CommandStep(z: Setup, w: World, c: Command, d: Deed, accounts: seq<Account>, states: seq<EngineState>, i: nat,
                    s: EngineState)
    requires |states| == |accounts| && Distinct(accounts) && i < |accounts| && accounts[i] in z.cfgs
    requires w.phase.Ready? && w.engines == Named(accounts, states) && DeedOf(z, w.engines, c) == Some(d) && !d.BarDone?
    requires d.account == accounts[i] && s == Commanded(z.cfgs[accounts[i]], states[i], accounts[i], d)
    ensures var after := Named(accounts, states[i := s]);
            Next(z, w, Apply(c)) == w.(engines := after, db := Db(Tables(after), w.bars, w.db.history + [d]))
  {
    hide Named, Tables, Commanded, DeedOf, AllCommanded;
    NamedAt(accounts, states, i);
    NamedUpdate(accounts, states, i, s);
    OneCommanded(z, w.engines, accounts[i], s, d);
  }

  lemma OneCommanded(z: Setup, engines: Engines, a: Account, s: EngineState, d: Deed)
    requires a in engines && a in z.cfgs && !d.BarDone? && d.account == a && s == Commanded(z.cfgs[a], engines[a], a, d)
    ensures AllCommanded(z, engines, d) == engines[a := s]
  {
    hide CloseStep, ResetStep;
  }

  datatype Saved = Saved(tables: seq<TradeTable>, bars: map<BarKey, Decision>, equity: real, open: map<TradeId,
                         Position>, closed: map<TradeId, Position>)

  ghost predicate Snapshots(saved: Saved, states: seq<EngineState>, bars: map<BarKey, Decision>) {
    && |saved.tables| == |states| > 0 && saved.bars == bars
    && (forall i :: 0 <= i < |states| ==> saved.tables[i] == states[i].trades)
    && states[0] == EngineState(saved.equity, saved.open, saved.closed, saved.tables[0])
  }

  function SendSteps(n: nat, delivers: nat -> bool): seq<Step> {
    if n == 0 then [] else SendSteps(n - 1, delivers) + [Send(delivers(n - 1))]
  }

  lemma NoSend(z: Setup, w: World, delivers: nat -> bool)
    ensures Run(z, w, SendSteps(0, delivers)) == w
  {
  }

  lemma OneMoreSend(z: Setup, w: World, n: nat, delivers: nat -> bool)
    ensures Run(z, w, SendSteps(n + 1, delivers)) == Next(z, Run(z, w, SendSteps(n, delivers)), Send(delivers(n)))
  {
    hide Next;
    assert SendSteps(n + 1, delivers)[..|SendSteps(n, delivers)|] == SendSteps(n, delivers);
  }

  lemma SendOne(z: Setup, w: World, alerts: seq<Alert>, i: nat, delivers: nat -> bool)
    requires i < |alerts| && w.phase.Sending? && w.pending == alerts[i..]
    ensures Next(z, w, Send(delivers(i))) ==
            w.(sent := if delivers(i) then w.sent + [alerts[i]] else w.sent, pending := alerts[i + 1..])
  {
    assert alerts[i..][0] == alerts[i] && alerts[i..][1..] == alerts[i + 1..];
  }

  lemma LastSend(z: Setup, start: World, w: World, steps: seq<Step>)
    requires w.phase.Sending? && w.pending == [] && w == Run(z, start, steps)
    ensures Run(z, start, steps + [Send(true)]) == w.(phase := Ready)
  {
    RunOne(z, start, steps, Send(true));
    hide Run;
  }

  lemma AbortStep(z: Setup, w: World, accounts: seq<Account>, before: seq<EngineState>, states: seq<EngineState>,
                  after: seq<EngineState>)
    requires |states| == |before| == |after| == |accounts| > 0 && Distinct(accounts) && accounts[0] == MASTER
    requires z.snapshotted == {MASTER} && w.engines == Named(accounts, before)
    requires w.db.tables == Tables(Named(accounts, states))
    requires forall i :: 0 <= i < |accounts| ==>
             after[i] == if i == 0 then states[0] else before[i].(trades := states[i].trades)
    ensures RolledBack(z, w, Named(accounts, states)) == Named(accounts, after)
    ensures Tables(Named(accounts, after)) == Tables(Named(accounts, states))
  {
    MasterBack(z, w, accounts, before, states);
    RowsBackNamed(w.db, accounts, before[0 := states[0]], states, after);
    hide Named, Tables, RowsBack;
    SameTables(accounts, states, after);
  }

  /** With the transaction still open the rows stay as well. */
  lemma StallStep(z: Setup, w: World, accounts: seq<Account>, before: seq<EngineState>, states: seq<EngineState>)
    requires |states| == |before| == |accounts| > 0 && Distinct(accounts) && accounts[0] == MASTER
    requires z.snapshotted == {MASTER} && w.engines == Named(accounts, before)
    requires w.phase.Committing? && w.phase.snapshot == Named(accounts, states)
    ensures Stalled(z, w) ==
            w.(engines := Named(accounts, before[0 := states[0].(trades := before[0].trades)]), phase := Stuck,
               pending := [])
  {
    hide *;
    NamedAt(accounts, states, 0);
    NamedAt(accounts, before, 0);
    NamedUpdate(accounts, before, 0, states[0].(trades := before[0].trades));
    OneStalled(z, w);
  }

  lemma OneStalled(z: Setup, w: World)
    requires z.snapshotted == {MASTER} && w.phase.Committing? && MASTER in w.phase.snapshot && MASTER in w.engines
    ensures var back := w.phase.snapshot[MASTER].(trades := w.engines[MASTER].trades);
            Stalled(z, w) == w.(engines := w.engines[MASTER := back], phase := Stuck, pending := [])
  {
    var back := w.phase.snapshot[MASTER].(trades := w.engines[MASTER].trades);
    assert Stalled(z, w).engines == w.engines[MASTER := back];
  }

  /** Only the master's memory is put back. */
  lemma MasterBack(z: Setup, w: World, accounts: seq<Account>, before: seq<EngineState>, states: seq<EngineState>)
    requires |states| == |before| == |accounts| > 0 && Distinct(accounts) && accounts[0] == MASTER
    requires z.snapshotted == {MASTER} && w.engines == Named(accounts, before)
    ensures RolledBack(z, w, Named(accounts, states)) == RowsBack(w.db, Named(accounts, before[0 := states[0]]))
  {
    hide *;
    NamedAt(accounts, states, 0);
    NamedAt(accounts, before, 0);
    NamedUpdate(accounts, before, 0, states[0]);
    OneBack(z, w, Named(accounts, states));
  }

  lemma OneBack(z: Setup, w: World, snapshot: Engines)
    requires z.snapshotted == {MASTER} && MASTER in snapshot && MASTER in w.engines
    ensures RolledBack(z, w, snapshot) == RowsBack(w.db, w.engines[MASTER := snapshot[MASTER]])
  {
    hide RowsBack;
    assert (map a | a in w.engines :: if a in z.snapshotted && a in snapshot then snapshot[a] else w.engines[a])
        == w.engines[MASTER := snapshot[MASTER]];
  }

  /** Every account gets its committed rows back. */
  lemma RowsBackNamed(db: Db, accounts: seq<Account>, before: seq<EngineState>, states: seq<EngineState>,
                      after: seq<EngineState>)
    requires |states| == |before| == |after| == |accounts| && Distinct(accounts)
    requires db.tables == Tables(Named(accounts, states))
    requires forall i :: 0 <= i < |accounts| ==> after[i] == before[i].(trades := states[i].trades)
    ensures RowsBack(db, Named(accounts, before)) == Named(accounts, after)
  {
    hide Named, Tables;
    NamedKeys(accounts, before);
    NamedKeys(accounts, after);
    forall k | k in Named(accounts, before)
      ensures k in Named(accounts, after) && RowsBack(db, Named(accounts, before))[k] == Named(accounts, after)[k]
    {
      var i :| 0 <= i < |accounts| && accounts[i] == k;
      NamedAt(accounts, after, i);
      NamedAt(accounts, states, i);
      NamedAt(accounts, before, i);
      TablesAt(Named(accounts, states), k);
    }
  }

  lemma SameTables(accounts: seq<Account>, states: seq<EngineState>, after: seq<EngineState>)
    requires |states| == |after| == |accounts| && Distinct(accounts)
    requires forall i :: 0 <= i < |accounts| ==> after[i].trades == states[i].trades
    ensures Tables(Named(accounts, after)) == Tables(Named(accounts, states))
  {
    var a, b := Named(accounts, after), Named(accounts, states);
    assert forall k :: k in a <==> k in b;
    forall k | k in a
      ensures a[k].trades == b[k].trades
    {
      var i :| 0 <= i < |accounts| && accounts[i] == k;
      NamedAt(accounts, after, i);
      NamedAt(accounts, states, i);
    }
  }

  lemma TablesAt(engines: Engines, a: Account)
    requires a in engines
    ensures a in Tables(engines) && Tables(engines)[a] == engines[a].trades
  {
  }

  lemma UpdateStep(z: Setup, w: World, accounts: seq<Account>, states: seq<EngineState>, i: nat, s: EngineState,
                   exits: seq<Alert>)
    requires |states| == |accounts| && Distinct(accounts) && i < |accounts|
    requires w.phase.Updating? && w.phase.todo == accounts[i..] && w.engines == Named(accounts, states)
    requires accounts[i] in z.cfgs && s == Updated(z.cfgs[accounts[i]], states[i], w.phase.job)
    requires exits == ExitAlerts(z.cfgs[accounts[i]], states[i], w.phase.job)
    ensures Advanced(z, w) == w.(engines := Named(accounts, states[i := s]), pending := w.pending + exits,
                                 phase := Updating(w.phase.job, accounts[i + 1..], w.phase.snapshot))
  {
    hide Updated, ExitAlerts, Named, Entered, Gate;
    NamedAt(accounts, states, i);
    NamedUpdate(accounts, states, i, s);
    assert accounts[i..][0] == accounts[i] && accounts[i..][1..] == accounts[i + 1..];
  }

  lemma EnterStep(z: Setup, w: World, accounts: seq<Account>, states: seq<EngineState>, i: nat, s: EngineState,
                  entries: seq<Alert>)
    requires |states| == |accounts| && Distinct(accounts) && i < |accounts|
    requires w.phase.Entering? && w.phase.todo == accounts[i..] && w.engines == Named(accounts, states)
    requires accounts[i] in z.cfgs && s == Entered(z.cfgs[accounts[i]], states[i], accounts[i], w.phase.job)
    requires entries == EntryAlerts(z.cfgs[accounts[i]], states[i], accounts[i], w.phase.job)
    ensures Advanced(z, w) == w.(engines := Named(accounts, states[i := s]),
                                 phase := Entering(w.phase.job, accounts[i + 1..], w.phase.gate,
                                                   LastEntered(w.phase.entered, entries), w.phase.snapshot))
  {
    hide Entered, EntryAlerts, Named, Updated, Gate, LastEntered;
    NamedAt(accounts, states, i);
    NamedUpdate(accounts, states, i, s);
    assert accounts[i..][0] == accounts[i] && accounts[i..][1..] == accounts[i + 1..];
  }

  lemma BeginSteps(z: Setup, w: World, job: Job)
    requires w.phase.Ready? && w.pending == []
    ensures Run(z, w, [Begin(job)]) == if job.Key() in w.bars then w
                                        else w.(bars := w.bars[job.Key() := Processing],
                                                phase := Updating(job, z.accounts, w.engines))
  {
    RunOne(z, w, [], Begin(job));
    assert [] + [Begin(job)] == [Begin(job)];
    assert Run(z, w, []) == w;
  }

  lemma {:induction false} AdvancesJoin(z: Setup, w: World, m: nat, n: nat)
    ensures Run(z, w, Advances(m + n)) == Run(z, Run(z, w, Advances(m)), Advances(n))
  {
    hide Advanced, Run;
    if n == 0 {
      NoAdvance(z, Run(z, w, Advances(m)));
    } else {
      AdvancesJoin(z, w, m, n - 1);
      OneMoreAdvance(z, w, m + n - 1);
      OneMoreAdvance(z, Run(z, w, Advances(m)), n - 1);
    }
  }

  lemma GateStep(z: Setup, w: World, accounts: seq<Account>, states: seq<EngineState>)
    requires |states| == |accounts| > 0 && Distinct(accounts) && accounts[0] == MASTER && z.accounts == accounts
    requires w.phase.Updating? && w.phase.todo == [] && w.engines == Named(accounts, states)
    ensures var gate := Gate(states[0], w.phase.job);
            Advanced(z, w) == w.(phase :=
                                 Entering(w.phase.job, if gate then accounts else [], gate, [], w.phase.snapshot))
  {
    NamedAt(accounts, states, 0);
    hide Named, Gate;
  }

  /** After the last account the entry is announced, and the bar is to be logged. */
  lemma EnteredStep(z: Setup, w: World, entered: seq<Alert>)
    requires w.phase.Entering? && w.phase.todo == [] && w.phase.entered == entered
    ensures Advanced(z, w) ==
            w.(pending := w.pending + entered, phase := Logging(w.phase.job, w.phase.gate, w.phase.snapshot))
  {
  }
}
