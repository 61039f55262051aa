/** What the bar machine of `WorkerBars` keeps over every run of attempts, aborts, lost transactions, crashes and
    restarts (aura/runner/worker.py). */
module WorkerBarsSafety {
  import opened Wrappers
  import opened Positions
  import opened PaperLedger
  import opened WorkerBars
  import PaperRestart

  // ---------- the processed bars, in every run ----------

  predicate IsBar(d: Deed, key: BarKey) {
    d.BarDone? && d.job.Key() == key
  }

  predicate KeyDone(history: seq<Deed>, key: BarKey) {
    exists i :: 0 <= i < |history| && IsBar(history[i], key)
  }

  predicate EachBarOnce(history: seq<Deed>) {
    forall i, j :: 0 <= i < j < |history| && history[i].BarDone? ==> !IsBar(history[j], history[i].job.Key())
  }

  /** The committed bars are the completed ones: none is left 'processing', none has been completed twice. */
  predicate BarsDone(db: Db) {
    && EachBarOnce(db.history)
    && (forall key :: key in db.bars ==> db.bars[key].Completed? && KeyDone(db.history, key))
    && forall i :: 0 <= i < |db.history| && db.history[i].BarDone? ==> db.history[i].job.Key() in db.bars
  }

  /** The open transaction holds the claim of one more bar. */
  predicate Claim(w: World, job: Job, d: Decision) {
    job.Key() !in w.db.bars && w.bars == w.db.bars[job.Key() := d]
  }

  predicate Bookkeeping(w: World) {
    && BarsDone(w.db)
    && match w.phase
       case Updating(job, _, _) => Claim(w, job, Processing)
       case Entering(job, _, _, _, _) => Claim(w, job, Processing)
       case Logging(job, _, _) => Claim(w, job, Processing)
       case Committing(job, _, _) => Claim(w, job, Completed)
       case Lost(job, _, _) => w.bars == w.db.bars && job.Key() !in w.db.bars
       case Stuck => true
       case _ => w.bars == w.db.bars
  }

  lemma KeyDoneGrows(history: seq<Deed>, d: Deed, key: BarKey)
    ensures KeyDone(history + [d], key) <==> KeyDone(history, key) || IsBar(d, key)
  {
    var grown := history + [d];
    if KeyDone(history, key) {
      var i :| 0 <= i < |history| && IsBar(history[i], key);
      assert grown[i] == history[i];
    }
    if IsBar(d, key) {
      assert grown[|history|] == d;
    }
  }

  lemma DoneGrows(db: Db, job: Job, bars: map<BarKey, Decision>, tables: map<Account, TradeTable>)
    requires BarsDone(db) && job.Key() !in db.bars && bars == db.bars[job.Key() := Completed]
    ensures BarsDone(Db(tables, bars, db.history + [BarDone(job)]))
  {
    hide KeyDone;
    var grown := db.history + [BarDone(job)];
    forall key | key in bars
      ensures KeyDone(grown, key)
    {
      KeyDoneGrows(db.history, BarDone(job), key);
    }
    assert EachBarOnce(grown);
    assert forall i :: 0 <= i < |grown| && grown[i].BarDone? ==> grown[i].job.Key() in bars;
  }

  /** A command adds nothing to the bars. */
  lemma DeedGrows(db: Db, d: Deed, tables: map<Account, TradeTable>)
    requires BarsDone(db) && !d.BarDone?
    ensures BarsDone(Db(tables, db.bars, db.history + [d]))
  {
    hide KeyDone;
    var grown := db.history + [d];
    forall key
      ensures KeyDone(grown, key) <==> KeyDone(db.history, key)
    {
      KeyDoneGrows(db.history, d, key);
    }
    assert EachBarOnce(grown);
    assert forall i :: 0 <= i < |grown| && grown[i].BarDone? ==> grown[i].job.Key() in db.bars;
  }

  lemma AdvanceBooks(z: Setup, w: World)
    requires Bookkeeping(w)
    ensures Bookkeeping(Advanced(z, w))
  {
    hide BarsDone, Updated, Entered, Gate, ExitAlerts, EntryAlerts;
  }

  lemma LeaveBooks(w: World)
    requires Bookkeeping(w) && (w.phase.Committing? || w.phase.Lost?)
    ensures Bookkeeping(Left(w))
  {
    if w.phase.Committing? { DoneGrows(w.db, w.phase.job, w.bars, Tables(w.engines)); }
    hide BarsDone, Tables;
  }

  lemma ApplyBooks(z: Setup, w: World, c: Command)
    requires Bookkeeping(w) && w.phase.Ready?
    ensures Bookkeeping(Applied(z, w, c))
  {
    hide BarsDone, Tables, AllCommanded, HolderAccount;
    var d := DeedOf(z, w.engines, c);
    if d.Some? { DeedGrows(w.db, d.value, Tables(AllCommanded(z, w.engines, d.value))); }
  }

  lemma AbortBooks(z: Setup, w: World)
    requires BarsDone(w.db) && InBlock(w.phase)
    ensures Bookkeeping(Aborted(z, w))
  {
    hide BarsDone, RolledBack;
  }

  lemma BooksDone(w: World)
    requires Bookkeeping(w)
    ensures BarsDone(w.db)
  {
    hide BarsDone;
  }

  lemma OtherBooks(z: Setup, w: World, s: Step)
    requires Bookkeeping(w) && (s.Begin? || s.Log? || s.Send? || s.CommitStalls? || s.Crash? || s.Restart?)
    ensures Bookkeeping(Next(z, w, s))
  {
    hide BarsDone, Advanced, RowsBack, Reloaded, Aborted, Applied, Left;
  }

  lemma StepBooks(z: Setup, w: World, s: Step)
    requires Bookkeeping(w)
    ensures Bookkeeping(Next(z, w, s))
  {
    hide BarsDone, Advanced, Left, Aborted, Applied;
    match s
    case Advance => AdvanceBooks(z, w);
    case Commit => if w.phase.Committing? || w.phase.Lost? { LeaveBooks(w); }
    case Abort =>
      if InBlock(w.phase) {
        BooksDone(w);
        AbortBooks(z, w);
      }
    case AbortInTurn(torn) =>
      if InTurn(w) {
        BooksDone(w);
        AbortBooks(z, w.(engines := w.engines[w.phase.todo[0] := torn]));
      }
    case Apply(c) => if w.phase.Ready? { ApplyBooks(z, w, c); }
    case _ => OtherBooks(z, w, s);
  }

  lemma {:induction false} RunBooks(z: Setup, steps: seq<Step>)
    ensures Bookkeeping(Run(z, Fresh(z), steps))
  {
    if steps != [] {
      hide Bookkeeping, Next, Fresh;
      RunBooks(z, steps[..|steps| - 1]);
      StepBooks(z, Run(z, Fresh(z), steps[..|steps| - 1]), steps[|steps| - 1]);
    }
  }

  /** In every run, lost transactions included: the processed bars are exactly the completed ones, each completed once,
      and none is left 'processing'. */
  lemma BarsCompleteOnce(z: Setup, steps: seq<Step>)
    ensures var db := Run(z, Fresh(z), steps).db;
            && EachBarOnce(db.history)
            && (forall key :: key in db.bars <==> KeyDone(db.history, key))
            && (forall key :: key in db.bars ==> db.bars[key].Completed?)
  {
    hide Run, Fresh;
    RunBooks(z, steps);
  }

  // ---------- one account through an attempt ----------

  /** An account that can be reloaded: consistent, and its rows are the committed ones. */
  ghost predicate AtRest(z: Setup, db: Db, engines: Engines, a: Account) {
    a in z.cfgs && a in db.tables && a in engines && Consistent(z.cfgs[a], engines[a]) &&
      engines[a].trades == db.tables[a]
  }

  /** Whether the bar, and the entry, have reached an account already. */
  predicate BarApplied(phase: Phase, a: Account) {
    phase.Updating? ==> a !in phase.todo
  }

  predicate EntryApplied(phase: Phase, a: Account) {
    match phase
    case Entering(_, todo, gate, _, _) => gate && a !in todo
    case Logging(_, gate, _) => gate
    case Committing(_, gate, _) => gate
    case Lost(_, gate, _) => gate
    case _ => false
  }

  /** The account as far as the attempt has come. */
  ghost function SoFar(cfg: EngineConfig, s: EngineState, a: Account, phase: Phase): EngineState
    requires InBlock(phase)
  {
    if BarApplied(phase, a) then Final(cfg, s, a, phase.job, EntryApplied(phase, a)) else s
  }

  /** An account that was at rest when the attempt began: memory is as far as the attempt has come, and so are the rows,
      unless they are lost. */
  ghost predicate InPlace(z: Setup, w: World, a: Account) {
    if w.phase.Down? || w.phase.Stuck? then true
    else if !InBlock(w.phase) then AtRest(z, w.db, w.engines, a)
    else
      && AtRest(z, w.db, w.phase.snapshot, a) && a in w.engines
      && var s := SoFar(z.cfgs[a], w.phase.snapshot[a], a, w.phase);
      w.engines[a] == if w.phase.Lost? then s.(trades := w.db.tables[a]) else s
  }

  predicate Distinct(todo: seq<Account>) {
    forall i, j :: 0 <= i < j < |todo| ==> todo[i] != todo[j]
  }

  /** No account is still to do twice, and entries are only to do behind an open gate. */
  predicate TodoSound(phase: Phase) {
    match phase
    case Updating(_, todo, _) => Distinct(todo)
    case Entering(_, todo, gate, _, _) => Distinct(todo) && (todo != [] ==> gate)
    case _ => true
  }

  lemma TodoSplit(todo: seq<Account>, a: Account)
    requires todo != [] && Distinct(todo)
    ensures a in todo <==> a == todo[0] || a in todo[1..]
    ensures todo[0] !in todo[1..] && Distinct(todo[1..])
  {
    assert todo == [todo[0]] + todo[1..];
  }

  lemma BeginInPlace(z: Setup, w: World, job: Job, a: Account)
    requires a in z.accounts && InPlace(z, w, a)
    ensures InPlace(z, Next(z, w, Begin(job)), a)
  {
    hide Consistent, Final;
  }

  lemma UpdateInPlace(z: Setup, w: World, a: Account)
    requires w.phase.Updating? && TodoSound(w.phase) && a in z.accounts && InPlace(z, w, a)
    ensures InPlace(z, Advanced(z, w), a)
  {
    hide Consistent, Updated, Entered, ExitAlerts, Gate;
    if w.phase.todo != [] { TodoSplit(w.phase.todo, a); }
  }

  lemma EnterInPlace(z: Setup, w: World, a: Account)
    requires w.phase.Entering? && TodoSound(w.phase) && InPlace(z, w, a)
    ensures InPlace(z, Advanced(z, w), a)
  {
    hide Consistent, Updated, Entered, EntryAlerts;
    if w.phase.todo != [] { TodoSplit(w.phase.todo, a); }
  }

  lemma LogInPlace(z: Setup, w: World, outcome: LogOutcome, a: Account)
    requires InPlace(z, w, a)
    ensures InPlace(z, Next(z, w, Log(outcome)), a)
  {
    hide Consistent, Final;
  }

  lemma StepTodo(z: Setup, w: World, s: Step)
    requires Proper(z) && TodoSound(w.phase)
    ensures TodoSound(Next(z, w, s).phase)
  {
    hide Updated, Entered, Gate, ExitAlerts, EntryAlerts, RowsBack, RolledBack, Reloaded, Tables;
    match w.phase
    case Updating(_, todo, _) => if todo != [] { TodoSplit(todo, MASTER); }
    case Entering(_, todo, _, _, _) => if todo != [] { TodoSplit(todo, MASTER); }
    case _ =>
  }

  /** Any account that is at rest when an attempt begins is in place at every point of the attempt. */
  lemma AttemptInPlace(z: Setup, w: World, s: Step, a: Account)
    requires Proper(z) && a in z.accounts && InPlace(z, w, a) && TodoSound(w.phase)
    requires s.Begin? || s.Advance? || s.Log?
    ensures InPlace(z, Next(z, w, s), a)
  {
    hide InPlace, TodoSound;
    match s
    case Begin(job) => BeginInPlace(z, w, job, a);
    case Log(outcome) => LogInPlace(z, w, outcome, a);
    case _ =>
      if w.phase.Updating? { UpdateInPlace(z, w, a); }
      if w.phase.Entering? { EnterInPlace(z, w, a); }
  }

  // ---------- what an attempt changes about an account ----------

  /** The bar leaves the account's rows alone: it has no position in the symbol, or the position only holds. */
  ghost predicate BarLeaves(cfg: EngineConfig, s: EngineState, job: Job) {
    var holder := HolderOf(s.open, job.symbol);
    holder.None? || (holder.value in s.open && BarDecision(cfg, s.open[holder.value].core, job.bar).Hold?)
  }

  /** The attempt, as far as it has come, leaves the account's rows alone. */
  ghost predicate Untouched(cfg: EngineConfig, s: EngineState, a: Account, phase: Phase)
    requires InBlock(phase)
  {
    && (BarApplied(phase, a) ==> BarLeaves(cfg, s, phase.job))
    && (BarApplied(phase, a) && EntryApplied(phase, a) ==> !TakesEntry(cfg, Updated(cfg, s, phase.job), a, phase.job))
  }

  lemma UntouchedRests(cfg: EngineConfig, s: EngineState, job: Job)
    requires Consistent(cfg, s) && BarLeaves(cfg, s, job)
    ensures Consistent(cfg, Updated(cfg, s, job).(trades := s.trades))
    ensures Updated(cfg, s, job).open.Keys == s.open.Keys && Updated(cfg, s, job).trades.Keys == s.trades.Keys
  {
    var holder := HolderOf(s.open, job.symbol);
    if holder.Some? {
      var id := holder.value;
      HoldLeaves(cfg, s, id, job);
    }
  }

  lemma HoldLeaves(cfg: EngineConfig, s: EngineState, id: TradeId, job: Job)
    requires Consistent(cfg, s) && HolderOf(s.open, job.symbol) == Some(id) && id in s.open
    requires BarDecision(cfg, s.open[id].core, job.bar).Hold?
    ensures Consistent(cfg, Updated(cfg, s, job).(trades := s.trades))
    ensures Updated(cfg, s, job).open.Keys == s.open.Keys && Updated(cfg, s, job).trades.Keys == s.trades.Keys
  {
    var q := AfterBar(cfg, s.open[id], job.bar);
    HoldKeepsCore(cfg, s.open[id], job.bar);
    LiveRowOf(cfg, s, id);
    MarkedRests(cfg, s, id, q);
    hide AfterBar, RowOf, Consistent, BarDecision, BarNet;
    assert Updated(cfg, s, job).(trades := s.trades) == s.(open := s.open[id := q]);
  }

  lemma HoldKeepsCore(cfg: EngineConfig, p: Position, bar: Bar)
    requires BarDecision(cfg, p.core, bar).Hold?
    ensures AfterBar(cfg, p, bar).core == p.core && BarNet(cfg, p.core, bar) == 0.0
  {
    hide BarDecision;
  }

  /** Marking a position's display fields leaves a consistent account consistent. */
  lemma MarkedRests(cfg: EngineConfig, s: EngineState, id: TradeId, q: Position)
    requires Consistent(cfg, s) && id in s.open && q.core == s.open[id].core
    ensures Consistent(cfg, s.(open := s.open[id := q]))
  {
    hide RowOf, LiveCore, SettledRows, LoadedEquity;
    LiveRowOf(cfg, s, id);
    LiveRowsPut(cfg, s.open, s.trades, id, q);
    SymbolsStay(s.open, id, q);
    hide LiveRows, OnePerSymbol;
    assert s.trades[id := RowOf(cfg, q.core)] == s.trades;
    assert s.open[id := q].Keys == s.open.Keys;
  }

  lemma SymbolsStay(open: map<TradeId, Position>, id: TradeId, q: Position)
    requires OnePerSymbol(open) && id in open && q.core == open[id].core
    ensures OnePerSymbol(open[id := q])
  {
  }

  /** A bar that exits or banks the first target changes the row, so memory no longer agrees with the old one. */
  lemma TouchedUnrests(cfg: EngineConfig, s: EngineState, job: Job) returns (id: TradeId)
    requires Consistent(cfg, s) && !BarLeaves(cfg, s, job)
    ensures id in s.trades && !RowAgrees(cfg, Updated(cfg, s, job), id, s.trades[id])
  {
    HolderHasSymbol(s.open, job.symbol);
    id := HolderOf(s.open, job.symbol).value;
    LiveRowOf(cfg, s, id);
    LiveRowLoads(cfg, s.open[id].core);
    AfterBarIsLive(cfg, s.open[id], job.bar);
    hide LoadedEquity, InStep, AfterBar, BarNet;
    BankedOrClosed(cfg, s.open[id], job.bar);
  }

  lemma BankedOrClosed(cfg: EngineConfig, p: Position, bar: Bar)
    requires !BarDecision(cfg, p.core, bar).Hold?
    ensures var q := AfterBar(cfg, p, bar).core; q.status.Closed? || (q.tp1Hit && !p.core.tp1Hit)
  {
    hide FinalPrice, ExitFee, CloseNet, Tp1Net;
  }

  /** What a consistent account has to say about one of its rows. */
  predicate RowAgrees(cfg: EngineConfig, s: EngineState, id: TradeId, row: TradeRow) {
    && (id in s.open ==> row == RowOf(cfg, s.open[id].core))
    && (id in s.closed ==> row.closed)
    && (id in s.open || id in s.closed)
  }

  lemma ConsistentAgrees(cfg: EngineConfig, s: EngineState, id: TradeId)
    requires Consistent(cfg, s) && id in s.trades
    ensures RowAgrees(cfg, s, id, s.trades[id])
  {
    hide LoadedEquity, RowOf, LiveCore, LoadClosed, OnePerSymbol;
  }

  lemma UpdatedKeys(cfg: EngineConfig, s: EngineState, job: Job)
    requires Consistent(cfg, s)
    ensures Updated(cfg, s, job).trades.Keys == s.trades.Keys
  {
    var holder := HolderOf(s.open, job.symbol);
    if holder.Some? {
      HolderHasSymbol(s.open, job.symbol);
      LiveRowOf(cfg, s, holder.value);
    }
    hide AfterBar, RowOf, Consistent, BarNet;
  }

  lemma NotTaken(cfg: EngineConfig, s: EngineState, a: Account, job: Job)
    ensures !TakesEntry(cfg, s, a, job) ==> Entered(cfg, s, a, job) == s
    ensures TakesEntry(cfg, s, a, job) ==>
              OpeningOf(a, job).Some? && OpeningOf(a, job).value.id !in s.trades &&
                OpeningOf(a, job).value.id in Entered(cfg, s, a, job).open
  {
    hide CreateExecutionPlan, RowOf, Upsert, OpenedCore, Accepts;
  }

  /** The rows of before still describe the account if and only if the bar has not changed it. */
  lemma UpdatedRestsExactly(cfg: EngineConfig, s: EngineState, job: Job)
    requires Consistent(cfg, s)
    ensures Consistent(cfg, Updated(cfg, s, job).(trades := s.trades)) <==> BarLeaves(cfg, s, job)
  {
    hide *;
    if BarLeaves(cfg, s, job) {
      UntouchedRests(cfg, s, job);
    } else {
      var id := TouchedUnrests(cfg, s, job);
      RowUnrests(cfg, Updated(cfg, s, job).(trades := s.trades), Updated(cfg, s, job), id);
    }
  }

  /** The rows of before still describe the account if and only if neither the bar nor an entry has changed it. */
  lemma FinalRestsExactly(cfg: EngineConfig, s: EngineState, a: Account, job: Job, entered: bool)
    requires Consistent(cfg, s)
    ensures Consistent(cfg, Final(cfg, s, a, job, entered).(trades := s.trades)) <==>
            BarLeaves(cfg, s, job) && (entered ==> !TakesEntry(cfg, Updated(cfg, s, job), a, job))
  {
    hide Updated, Entered, TakesEntry, BarLeaves, RowAgrees, Consistent, OpeningOf;
    var u := Updated(cfg, s, job);
    UpdatedKeys(cfg, s, job);
    NotTaken(cfg, u, a, job);
    if entered && TakesEntry(cfg, u, a, job) {
      var f := Entered(cfg, u, a, job).(trades := s.trades);
      StrangerUnrests(cfg, f, OpeningOf(a, job).value.id);
    } else {
      UpdatedRestsExactly(cfg, s, job);
    }
  }

  /** An update whose row cannot be written leaves the rows of before describing the account under the same
      condition. */
  lemma TornUpdateRestsExactly(cfg: EngineConfig, s: EngineState, job: Job)
    requires Consistent(cfg, s)
    ensures Consistent(cfg, TornUpdate(cfg, s, job).(trades := s.trades)) <==> BarLeaves(cfg, s, job)
  {
    hide TornUpdate, Updated, RowAgrees, Consistent;
    if BarLeaves(cfg, s, job) {
      TornHold(cfg, s, job);
      hide BarLeaves;
      UntouchedRests(cfg, s, job);
    } else {
      hide BarLeaves;
      var id := TornTouched(cfg, s, job);
      RowUnrests(cfg, TornUpdate(cfg, s, job).(trades := s.trades), TornUpdate(cfg, s, job), id);
    }
  }

  lemma TornHold(cfg: EngineConfig, s: EngineState, job: Job)
    requires BarLeaves(cfg, s, job)
    ensures TornUpdate(cfg, s, job).(trades := s.trades) == Updated(cfg, s, job).(trades := s.trades)
  {
    hide AfterBar, RowOf, Upsert, BarNet, BarDecision;
  }

  lemma TornTouched(cfg: EngineConfig, s: EngineState, job: Job) returns (id: TradeId)
    requires Consistent(cfg, s) && !BarLeaves(cfg, s, job)
    ensures id in s.trades && !RowAgrees(cfg, TornUpdate(cfg, s, job), id, s.trades[id])
  {
    HolderHasSymbol(s.open, job.symbol);
    id := HolderOf(s.open, job.symbol).value;
    LiveRowOf(cfg, s, id);
    LiveRowLoads(cfg, s.open[id].core);
    BankedOrClosed(cfg, s.open[id], job.bar);
    hide LoadedEquity, InStep, AfterBar, BarNet, BarDecision, HolderOf;
  }

  lemma StrangerUnrests(cfg: EngineConfig, s: EngineState, id: TradeId)
    requires id in s.open && id !in s.trades
    ensures !Consistent(cfg, s)
  {
  }

  lemma RowUnrests(cfg: EngineConfig, s: EngineState, u: EngineState, id: TradeId)
    requires s.open == u.open && s.closed == u.closed && id in s.trades && !RowAgrees(cfg, u, id, s.trades[id])
    ensures !Consistent(cfg, s)
  {
    hide Consistent, RowOf;
    if Consistent(cfg, s) {
      ConsistentAgrees(cfg, s, id);
    }
  }

  lemma SoFarRestsExactly(cfg: EngineConfig, s: EngineState, a: Account, phase: Phase)
    requires InBlock(phase) && Consistent(cfg, s)
    ensures Consistent(cfg, SoFar(cfg, s, a, phase).(trades := s.trades)) <==> Untouched(cfg, s, a, phase)
  {
    hide Consistent, Final, BarLeaves, TakesEntry, Updated, EntryApplied;
    FinalRestsExactly(cfg, s, a, phase.job, EntryApplied(phase, a));
    assert s.(trades := s.trades) == s;
  }

  /** A rollback puts a snapshotted account back exactly as it was. */
  lemma RollbackRestores(z: Setup, w: World, snapshot: Engines, a: Account)
    requires a in z.snapshotted && a in w.engines && AtRest(z, w.db, snapshot, a)
    ensures a in RolledBack(z, w, snapshot) && RolledBack(z, w, snapshot)[a] == snapshot[a]
  {
    hide Consistent;
  }

  /** Wherever an attempt aborts, an account that was at rest when it began is at rest again if and only if it is
      snapshotted or the attempt had not touched it: its bar, if applied, only held, and it had taken no entry. The
      worker snapshots the master account only. */
  lemma AbortAgreesExactly(z: Setup, w: World, a: Account)
    requires InBlock(w.phase) && InPlace(z, w, a)
    ensures AtRest(z, w.db, Next(z, w, Abort).engines, a) <==>
            a in z.snapshotted || Untouched(z.cfgs[a], w.phase.snapshot[a], a, w.phase)
  {
    hide SoFar, Untouched, Consistent;
    var s := w.phase.snapshot[a];
    SoFarRestsExactly(z.cfgs[a], s, a, w.phase);
    if a in z.snapshotted {
      RollbackRestores(z, w, w.phase.snapshot, a);
    } else {
      assert Next(z, w, Abort).engines[a] == w.engines[a].(trades := w.db.tables[a]);
      assert w.engines[a].(trades := w.db.tables[a]) == SoFar(z.cfgs[a], s, a, w.phase).(trades := s.trades);
    }
  }

  /** An abort puts every snapshotted account back, whatever is in memory by then. */
  lemma AbortRests(z: Setup, w: World, a: Account)
    requires InBlock(w.phase) && a in z.snapshotted && a in w.engines && AtRest(z, w.db, w.phase.snapshot, a)
    ensures InPlace(z, Aborted(z, w), a)
  {
    hide Consistent, RolledBack;
    RollbackRestores(z, w, w.phase.snapshot, a);
  }

  lemma RestsAtBegin(z: Setup, w: World, a: Account)
    requires InBlock(w.phase) && InPlace(z, w, a)
    ensures AtRest(z, w.db, w.phase.snapshot, a)
  {
    hide AtRest, SoFar;
  }

  /** An abort inside a turn puts every snapshotted account back exactly, whatever memory the turn has left. */
  lemma TornRestores(z: Setup, w: World, torn: EngineState, a: Account)
    requires InTurn(w) && InPlace(z, w, a) && a in z.snapshotted
    ensures var after := Next(z, w, AbortInTurn(torn)).engines; a in after && after[a] == w.phase.snapshot[a]
  {
    RestsAtBegin(z, w, a);
    hide InPlace, AtRest;
    RollbackRestores(z, w.(engines := w.engines[w.phase.todo[0] := torn]), w.phase.snapshot, a);
  }

  /** The turn of the first account is over. */
  function Passed(phase: Phase): Phase {
    match phase
    case Updating(job, todo, snapshot) => if todo == [] then phase else Updating(job, todo[1..], snapshot)
    case Entering(job, todo, gate, entered, snapshot) =>
      if todo == [] then phase else Entering(job, todo[1..], gate, entered, snapshot)
    case _ => phase
  }

  /** What an abort makes of an account that is not snapshotted: its memory under the rows of before. */
  lemma NotSnapshotted(z: Setup, w: World, a: Account)
    requires InBlock(w.phase) && a !in z.snapshotted && a in w.engines && AtRest(z, w.db, w.phase.snapshot, a)
    ensures AtRest(z, w.db, Aborted(z, w).engines, a) <==>
            Consistent(z.cfgs[a], w.engines[a].(trades := w.db.tables[a]))
  {
    hide Consistent;
    assert Aborted(z, w).engines[a] == w.engines[a].(trades := w.db.tables[a]);
  }

  lemma OthersUntouched(z: Setup, w: World, a: Account)
    requires InTurn(w) && TodoSound(w.phase) && a != w.phase.todo[0] && a in z.cfgs && a in w.phase.snapshot
    ensures var s := w.phase.snapshot[a];
            Untouched(z.cfgs[a], s, a, w.phase) <==> Untouched(z.cfgs[a], s, a, Passed(w.phase))
  {
    TodoSplit(w.phase.todo, a);
    hide BarLeaves, TakesEntry, Updated;
  }

  lemma TornTurnRests(z: Setup, w: World)
    requires InTurn(w) && TodoSound(w.phase) && InPlace(z, w, w.phase.todo[0])
    ensures var a := w.phase.todo[0];
            && a in z.cfgs && a in w.phase.snapshot && a in w.db.tables
            && (Consistent(z.cfgs[a], TornTurn(z, w).(trades := w.db.tables[a])) <==>
                Untouched(z.cfgs[a], w.phase.snapshot[a], a, Passed(w.phase)))
  {
    hide Consistent;
    var a := w.phase.todo[0];
    TodoSplit(w.phase.todo, a);
    if w.phase.Updating? {
      hide TornUpdate, BarLeaves, TakesEntry;
      TornUpdateRestsExactly(z.cfgs[a], w.phase.snapshot[a], w.phase.job);
    } else {
      TornEntryRests(z, w);
    }
  }

  lemma TornEntryRests(z: Setup, w: World)
    requires InTurn(w) && w.phase.Entering? && TodoSound(w.phase) && InPlace(z, w, w.phase.todo[0])
    ensures var a := w.phase.todo[0];
            && a in z.cfgs && a in w.phase.snapshot && a in w.db.tables
            && (Consistent(z.cfgs[a], TornTurn(z, w).(trades := w.db.tables[a])) <==>
                Untouched(z.cfgs[a], w.phase.snapshot[a], a, Passed(w.phase)))
  {
    hide Consistent, Updated, Entered, BarLeaves, TakesEntry;
    var a := w.phase.todo[0];
    TodoSplit(w.phase.todo, a);
    FinalRestsExactly(z.cfgs[a], w.phase.snapshot[a], a, w.phase.job, true);
  }

  /** When the row of the next account cannot be written, an account that was at rest when the attempt began is at rest
      again under the same condition as if the turn had passed. */
  lemma RowFailsExactly(z: Setup, w: World, a: Account)
    requires InTurn(w) && w.phase.todo[0] in z.cfgs && TodoSound(w.phase) && InPlace(z, w, a)
    ensures AtRest(z, w.db, Next(z, w, AbortInTurn(TornTurn(z, w))).engines, a) <==>
            a in z.snapshotted || Untouched(z.cfgs[a], w.phase.snapshot[a], a, Passed(w.phase))
  {
    var torn := TornTurn(z, w);
    var w' := w.(engines := w.engines[w.phase.todo[0] := torn]);
    assert a in w.engines;
    assert Next(z, w, AbortInTurn(torn)) == Aborted(z, w') && Next(z, w, Abort) == Aborted(z, w);
    RestsAtBegin(z, w, a);
    if a in z.snapshotted {
      hide Untouched, AtRest, SoFar, TornTurn, InPlace, Aborted;
      AbortRests(z, w', a);
      RestsNow(z, Aborted(z, w'), a);
    } else if a == w.phase.todo[0] {
      TornTurnRests(z, w);
      hide Untouched, AtRest, SoFar, TornTurn, InPlace, Aborted;
      NotSnapshotted(z, w', a);
    } else {
      AbortAgreesExactly(z, w, a);
      hide Untouched, AtRest, SoFar, TornTurn, InPlace, Aborted;
      OthersUntouched(z, w, a);
      NotSnapshotted(z, w, a);
      NotSnapshotted(z, w', a);
    }
  }

  lemma RestsNow(z: Setup, w: World, a: Account)
    requires InPlace(z, w, a) && w.phase.Ready?
    ensures AtRest(z, w.db, w.engines, a)
  {
    hide AtRest;
  }

  /** Bars that touch an account exist in every configuration: a long position and a bar that falls through its stop. */
  lemma StoppedOut(cfg: EngineConfig) returns (s: EngineState, job: Job)
    ensures Consistent(cfg, s) && BarExits(cfg, s, job.symbol, job.bar) != [] && !BarLeaves(cfg, s, job)
  {
    var core := PositionCore(
      "BTCUSDT", Hours(1), Long, 100.0, 90.0, 90.0, 110.0, 120.0, 1.0, 1.0, 10.0, 10, 0, Active, false, None, None,
      None, 0.0, 0.0);
    var p := Position(core, LOADED_DISPLAY);
    var trades := map["t" := RowOf(cfg, core)];
    s := EngineState(LoadedEquity(cfg, trades), map["t" := p], map[], trades);
    job := Job("BTCUSDT", Bar(95.0, 80.0, 85.0, 1), false, 3, map[]);
    HolderIsUnique(s.open, "t");
    assert BarDecision(cfg, core, job.bar).Exit?;
    hide LoadedEquity, RowOf;
  }

  // ---------- the invariant ----------

  /** The master is snapshotted, and only real accounts are. */
  ghost predicate Covered(z: Setup) {
    Proper(z) && MASTER in z.snapshotted && forall a :: a in z.snapshotted ==> a in z.cfgs
  }

  predicate AlertsDone(history: seq<Deed>, alerts: seq<Alert>) {
    forall i :: 0 <= i < |alerts| ==> KeyDone(history, alerts[i].key)
  }

  predicate AlertsOf(alerts: seq<Alert>, key: BarKey) {
    forall i :: 0 <= i < |alerts| ==> alerts[i].key == key
  }

  /** Queued alerts are those of the bar under way, or of completed bars once it is committed. */
  predicate AlertsInFlight(w: World) {
    && (InBlock(w.phase) ==> AlertsOf(w.pending, w.phase.job.Key()))
    && (w.phase.Entering? ==> AlertsOf(w.phase.entered, w.phase.job.Key()))
    && (w.phase.Sending? ==> AlertsDone(w.db.history, w.pending))
  }

  ghost predicate GateOfSnapshot(z: Setup, snapshot: Engines, job: Job, gate: bool) {
    MASTER in snapshot && MASTER in z.cfgs && gate == Gate(Updated(z.cfgs[MASTER], snapshot[MASTER], job), job)
  }

  ghost predicate GateSound(z: Setup, phase: Phase) {
    phase.Entering? || phase.Logging? || phase.Committing? ==> GateOfSnapshot(z, phase.snapshot, phase.job, phase.gate)
  }

  /** The committed rows of the snapshotted accounts are those of the commits, applied in order. */
  ghost predicate RowsReplayed(z: Setup, db: Db)
    requires Proper(z)
  {
    && db.tables.Keys == z.cfgs.Keys
    && forall a :: a in z.snapshotted && a in db.tables ==> Replayed(z, db.history, a, db.tables[a])
  }

  ghost predicate Replayed(z: Setup, history: seq<Deed>, a: Account, rows: TradeTable)
    requires Proper(z)
  {
    a in z.cfgs && rows == Replay(z, history)[a]
  }

  /** Every snapshotted account reloads into a consistent one. */
  ghost predicate Reloadable(z: Setup, db: Db) {
    forall a :: a in z.snapshotted && a in db.tables ==> Reloads(z, a, db.tables[a])
  }

  ghost predicate Reloads(z: Setup, a: Account, rows: TradeTable) {
    a in z.cfgs && Consistent(z.cfgs[a], Load(z.cfgs[a], rows))
  }

  ghost predicate AllInPlace(z: Setup, w: World) {
    forall a :: a in z.snapshotted ==> InPlace(z, w, a)
  }

  ghost predicate Inv(z: Setup, w: World)
    requires Covered(z)
  {
    && (!w.phase.Down? ==> w.engines.Keys == z.cfgs.Keys)
    && RowsReplayed(z, w.db) && Reloadable(z, w.db)
    && AlertsDone(w.db.history, w.sent) && AlertsInFlight(w)
    && TodoSound(w.phase) && GateSound(z, w.phase)
    && AllInPlace(z, w)
  }

  // ---------- every step keeps the invariant, unless it leaves a lost transaction ----------

  lemma AttemptKeepsAll(z: Setup, w: World, s: Step)
    requires Covered(z) && AllInPlace(z, w) && TodoSound(w.phase) && (s.Begin? || s.Advance? || s.Log?)
    ensures AllInPlace(z, Next(z, w, s))
  {
    hide InPlace, TodoSound, Next;
    forall a | a in z.snapshotted
      ensures InPlace(z, Next(z, w, s), a)
    {
      AttemptInPlace(z, w, s, a);
    }
  }

  lemma EntryAlertKeys(cfg: EngineConfig, s: EngineState, a: Account, job: Job)
    ensures AlertsOf(EntryAlerts(cfg, s, a, job), job.Key()) && AlertsOf(ExitAlerts(cfg, s, job), job.Key())
  {
    hide Entered, BarExits;
  }

  lemma AdvanceAlerts(z: Setup, w: World)
    requires AlertsInFlight(w)
    ensures AlertsInFlight(Advanced(z, w))
  {
    hide Entered, Updated, Gate, EntryAlerts, ExitAlerts, AlertsDone;
    if (w.phase.Updating? || w.phase.Entering?) && w.phase.todo != [] && w.phase.todo[0] in w.engines &&
      w.phase.todo[0] in z.cfgs {
      EntryAlertKeys(z.cfgs[w.phase.todo[0]], w.engines[w.phase.todo[0]], w.phase.todo[0], w.phase.job);
    }
  }

  lemma AdvanceGate(z: Setup, w: World)
    requires Covered(z) && GateSound(z, w.phase) && AllInPlace(z, w)
    ensures GateSound(z, Advanced(z, w).phase)
  {
    hide Entered, Updated, Gate, EntryAlerts, ExitAlerts, Consistent;
    assert InPlace(z, w, MASTER);
  }

  lemma AdvanceKeys(z: Setup, w: World)
    requires w.engines.Keys == z.cfgs.Keys
    ensures var w' := Advanced(z, w); w'.engines.Keys == z.cfgs.Keys && w'.db == w.db && w'.sent == w.sent
    ensures Advanced(z, w).phase.Down? <==> w.phase.Down?
  {
    hide Entered, Updated, Gate, EntryAlerts, ExitAlerts;
  }

  lemma AdvanceKeeps(z: Setup, w: World)
    requires Covered(z) && Inv(z, w)
    ensures Inv(z, Next(z, w, Advance))
  {
    hide RowsReplayed, Reloadable, AlertsDone, AlertsInFlight, GateSound, AllInPlace, TodoSound, Advanced;
    if w.phase.Down? {
      assert Advanced(z, w) == w by { DownStays(z, w); }
    } else {
      AdvanceKeys(z, w);
      AdvanceAlerts(z, w);
      AdvanceGate(z, w);
      StepTodo(z, w, Advance);
      AttemptKeepsAll(z, w, Advance);
    }
  }

  lemma DownStays(z: Setup, w: World)
    requires w.phase.Down?
    ensures Advanced(z, w) == w
  {
  }

  lemma BeginKeeps(z: Setup, w: World, job: Job)
    requires Covered(z) && Inv(z, w)
    ensures Inv(z, Next(z, w, Begin(job)))
  {
    hide RowsReplayed, Reloadable, AlertsDone, AllInPlace, GateOfSnapshot, KeyDone;
    AttemptKeepsAll(z, w, Begin(job));
  }

  lemma LogKeeps(z: Setup, w: World, outcome: LogOutcome)
    requires Covered(z) && Inv(z, w)
    ensures Inv(z, Next(z, w, Log(outcome)))
  {
    hide RowsReplayed, Reloadable, AlertsDone, AllInPlace, GateOfSnapshot, RowsBack, Completion, Covered, KeyDone,
         AlertsOf;
    if w.phase.Logging? {
      AttemptKeepsAll(z, w, Log(outcome));
      assert RowsBack(w.db, w.engines).Keys == w.engines.Keys by { RowsBackKeys(w.db, w.engines); }
    }
  }

  lemma RowsBackKeys(db: Db, engines: Engines)
    ensures RowsBack(db, engines).Keys == engines.Keys
  {
  }

  lemma SendKeeps(z: Setup, w: World, delivered: bool)
    requires Covered(z) && Inv(z, w)
    ensures Inv(z, Next(z, w, Send(delivered)))
  {
    hide RowsReplayed, Reloadable, KeyDone, AtRest, GateOfSnapshot;
    if w.phase.Sending? {
      var w' := Next(z, w, Send(delivered));
      forall a | a in z.snapshotted
        ensures InPlace(z, w', a)
      {
        assert InPlace(z, w, a);
      }
    }
  }

  lemma RollbackKeys(z: Setup, w: World, snapshot: Engines)
    ensures RolledBack(z, w, snapshot).Keys == w.engines.Keys
  {
  }

  lemma AbortedKeeps(z: Setup, w: World)
    requires Covered(z) && InBlock(w.phase) && w.engines.Keys == z.cfgs.Keys
    requires RowsReplayed(z, w.db) && Reloadable(z, w.db) && AlertsDone(w.db.history, w.sent)
    requires forall a :: a in z.snapshotted ==> AtRest(z, w.db, w.phase.snapshot, a)
    ensures Inv(z, Aborted(z, w))
  {
    hide RowsReplayed, Reloadable, AlertsDone, InPlace, RolledBack, AtRest;
    RollbackKeys(z, w, w.phase.snapshot);
    forall a | a in z.snapshotted
      ensures InPlace(z, Aborted(z, w), a)
    {
      AbortRests(z, w, a);
    }
  }

  lemma AbortKeeps(z: Setup, w: World)
    requires Covered(z) && Inv(z, w) && InBlock(w.phase)
    ensures Inv(z, Aborted(z, w))
  {
    hide RowsReplayed, Reloadable, AlertsDone, InPlace, Aborted, AtRest;
    forall a | a in z.snapshotted
      ensures AtRest(z, w.db, w.phase.snapshot, a)
    {
      RestsAtBegin(z, w, a);
    }
    AbortedKeeps(z, w);
  }

  lemma TornKeeps(z: Setup, w: World, torn: EngineState)
    requires Covered(z) && Inv(z, w) && InTurn(w)
    ensures Inv(z, Aborted(z, w.(engines := w.engines[w.phase.todo[0] := torn])))
  {
    hide RowsReplayed, Reloadable, AlertsDone, InPlace, Aborted, AtRest;
    forall a | a in z.snapshotted
      ensures AtRest(z, w.db, w.phase.snapshot, a)
    {
      RestsAtBegin(z, w, a);
    }
    AbortedKeeps(z, w.(engines := w.engines[w.phase.todo[0] := torn]));
  }

  lemma StalledKeys(z: Setup, w: World)
    requires w.phase.Committing?
    ensures var t := Stalled(z, w);
            t.engines.Keys == w.engines.Keys && t.db == w.db && t.sent == w.sent && t.pending == [] && t.phase == Stuck
  {
  }

  lemma StuckHolds(z: Setup, w: World)
    requires Covered(z) && w.phase.Stuck? && w.engines.Keys == z.cfgs.Keys && w.pending == []
    requires RowsReplayed(z, w.db) && Reloadable(z, w.db) && AlertsDone(w.db.history, w.sent)
    ensures Inv(z, w)
  {
    hide RowsReplayed, Reloadable, AlertsDone, AlertsOf, AtRest, SoFar, GateOfSnapshot, Distinct, Covered;
    forall a | a in z.snapshotted
      ensures InPlace(z, w, a)
    {
    }
  }

  lemma StallKeeps(z: Setup, w: World)
    requires Covered(z) && Inv(z, w) && w.phase.Committing?
    ensures Inv(z, Stalled(z, w))
  {
    hide RowsReplayed, Reloadable, AlertsDone, AlertsInFlight, TodoSound, GateSound, AllInPlace, Stalled;
    StalledKeys(z, w);
    StuckHolds(z, Stalled(z, w));
  }

  lemma CrashKeeps(z: Setup, w: World)
    requires Covered(z) && Inv(z, w)
    ensures Inv(z, Next(z, w, Crash))
  {
    hide RowsReplayed, Reloadable, AlertsDone;
  }

  lemma ReloadedKeys(z: Setup, tables: map<Account, TradeTable>)
    ensures Reloaded(z, tables).Keys == z.cfgs.Keys
  {
  }

  lemma LoadTrades(cfg: EngineConfig, trades: TradeTable)
    ensures Load(cfg, trades).trades == trades
  {
  }

  lemma RestartRests(z: Setup, db: Db, a: Account)
    requires a in z.cfgs && a in db.tables && Reloads(z, a, db.tables[a])
    ensures AtRest(z, db, Reloaded(z, db.tables), a)
  {
    hide Consistent;
    LoadTrades(z.cfgs[a], db.tables[a]);
  }

  lemma RestartKeeps(z: Setup, w: World)
    requires Covered(z) && Inv(z, w)
    ensures Inv(z, Next(z, w, Restart))
  {
    hide AlertsDone, Consistent, Reloaded, Replayed, Reloads, AtRest;
    if w.phase.Down? {
      var w' := Next(z, w, Restart);
      ReloadedKeys(z, w.db.tables);
      forall a | a in z.snapshotted
        ensures InPlace(z, w', a)
      {
        RestartRests(z, w.db, a);
      }
    }
  }

  // ---------- commits ----------

  lemma SelfSame(cfg: EngineConfig, s: EngineState)
    ensures Same(cfg, s, s) <==> Consistent(cfg, s)
  {
    hide Consistent;
  }

  lemma FinalKeeps(cfg: EngineConfig, s: EngineState, a: Account, job: Job, gate: bool)
    requires Consistent(cfg, s)
    ensures Consistent(cfg, Final(cfg, s, a, job, gate))
  {
    hide Same, Final;
    assert Same(cfg, s, s) by { SelfSame(cfg, s); }
    FinalRespects(cfg, s, s, a, job, gate);
    SelfSame(cfg, Final(cfg, s, a, job, gate));
  }

  /** One account's rows after a bar, from memory or from a reload. */
  lemma FinalFromRows(cfg: EngineConfig, s: EngineState, a: Account, job: Job, gate: bool)
    requires Consistent(cfg, s)
    ensures Final(cfg, s, a, job, gate).trades == Final(cfg, Load(cfg, s.trades), a, job, gate).trades
    ensures Gate(Updated(cfg, s, job), job) == Gate(Updated(cfg, Load(cfg, s.trades), job), job)
  {
    hide Consistent, Load, Final, Updated, Gate;
    PaperRestart.ReloadIsSame(cfg, s);
    FinalRespects(cfg, s, Load(cfg, s.trades), a, job, gate);
    UpdatedRespects(cfg, s, Load(cfg, s.trades), job);
    GateRespects(cfg, Updated(cfg, s, job), Updated(cfg, Load(cfg, s.trades), job), job);
  }

  lemma ReplayGrows(z: Setup, history: seq<Deed>, d: Deed)
    requires Proper(z)
    ensures Replay(z, history + [d]) == ReplayOne(z, Replay(z, history), d)
  {
    hide ReplayOne;
    assert (history + [d])[..|history|] == history;
  }

  lemma ReplayBar(z: Setup, history: seq<Deed>, job: Job, a: Account)
    requires Proper(z) && a in z.cfgs
    ensures var before := Replay(z, history);
            Replay(z, history + [BarDone(job)])[a] ==
            Final(z.cfgs[a], Load(z.cfgs[a], before[a]), a, job, MasterGate(z, before, job)).trades
  {
    hide Final, Load, MasterGate, Replay;
    ReplayGrows(z, history, BarDone(job));
  }

  lemma CommittedRows(z: Setup, db: Db, snapshot: Engines, job: Job, gate: bool, a: Account, s: EngineState)
    requires Proper(z) && RowsReplayed(z, db) && a in z.snapshotted && MASTER in z.snapshotted
    requires AtRest(z, db, snapshot, a) && AtRest(z, db, snapshot, MASTER)
    requires GateOfSnapshot(z, snapshot, job, gate)
    requires s == Final(z.cfgs[a], snapshot[a], a, job, gate)
    ensures Replayed(z, db.history + [BarDone(job)], a, s.trades)
    ensures Consistent(z.cfgs[a], s) && Reloads(z, a, s.trades)
  {
    hide Consistent, Load, Gate, Final, Updated, Replay;
    assert Replayed(z, db.history, a, db.tables[a]) && Replayed(z, db.history, MASTER, db.tables[MASTER]);
    FinalFromRows(z.cfgs[MASTER], snapshot[MASTER], MASTER, job, gate);
    FinalFromRows(z.cfgs[a], snapshot[a], a, job, gate);
    FinalKeeps(z.cfgs[a], snapshot[a], a, job, gate);
    LoadKeeps(z.cfgs[a], s);
    ReplayBar(z, db.history, job, a);
  }

  ghost predicate CommittedAccount(z: Setup, w: World, a: Account)
    requires Proper(z) && w.phase.Committing?
  {
    && a in z.cfgs && a in w.engines
    && Replayed(z, w.db.history + [BarDone(w.phase.job)], a, w.engines[a].trades)
    && Consistent(z.cfgs[a], w.engines[a]) && Reloads(z, a, w.engines[a].trades)
  }

  lemma AlertsStay(history: seq<Deed>, d: Deed, alerts: seq<Alert>)
    requires AlertsDone(history, alerts)
    ensures AlertsDone(history + [d], alerts)
  {
    hide KeyDone;
    forall i | 0 <= i < |alerts|
      ensures KeyDone(history + [d], alerts[i].key)
    {
      KeyDoneGrows(history, d, alerts[i].key);
    }
  }

  lemma CommittedAlerts(history: seq<Deed>, job: Job, sent: seq<Alert>, pending: seq<Alert>)
    requires AlertsDone(history, sent) && AlertsOf(pending, job.Key())
    ensures AlertsDone(history + [BarDone(job)], sent) && AlertsDone(history + [BarDone(job)], pending)
  {
    hide KeyDone;
    AlertsStay(history, BarDone(job), sent);
    KeyDoneGrows(history, BarDone(job), job.Key());
  }

  lemma CommitHolds(z: Setup, w: World)
    requires Covered(z) && w.phase.Committing? && w.engines.Keys == z.cfgs.Keys
    requires forall a :: a in z.snapshotted ==> CommittedAccount(z, w, a)
    requires AlertsDone(w.db.history + [BarDone(w.phase.job)], w.sent)
    requires AlertsDone(w.db.history + [BarDone(w.phase.job)], w.pending)
    ensures Inv(z, Left(w))
  {
    hide AlertsDone, Consistent, Replayed, Reloads;
    var w' := Left(w);
    forall a | a in z.snapshotted
      ensures a in w'.db.tables && Replayed(z, w'.db.history, a, w'.db.tables[a]) && Reloads(z, a, w'.db.tables[a])
      ensures InPlace(z, w', a)
    {
      assert CommittedAccount(z, w, a);
    }
  }

  lemma CommitKeeps(z: Setup, w: World)
    requires Covered(z) && Inv(z, w) && w.phase.Committing?
    ensures Inv(z, Left(w))
  {
    hide AlertsDone, Consistent, Gate, Final, Updated, Replayed, Reloads, GateOfSnapshot;
    CommittedAlerts(w.db.history, w.phase.job, w.sent, w.pending);
    assert InPlace(z, w, MASTER);
    forall a | a in z.snapshotted
      ensures CommittedAccount(z, w, a)
    {
      assert InPlace(z, w, a);
      CommittedRows(z, w.db, w.phase.snapshot, w.phase.job, w.phase.gate, a, w.engines[a]);
    }
    CommitHolds(z, w);
  }

  // ---------- commands ----------

  /** One account's rows after a command, from memory or from a reload. */
  lemma CommandedFromRows(cfg: EngineConfig, s: EngineState, a: Account, d: Deed)
    requires Consistent(cfg, s)
    ensures Consistent(cfg, Commanded(cfg, s, a, d))
    ensures Commanded(cfg, s, a, d).trades == Commanded(cfg, Load(cfg, s.trades), a, d).trades
  {
    hide Consistent, Load, Commanded;
    PaperRestart.ReloadIsSame(cfg, s);
    CommandedRespects(cfg, s, Load(cfg, s.trades), a, d);
  }

  lemma ReplayCommand(z: Setup, history: seq<Deed>, d: Deed, a: Account)
    requires Proper(z) && a in z.cfgs && !d.BarDone?
    ensures Replay(z, history + [d])[a] == Commanded(z.cfgs[a], Load(z.cfgs[a], Replay(z, history)[a]), a, d).trades
  {
    hide Load, Replay, Commanded;
    ReplayGrows(z, history, d);
  }

  lemma CommandedRows(z: Setup, db: Db, s: EngineState, a: Account, d: Deed)
    requires Proper(z) && a in z.cfgs && !d.BarDone? && Consistent(z.cfgs[a], s) && Replayed(z, db.history, a, s.trades)
    ensures var t := Commanded(z.cfgs[a], s, a, d);
            Consistent(z.cfgs[a], t) && Replayed(z, db.history + [d], a, t.trades) && Reloads(z, a, t.trades)
  {
    hide Consistent, Load, Commanded, Replay;
    CommandedFromRows(z.cfgs[a], s, a, d);
    LoadKeeps(z.cfgs[a], Commanded(z.cfgs[a], s, a, d));
    ReplayCommand(z, db.history, d, a);
  }

  /** An account that can be committed with this history. */
  ghost predicate Committable(z: Setup, engines: Engines, history: seq<Deed>, a: Account)
    requires Proper(z)
  {
    && a in engines && a in z.cfgs && Consistent(z.cfgs[a], engines[a])
    && Replayed(z, history, a, engines[a].trades) && Reloads(z, a, engines[a].trades)
  }

  lemma CommandedAccount(z: Setup, w: World, d: Deed, a: Account)
    requires Covered(z) && Inv(z, w) && w.phase.Ready? && !d.BarDone? && a in z.snapshotted
    ensures Committable(z, AllCommanded(z, w.engines, d), w.db.history + [d], a)
  {
    hide Consistent, Replayed, Reloads, Commanded, AlertsDone, Reloadable;
    assert InPlace(z, w, a);
    CommandedRows(z, w.db, w.engines[a], a, d);
  }

  lemma CommandedKeys(z: Setup, engines: Engines, d: Deed)
    ensures AllCommanded(z, engines, d).Keys == engines.Keys
    ensures Tables(AllCommanded(z, engines, d)).Keys == engines.Keys
  {
    hide Commanded;
  }

  lemma CommittableRests(z: Setup, db: Db, engines: Engines, a: Account)
    requires Covered(z) && Committable(z, engines, db.history, a) && a in db.tables && db.tables[a] == engines[a].trades
    ensures AtRest(z, db, engines, a) && Replayed(z, db.history, a, db.tables[a]) && Reloads(z, a, db.tables[a])
  {
    hide Consistent, Replayed, Reloads;
  }

  /** Between attempts the invariant is about the accounts and the alerts that were sent. */
  lemma ReadyHolds(z: Setup, w: World)
    requires Covered(z) && w.phase.Ready? && w.engines.Keys == z.cfgs.Keys == w.db.tables.Keys
    requires AlertsDone(w.db.history, w.sent)
    requires forall a :: a in z.snapshotted ==>
               a in w.engines && Committable(z, w.engines, w.db.history, a) && w.db.tables[a] == w.engines[a].trades
    ensures Inv(z, w)
  {
    hide Committable, AtRest, Replayed, Reloads, AlertsDone;
    forall a | a in z.snapshotted
      ensures AtRest(z, w.db, w.engines, a)
      ensures Replayed(z, w.db.history, a, w.db.tables[a]) && Reloads(z, a, w.db.tables[a])
    {
      CommittableRests(z, w.db, w.engines, a);
    }
  }

  lemma CommandHolds(z: Setup, w: World, d: Deed)
    requires Covered(z) && Inv(z, w) && w.phase.Ready? && !d.BarDone?
    ensures var engines := AllCommanded(z, w.engines, d);
            Inv(z, w.(engines := engines, db := Db(Tables(engines), w.bars, w.db.history + [d])))
  {
    assert w.engines.Keys == z.cfgs.Keys && AlertsDone(w.db.history, w.sent);
    hide Inv, Committable, AllCommanded, AlertsDone, Covered, Replay;
    var engines := AllCommanded(z, w.engines, d);
    CommandedKeys(z, w.engines, d);
    AlertsStay(w.db.history, d, w.sent);
    forall a | a in z.snapshotted
      ensures Committable(z, engines, w.db.history + [d], a) && a in engines
    {
      CommandedAccount(z, w, d, a);
      CommittableKnown(z, engines, w.db.history + [d], a);
    }
    ReadyHolds(z, w.(engines := engines, db := Db(Tables(engines), w.bars, w.db.history + [d])));
  }

  lemma CommittableKnown(z: Setup, engines: Engines, history: seq<Deed>, a: Account)
    requires Proper(z) && Committable(z, engines, history, a)
    ensures a in engines
  {
    hide Consistent, Replayed, Reloads;
  }

  lemma ApplyKeeps(z: Setup, w: World, c: Command)
    requires Covered(z) && Inv(z, w) && w.phase.Ready?
    ensures Inv(z, Applied(z, w, c))
  {
    hide Inv, Covered, AllCommanded, HolderAccount, Tables;
    var d := DeedOf(z, w.engines, c);
    if d.Some? { CommandHolds(z, w, d.value); }
  }

  // ---------- lost transactions ----------

  /** The bar queued no alert and left every snapshotted account alone. */
  ghost predicate LossIsHarmless(z: Setup, w: World)
    requires w.phase.Lost?
  {
    && w.pending == []
    && forall a :: a in z.snapshotted && a in z.cfgs && a in w.phase.snapshot ==>
         Untouched(z.cfgs[a], w.phase.snapshot[a], a, w.phase)
  }

  lemma LostAccount(z: Setup, w: World, a: Account)
    requires w.phase.Lost? && InPlace(z, w, a)
    ensures a in z.cfgs && a in w.phase.snapshot
    ensures AtRest(z, w.db, w.engines, a) <==> Untouched(z.cfgs[a], w.phase.snapshot[a], a, w.phase)
  {
    hide Consistent, SoFar, Untouched;
    SoFarRestsExactly(z.cfgs[a], w.phase.snapshot[a], a, w.phase);
  }

  lemma DoneHasRow(db: Db, key: BarKey)
    requires BarsDone(db)
    ensures KeyDone(db.history, key) ==> key in db.bars
  {
  }

  lemma LostAlerts(db: Db, pending: seq<Alert>, key: BarKey)
    requires BarsDone(db) && key !in db.bars && AlertsOf(pending, key)
    ensures AlertsDone(db.history, pending) <==> pending == []
  {
    DoneHasRow(db, key);
    hide KeyDone;
    if pending != [] { assert pending[0].key == key; }
  }

  /** Leaving a lost transaction keeps the invariant exactly when the loss is harmless: otherwise memory says what the
      rows do not, or an alert goes out for a bar that was never completed. */
  lemma LossKeepsExactly(z: Setup, w: World)
    requires Covered(z) && Bookkeeping(w) && Inv(z, w) && w.phase.Lost?
    ensures Inv(z, Next(z, w, Commit)) <==> LossIsHarmless(z, w)
  {
    hide Untouched, BarsDone, RowsReplayed, Reloadable, AtRest, SoFar, AlertsDone;
    var w' := w.(phase := Sending);
    assert Next(z, w, Commit) == w';
    LostAlerts(w.db, w.pending, w.phase.job.Key());
    forall a | a in z.snapshotted
      ensures a in z.cfgs && a in w.phase.snapshot
      ensures InPlace(z, w', a) <==> Untouched(z.cfgs[a], w.phase.snapshot[a], a, w.phase)
    {
      assert InPlace(z, w, a);
      LostAccount(z, w, a);
    }
    hide InPlace, GateOfSnapshot;
  }

  lemma StepKeeps(z: Setup, w: World, s: Step)
    requires Covered(z) && Bookkeeping(w) && Inv(z, w)
    requires s.Commit? && w.phase.Lost? ==> LossIsHarmless(z, w)
    ensures Inv(z, Next(z, w, s))
  {
    hide Inv, Covered, LossIsHarmless, Bookkeeping, Aborted, Applied, InTurn, Stalled;
    match s
    case Begin(job) => BeginKeeps(z, w, job);
    case Advance => AdvanceKeeps(z, w);
    case Log(outcome) => LogKeeps(z, w, outcome);
    case Commit =>
      if w.phase.Committing? { CommitKeeps(z, w); }
      if w.phase.Lost? { LossKeepsExactly(z, w); }
    case Send(delivered) => SendKeeps(z, w, delivered);
    case CommitStalls => if w.phase.Committing? { StallKeeps(z, w); }
    case Abort => if InBlock(w.phase) { AbortKeeps(z, w); }
    case AbortInTurn(torn) => if InTurn(w) { TornKeeps(z, w, torn); }
    case Apply(c) => if w.phase.Ready? { ApplyKeeps(z, w, c); }
    case Crash => CrashKeeps(z, w);
    case Restart => RestartKeeps(z, w);
  }

  /** After a COMMIT that stalled nothing is committed and nothing sent until the process dies, and the restarted one is
      loaded from the rows of before the bar. */
  lemma StuckUntilCrash(z: Setup, w: World, s: Step)
    requires w.phase.Stuck?
    ensures Next(z, w, s) ==
            if s.Crash? then w.(engines := map[], bars := w.db.bars, phase := Down, pending := []) else w
    ensures var up := Next(z, Next(z, w, Crash), Restart);
            up.phase.Ready? && up.db == w.db && up.engines == Reloaded(z, w.db.tables)
  {
    hide Reloaded, RolledBack;
  }

  lemma FreshHolds(z: Setup)
    requires Covered(z)
    ensures Inv(z, Fresh(z))
  {
    forall a | a in z.snapshotted
      ensures Consistent(z.cfgs[a], Load(z.cfgs[a], map[]))
    {
      ResetKeeps(z.cfgs[a], Load(z.cfgs[a], map[]));
      LoadKeeps(z.cfgs[a], ResetStep(z.cfgs[a], Load(z.cfgs[a], map[])));
    }
    hide Consistent, Load;
  }

  /** No transaction of the run is lost with anything in it that matters. */
  ghost predicate LossesAreHarmless(z: Setup, steps: seq<Step>) {
    forall n :: 0 <= n < |steps| && steps[n].Commit? ==>
      var w := Run(z, Fresh(z), steps[..n]); w.phase.Lost? ==> LossIsHarmless(z, w)
  }

  lemma {:induction false} RunKeeps(z: Setup, steps: seq<Step>)
    requires Covered(z) && LossesAreHarmless(z, steps)
    ensures Inv(z, Run(z, Fresh(z), steps))
  {
    hide Inv, Covered, Next, Fresh, LossIsHarmless, Bookkeeping;
    if steps == [] {
      FreshHolds(z);
    } else {
      var front, last := steps[..|steps| - 1], steps[|steps| - 1];
      forall n | 0 <= n < |front| && front[n].Commit?
        ensures var w := Run(z, Fresh(z), front[..n]); w.phase.Lost? ==> LossIsHarmless(z, w)
      {
        assert front[n] == steps[n] && front[..n] == steps[..n];
      }
      RunKeeps(z, front);
      RunBooks(z, front);
      StepKeeps(z, Run(z, Fresh(z), front), last);
    }
  }

  /** Over any run of attempts, commands, aborts, crashes, restarts and harmless losses: the committed trades of a
      snapshotted account are those of the commits, bars and commands, applied one after the other; only alerts of
      completed bars have been sent; and between attempts the account in memory is the one its rows load into.
      `BarsCompleteOnce` adds, for every run, that each bar is completed once and none is left 'processing'. */
  lemma BarsTakeEffectOnce(z: Setup, steps: seq<Step>, a: Account)
    requires Covered(z) && a in z.snapshotted && LossesAreHarmless(z, steps)
    ensures var w := Run(z, Fresh(z), steps);
            && Replayed(z, w.db.history, a, if a in w.db.tables then w.db.tables[a] else map[])
            && AlertsDone(w.db.history, w.sent)
            && (w.phase.Ready? ==>
                  && a in w.engines && a in w.db.tables
                  && Same(z.cfgs[a], w.engines[a], Load(z.cfgs[a], w.db.tables[a])))
  {
    hide Next, Fresh, Replayed, Consistent, Load, AlertsDone;
    RunKeeps(z, steps);
    var w := Run(z, Fresh(z), steps);
    assert InPlace(z, w, a);
    if w.phase.Ready? {
      PaperRestart.ReloadIsSame(z.cfgs[a], w.engines[a]);
    }
  }

  /** Without lost transactions every run qualifies. */
  lemma {:induction false} NothingLost(z: Setup, steps: seq<Step>)
    requires forall n :: 0 <= n < |steps| ==> steps[n] != Log(TransactionLost)
    ensures !Run(z, Fresh(z), steps).phase.Lost? && LossesAreHarmless(z, steps)
  {
    hide LossIsHarmless;
    if steps != [] {
      hide Fresh;
      var front, last := steps[..|steps| - 1], steps[|steps| - 1];
      assert forall n :: 0 <= n < |front| ==> front[n] == steps[n];
      NothingLost(z, front);
      NotLostByStep(z, Run(z, Fresh(z), front), last);
      hide Next;
      forall n | 0 <= n < |steps| && steps[n].Commit?
        ensures !Run(z, Fresh(z), steps[..n]).phase.Lost?
      {
        NothingLost(z, steps[..n]);
      }
    }
  }

  lemma NotLostByStep(z: Setup, w: World, s: Step)
    requires !w.phase.Lost? && s != Log(TransactionLost)
    ensures !Next(z, w, s).phase.Lost?
  {
  }

  // ---------- an attempt that loses what matters ----------

  /** An attempt that has updated the first k accounts; once the master's turn is over, its alert is queued. */
  ghost predicate Stopping(z: Setup, w: World, job: Job, k: nat, u: World)
    requires k <= |z.accounts|
  {
    && u.phase == Updating(job, z.accounts[k..], w.engines)
    && u.engines.Keys == z.cfgs.Keys && u.db == w.db && u.bars == w.bars[job.Key() := Processing]
    && InPlace(z, u, MASTER)
    && (MASTER !in z.accounts[k..] ==> u.pending != [])
  }

  lemma {:induction false} UpdatesRun(z: Setup, w: World, job: Job, k: nat, begun: World)
    requires Covered(z) && k <= |z.accounts| && Stopping(z, w, job, 0, begun) && MASTER in w.engines
    requires BarExits(z.cfgs[MASTER], w.engines[MASTER], job.symbol, job.bar) != []
    ensures Stopping(z, w, job, k, Run(z, begun, Advances(k)))
  {
    hide *;
    if k == 0 {
      NoAdvance(z, begun);
    } else {
      UpdatesRun(z, w, job, k - 1, begun);
      OneMoreAdvance(z, begun, k - 1);
      OneUpdate(z, w, job, k - 1, Run(z, begun, Advances(k - 1)));
    }
  }

  lemma OneUpdate(z: Setup, w: World, job: Job, k: nat, u: World)
    requires Covered(z) && k < |z.accounts| && Stopping(z, w, job, k, u) && MASTER in w.engines
    requires BarExits(z.cfgs[MASTER], w.engines[MASTER], job.symbol, job.bar) != []
    ensures Stopping(z, w, job, k + 1, Advanced(z, u))
  {
    var todo := z.accounts[k..];
    assert todo[0] == z.accounts[k] && todo[1..] == z.accounts[k + 1..];
    TodoSplit(todo, MASTER);
    TodoOf(z, u, todo);
    UpdateInPlace(z, u, MASTER);
    if todo[0] == MASTER { TurnOfMaster(z, u, w); }
    OneTurn(z, u);
    hide InPlace, Advanced, BarExits, Covered;
    assert todo[0] == MASTER ==> Advanced(z, u).pending != [];
  }

  /** What a turn does besides the account's own update. */
  lemma OneTurn(z: Setup, u: World)
    requires u.phase.Updating? && u.phase.todo != [] && u.phase.todo[0] in z.cfgs && u.engines.Keys == z.cfgs.Keys
    ensures var v, a := Advanced(z, u), u.phase.todo[0];
            && v.phase == Updating(u.phase.job, u.phase.todo[1..], u.phase.snapshot)
            && v.engines.Keys == z.cfgs.Keys && v.db == u.db && v.bars == u.bars
            && (u.pending != [] ==> v.pending != [])
            && (BarExits(z.cfgs[a], u.engines[a], u.phase.job.symbol, u.phase.job.bar) != [] ==> v.pending != [])
  {
    hide Updated, BarExits;
  }

  lemma TodoOf(z: Setup, u: World, todo: seq<Account>)
    requires Covered(z) && u.phase.Updating? && u.phase.todo == todo && Distinct(todo)
    ensures TodoSound(u.phase)
  {
  }

  /** Before its turn the master is as it was. */
  lemma TurnOfMaster(z: Setup, u: World, w: World)
    requires u.phase.Updating? && MASTER in u.phase.todo && InPlace(z, u, MASTER) && u.phase.snapshot == w.engines
    ensures MASTER in u.engines && MASTER in w.engines && u.engines[MASTER] == w.engines[MASTER]
  {
    hide Consistent;
  }

  lemma BeginRun(z: Setup, w: World, job: Job)
    ensures Run(z, w, [Begin(job)]) == Next(z, w, Begin(job))
  {
    hide Next;
    RunOne(z, w, [], Begin(job));
    assert [] + [Begin(job)] == [Begin(job)] && Run(z, w, []) == w;
  }

  lemma BeginStops(z: Setup, w: World, job: Job)
    requires Covered(z) && InPlace(z, w, MASTER) && w.phase.Ready? && job.Key() !in w.bars
    requires w.engines.Keys == z.cfgs.Keys
    ensures Stopping(z, w, job, 0, Next(z, w, Begin(job)))
  {
    BeginInPlace(z, w, job, MASTER);
    hide InPlace;
    assert z.accounts[0..] == z.accounts;
  }

  lemma UpdatesToLog(z: Setup, w: World, u: World, job: Job)
    requires Covered(z) && Stopping(z, w, job, |z.accounts|, u) && !job.canOpen
    ensures var logging := Advanced(z, Advanced(z, u));
            && logging == u.(phase := Logging(job, false, w.engines)) && InPlace(z, logging, MASTER)
            && logging.db == w.db && logging.pending != []
  {
    hide Advanced, InPlace;
    assert z.accounts[|z.accounts|..] == [];
    GateStaysShut(z, u, job);
    StaysInPlace(z, u);
  }

  lemma StaysInPlace(z: Setup, u: World)
    requires u.phase.Updating? && u.phase.todo == [] && InPlace(z, u, MASTER)
    ensures InPlace(z, u.(phase := Logging(u.phase.job, false, u.phase.snapshot)), MASTER)
  {
    hide Consistent, Updated;
  }

  lemma GateStaysShut(z: Setup, u: World, job: Job)
    requires u.phase.Updating? && u.phase.todo == [] && u.phase.job == job && !job.canOpen
    ensures Advanced(z, Advanced(z, u)) == u.(phase := Logging(job, false, u.phase.snapshot))
  {
    hide Updated, Entered;
    assert u.pending + [] == u.pending;
  }

  /** The attempt up to its log. */
  lemma StopOutToLog(z: Setup, w: World, job: Job)
    requires Covered(z) && InPlace(z, w, MASTER) && w.phase.Ready? && job.Key() !in w.bars && !job.canOpen
    requires w.engines.Keys == z.cfgs.Keys && BarExits(z.cfgs[MASTER], w.engines[MASTER], job.symbol, job.bar) != []
    ensures var logging := Run(z, w, [Begin(job)] + Advances(|z.accounts| + 2));
            && logging.phase == Logging(job, false, w.engines) && InPlace(z, logging, MASTER)
            && logging.db == w.db && logging.pending != []
  {
    var n := |z.accounts|;
    var begun := Next(z, w, Begin(job));
    BeginStops(z, w, job);
    hide *;
    UpdatesRun(z, w, job, n, begun);
    var u := Run(z, begun, Advances(n));
    UpdatesToLog(z, w, u, job);
    OneMoreAdvance(z, begun, n);
    OneMoreAdvance(z, begun, n + 1);
    BeginRun(z, w, job);
    RunJoin(z, w, [Begin(job)], Advances(n + 2));
  }

  /** The failing attempt: entries are not allowed, the bar closes the master's position, and writing the decision log
      loses the transaction. Nothing is raised; memory says closed, the row says open, an alert goes out, and the bar
      was never completed. */
  lemma LostStopOut(z: Setup, w: World, job: Job)
    requires Covered(z) && Bookkeeping(w) && Inv(z, w) && w.phase.Ready? && job.Key() !in w.bars && !job.canOpen
    requires MASTER in w.engines && BarExits(z.cfgs[MASTER], w.engines[MASTER], job.symbol, job.bar) != []
    ensures var steps := [Begin(job)] + Advances(|z.accounts| + 2) + [Log(TransactionLost)] + [Commit];
            var after := Run(z, w, steps);
            && after.phase.Sending? && after.pending != [] && job.Key() !in after.db.bars
            && !AtRest(z, after.db, after.engines, MASTER)
  {
    MasterReady(z, w);
    hide Inv, Bookkeeping, InPlace, AtRest, BarExits, Run, Next, Advances;
    var steps := [Begin(job)] + Advances(|z.accounts| + 2);
    var logging := Run(z, w, steps);
    StopOutToLog(z, w, job);
    LogLoses(z, logging);
    LogInPlace(z, logging, TransactionLost, MASTER);
    ExitTouches(z.cfgs[MASTER], w.engines[MASTER], job);
    var lost := Next(z, logging, Log(TransactionLost));
    LostExit(z, lost);
    NothingCompleted(z, lost);
    RunOne(z, w, steps, Log(TransactionLost));
    RunOne(z, w, steps + [Log(TransactionLost)], Commit);
  }

  lemma MasterReady(z: Setup, w: World)
    requires Covered(z) && Bookkeeping(w) && Inv(z, w) && w.phase.Ready?
    ensures InPlace(z, w, MASTER) && w.engines.Keys == z.cfgs.Keys && w.bars == w.db.bars
    ensures MASTER in z.cfgs && MASTER in w.engines && Consistent(z.cfgs[MASTER], w.engines[MASTER])
  {
    hide RowsReplayed, Reloadable, AlertsDone, BarsDone, Consistent;
    assert InPlace(z, w, MASTER);
  }

  lemma LogLoses(z: Setup, w: World)
    requires w.phase.Logging?
    ensures var lost := Next(z, w, Log(TransactionLost));
            && lost.phase == Lost(w.phase.job, w.phase.gate, w.phase.snapshot) && lost.bars == lost.db.bars == w.db.bars
            && lost.db == w.db && lost.pending == w.pending
  {
    hide RowsBack;
  }

  lemma LostExit(z: Setup, w: World)
    requires w.phase.Lost? && InPlace(z, w, MASTER) && MASTER in z.cfgs && MASTER in w.phase.snapshot
    requires !BarLeaves(z.cfgs[MASTER], w.phase.snapshot[MASTER], w.phase.job)
    ensures !AtRest(z, w.db, w.engines, MASTER)
  {
    hide InPlace, AtRest, BarLeaves, TakesEntry, Updated, EntryApplied;
    LostAccount(z, w, MASTER);
  }

  lemma NothingCompleted(z: Setup, w: World)
    requires w.phase.Lost? && w.bars == w.db.bars && w.phase.job.Key() !in w.db.bars
    ensures Next(z, w, Commit) == w.(phase := Sending)
  {
    hide Advanced, RolledBack, Reloaded, Claimed, LogDone;
  }

  lemma ExitTouches(cfg: EngineConfig, s: EngineState, job: Job)
    requires BarExits(cfg, s, job.symbol, job.bar) != [] && Consistent(cfg, s)
    ensures !BarLeaves(cfg, s, job)
  {
    HolderHasSymbol(s.open, job.symbol);
    if HolderOf(s.open, job.symbol).Some? {
      LiveRowOf(cfg, s, HolderOf(s.open, job.symbol).value);
      AfterBarIsLive(cfg, s.open[HolderOf(s.open, job.symbol).value], job.bar);
    }
    hide Consistent, AfterBar, RowOf, BarNet;
  }
}
