/** Closed bars under aborts, lost transactions and crashes (aura/runner/worker.py): a bar is claimed, applied to every
    account, logged and completed in one transaction; the memory of the snapshotted accounts is put back when it aborts.
    Between bars an operator may close a trade or reset an account. The set of snapshotted accounts is a parameter. */
module WorkerBars {
  import opened Wrappers
  import opened Positions
  import opened PaperLedger
  import PaperRestart

  type Account = string

  const MASTER: Account := "master"

  datatype BarKey = BarKey(symbol: string, openTime: int)

  /** What an account would open on a bar, and whether the liquidity gate lets it. */
  datatype Opening = Opening(id: TradeId, request: PlanRequest, timeframe: Timeframe, score: real, verified: bool)

  /** A closed bar with everything its processing reads from outside. */
  datatype Job = Job(symbol: string, bar: Bar, canOpen: bool, maxOpen: int, openings: map<Account, Opening>) {
    function Key(): BarKey {
      BarKey(symbol, bar.time)
    }
  }

  datatype Decision = Processing | Completed

  /** A commit: a bar on every account, a manual close on one, or a reset of one. */
  datatype Deed =
    | BarDone(job: Job)
    | CloseDone(account: Account, id: TradeId, reason: string, time: int)
    | ResetDone(account: Account)

  /** The committed rows: trades by account and processed bars, and the order of the commits. */
  datatype Db = Db(tables: map<Account, TradeTable>, bars: map<BarKey, Decision>, history: seq<Deed>)

  datatype Alert = Alert(key: BarKey, core: PositionCore)

  type Engines = map<Account, EngineState>

  datatype Phase =
    | Down
    | Ready
    | Updating(job: Job, todo: seq<Account>, snapshot: Engines)
    | Entering(job: Job, todo: seq<Account>, gate: bool, entered: seq<Alert>, snapshot: Engines)
    | Logging(job: Job, gate: bool, snapshot: Engines)
    | Committing(job: Job, gate: bool, snapshot: Engines)
    | Lost(job: Job, gate: bool, snapshot: Engines)
    | Sending
    | Stuck

  /** `bars` are the rows the open transaction sees; the trades it sees are in the engines. */
  datatype World = World(
    db: Db, engines: Engines, bars: map<BarKey, Decision>, phase: Phase, pending: seq<Alert>, sent: seq<Alert>)

  datatype Setup = Setup(cfgs: map<Account, EngineConfig>, accounts: seq<Account>, snapshotted: set<Account>)

  ghost predicate Proper(z: Setup) {
    && MASTER in z.accounts
    && (forall i, j :: 0 <= i < j < |z.accounts| ==> z.accounts[i] != z.accounts[j])
    && forall a :: a in z.accounts <==> a in z.cfgs
  }

  // ---------- one bar on one account ----------

  ghost function Updated(cfg: EngineConfig, s: EngineState, job: Job): EngineState {
    BarStep(cfg, s, job.symbol, job.bar)
  }

  /** Entries are looked at only if the master account has room and no position in the symbol. */
  predicate Gate(master: EngineState, job: Job) {
    job.canOpen && |master.open| < job.maxOpen &&
      forall id :: id in master.open ==> master.open[id].core.symbol != job.symbol
  }

  function OpeningOf(a: Account, job: Job): Option<Opening> {
    if a in job.openings && job.openings[a].verified then Some(job.openings[a]) else None
  }

  /** An account's own entry; trade ids are never used twice. */
  function Entered(cfg: EngineConfig, s: EngineState, a: Account, job: Job): EngineState {
    var o := OpeningOf(a, job);
    if o.None? || |s.open| >= job.maxOpen || o.value.id in s.trades then s
    else
      OpenStep(cfg, s, o.value.id, CreateExecutionPlan(cfg, s.equity, o.value.request), o.value.timeframe,
               o.value.score, job.bar.time)
  }

  ghost function Final(cfg: EngineConfig, s: EngineState, a: Account, job: Job, gate: bool): EngineState {
    if gate then Entered(cfg, Updated(cfg, s, job), a, job) else Updated(cfg, s, job)
  }

  ghost function ExitAlerts(cfg: EngineConfig, s: EngineState, job: Job): seq<Alert> {
    var exits := BarExits(cfg, s, job.symbol, job.bar);
    seq(|exits|, i requires 0 <= i < |exits| => Alert(job.Key(), exits[i].core))
  }

  function EntryAlerts(cfg: EngineConfig, s: EngineState, a: Account, job: Job): seq<Alert> {
    var o, t := OpeningOf(a, job), Entered(cfg, s, a, job);
    if o.Some? && o.value.id !in s.open && o.value.id in t.open then [Alert(job.Key(), t.open[o.value.id].core)] else []
  }

  /** One alert announces an entry, of the last account that entered. */
  function LastEntered(entered: seq<Alert>, alerts: seq<Alert>): seq<Alert> {
    if alerts != [] then alerts else entered
  }

  /** The account takes the entry it is offered. */
  predicate TakesEntry(cfg: EngineConfig, s: EngineState, a: Account, job: Job) {
    var o := OpeningOf(a, job);
    && o.Some? && |s.open| < job.maxOpen && o.value.id !in s.trades
    && Accepts(cfg, s, CreateExecutionPlan(cfg, s.equity, o.value.request))
  }

  /** An update, and an entry, whose row cannot be written. */
  ghost function TornUpdate(cfg: EngineConfig, s: EngineState, job: Job): EngineState {
    TornBar(cfg, s, job.symbol, job.bar)
  }

  function TornEntry(cfg: EngineConfig, s: EngineState, a: Account, job: Job): EngineState {
    Entered(cfg, s, a, job).(trades := s.trades)
  }

  // ---------- commands between bars ----------

  datatype Command = CloseTrade(id: TradeId, reason: string, time: int) | ResetAccount(account: Account)

  /** The first account that holds the trade open. */
  function HolderAccount(accounts: seq<Account>, engines: Engines, id: TradeId): (a: Option<Account>)
    ensures a.Some? ==> a.value in accounts && a.value in engines && id in engines[a.value].open
  {
    if accounts == [] then None
    else if accounts[0] in engines && id in engines[accounts[0]].open then Some(accounts[0])
    else HolderAccount(accounts[1..], engines, id)
  }

  /** What a command commits, if anything. */
  function DeedOf(z: Setup, engines: Engines, c: Command): Option<Deed> {
    match c
    case CloseTrade(id, reason, time) =>
      var a := HolderAccount(z.accounts, engines, id);
      if a.Some? then Some(CloseDone(a.value, id, reason, time)) else None
    case ResetAccount(a) => if a in engines then Some(ResetDone(a)) else None
  }

  /** One account after a commit that is not a bar. */
  ghost function Commanded(cfg: EngineConfig, s: EngineState, a: Account, d: Deed): EngineState {
    match d
    case CloseDone(b, id, reason, time) => if a == b then CloseStep(cfg, s, id, reason, time) else s
    case ResetDone(b) => if a == b then ResetStep(cfg, s) else s
    case BarDone(_) => s
  }

  ghost function AllCommanded(z: Setup, engines: Engines, d: Deed): Engines {
    map a | a in engines :: if a in z.cfgs then Commanded(z.cfgs[a], engines[a], a, d) else engines[a]
  }

  // ---------- steps ----------

  /** The decision log of a bar: not written, written, refused without effect, or refused with a rollback of the whole
      transaction. The worker swallows the error of the last two. */
  datatype LogOutcome = NotLogged | Logged | LogRefused | TransactionLost

  /** An attempt aborts between two turns, or inside the turn of the next account, which leaves that account with any
      memory at all. */
  datatype Step =
    | Begin(job: Job)
    | Advance
    | Log(outcome: LogOutcome)
    | Commit
    | Send(delivered: bool)
    | CommitStalls
    | Abort
    | AbortInTurn(torn: EngineState)
    | Apply(command: Command)
    | Crash
    | Restart

  function Tables(engines: Engines): map<Account, TradeTable> {
    map a | a in engines :: engines[a].trades
  }

  /** The committed rows under the given memory. */
  function RowsBack(db: Db, engines: Engines): Engines {
    map a | a in engines :: engines[a].(trades := if a in db.tables then db.tables[a] else engines[a].trades)
  }

  /** The database rolls back for every account, memory only for the snapshotted ones. */
  function RolledBack(z: Setup, w: World, snapshot: Engines): Engines {
    RowsBack(w.db, map a | a in w.engines :: if a in z.snapshotted && a in snapshot then snapshot[a] else w.engines[a])
  }

  /** Completing a bar updates its row, if there is one. */
  function Completion(bars: map<BarKey, Decision>, key: BarKey): map<BarKey, Decision> {
    if key in bars then bars[key := Completed] else bars
  }

  /** After the log the bar is completed. A lost transaction takes the rows of the bar with it, and nobody notices. */
  function LogDone(w: World, outcome: LogOutcome): World
    requires w.phase.Logging?
  {
    if outcome.TransactionLost? then
      w.(engines := RowsBack(w.db, w.engines), bars := w.db.bars,
         phase := Lost(w.phase.job, w.phase.gate, w.phase.snapshot))
    else
      w.(bars := Completion(w.bars, w.phase.job.Key()),
         phase := Committing(w.phase.job, w.phase.gate, w.phase.snapshot))
  }

  /** Leaving the block: commit, or, with the transaction lost, complete a bar that has no row and commit nothing. */
  function Left(w: World): World
    requires w.phase.Committing? || w.phase.Lost?
  {
    if w.phase.Committing? then
      w.(db := Db(Tables(w.engines), w.bars, w.db.history + [BarDone(w.phase.job)]), phase := Sending)
    else
      var bars := Completion(w.bars, w.phase.job.Key());
      w.(db := w.db.(bars := bars), bars := bars, phase := Sending)
  }

  predicate InBlock(phase: Phase) {
    phase.Updating? || phase.Entering? || phase.Logging? || phase.Committing? || phase.Lost?
  }

  ghost function Reloaded(z: Setup, tables: map<Account, TradeTable>): Engines {
    map a | a in z.cfgs :: Load(z.cfgs[a], if a in tables then tables[a] else map[])
  }

  ghost function Advanced(z: Setup, w: World): World {
    match w.phase
    case Updating(job, todo, snapshot) =>
      if todo == [] then
        var gate := MASTER in w.engines && Gate(w.engines[MASTER], job);
        w.(phase := Entering(job, if gate then z.accounts else [], gate, [], snapshot))
      else if todo[0] in w.engines && todo[0] in z.cfgs then
        var a := todo[0];
        w.(engines := w.engines[a := Updated(z.cfgs[a], w.engines[a], job)],
           pending := w.pending + ExitAlerts(z.cfgs[a], w.engines[a], job),
           phase := Updating(job, todo[1..], snapshot))
      else w
    case Entering(job, todo, gate, entered, snapshot) =>
      if todo == [] then w.(pending := w.pending + entered, phase := Logging(job, gate, snapshot))
      else if todo[0] in w.engines && todo[0] in z.cfgs then
        var a := todo[0];
        w.(engines := w.engines[a := Entered(z.cfgs[a], w.engines[a], a, job)],
           phase := Entering(job, todo[1..], gate, LastEntered(entered, EntryAlerts(z.cfgs[a], w.engines[a], a, job)),
                             snapshot))
      else w
    case _ => w
  }

  /** A claim fails on a bar that has a row already. */
  function Claimed(z: Setup, w: World, job: Job): World {
    if job.Key() in w.bars then w
    else w.(bars := w.bars[job.Key() := Processing], phase := Updating(job, z.accounts, w.engines), pending := [])
  }

  function Aborted(z: Setup, w: World): World
    requires InBlock(w.phase)
  {
    w.(engines := RolledBack(z, w, w.phase.snapshot), bars := w.db.bars, phase := Ready, pending := [])
  }

  /** A COMMIT that fails without rolling back: memory is put back, but the transaction stays open with the rows of the
      bar, and no later block can begin. */
  function Stalled(z: Setup, w: World): World
    requires w.phase.Committing?
  {
    var back := map a | a in w.engines ::
      if a in z.snapshotted && a in w.phase.snapshot then w.phase.snapshot[a].(trades := w.engines[a].trades)
      else w.engines[a];
    w.(engines := back, phase := Stuck, pending := [])
  }

  /** It is some account's turn. */
  predicate InTurn(w: World) {
    (w.phase.Updating? || w.phase.Entering?) && w.phase.todo != [] && w.phase.todo[0] in w.engines
  }

  /** What the next account's turn leaves in memory when its row cannot be written. */
  ghost function TornTurn(z: Setup, w: World): EngineState
    requires InTurn(w) && w.phase.todo[0] in z.cfgs
  {
    var a := w.phase.todo[0];
    if w.phase.Updating? then TornUpdate(z.cfgs[a], w.engines[a], w.phase.job)
    else TornEntry(z.cfgs[a], w.engines[a], a, w.phase.job)
  }

  /** The next account's turn, cut short by a row that cannot be written. */
  ghost function Torn(z: Setup, w: World): World {
    if InTurn(w) && w.phase.todo[0] in z.cfgs then w.(engines := w.engines[w.phase.todo[0] := TornTurn(z, w)]) else w
  }

  /** A command commits by itself; it changes one account, or nothing. */
  ghost function Applied(z: Setup, w: World, c: Command): World {
    var d := DeedOf(z, w.engines, c);
    if d.None? then w
    else
      var engines := AllCommanded(z, w.engines, d.value);
      w.(engines := engines, db := Db(Tables(engines), w.bars, w.db.history + [d.value]))
  }

  ghost function Next(z: Setup, w: World, s: Step): World {
    match s
    case Begin(job) => if w.phase.Ready? then Claimed(z, w, job) else w
    case Advance => Advanced(z, w)
    case Log(outcome) => if w.phase.Logging? then LogDone(w, outcome) else w
    case Commit => if w.phase.Committing? || w.phase.Lost? then Left(w) else w
    case Send(delivered) =>
      if !w.phase.Sending? then w
      else if w.pending == [] then w.(phase := Ready)
      else w.(sent := if delivered then w.sent + [w.pending[0]] else w.sent, pending := w.pending[1..])
    case CommitStalls => if w.phase.Committing? then Stalled(z, w) else w
    case Abort => if InBlock(w.phase) then Aborted(z, w) else w
    case AbortInTurn(torn) =>
      if InTurn(w) then Aborted(z, w.(engines := w.engines[w.phase.todo[0] := torn])) else w
    case Apply(command) => if w.phase.Ready? then Applied(z, w, command) else w
    case Crash => w.(engines := map[], bars := w.db.bars, phase := Down, pending := [])
    case Restart => if w.phase.Down? then w.(engines := Reloaded(z, w.db.tables), phase := Ready) else w
  }

  ghost function Run(z: Setup, w: World, steps: seq<Step>): World {
    if steps == [] then w else Next(z, Run(z, w, steps[..|steps| - 1]), steps[|steps| - 1])
  }

  function Advances(n: nat): seq<Step> {
    if n == 0 then [] else Advances(n - 1) + [Advance]
  }

  lemma RunOne(z: Setup, w: World, steps: seq<Step>, s: Step)
    ensures Run(z, w, steps + [s]) == Next(z, Run(z, w, steps), s)
  {
    hide Next;
    assert (steps + [s])[..|steps|] == steps;
  }

  lemma {:induction false} RunJoin(z: Setup, w: World, a: seq<Step>, b: seq<Step>)
    ensures Run(z, w, a + b) == Run(z, Run(z, w, a), b)
  {
    hide Next;
    if b == [] {
      assert a + b == a;
    } else {
      var front, last := b[..|b| - 1], b[|b| - 1];
      RunJoin(z, w, a, front);
      assert a + b == (a + front) + [last] && b == front + [last];
      RunOne(z, w, a + front, last);
      RunOne(z, Run(z, w, a), front, last);
    }
  }

  lemma NoAdvance(z: Setup, w: World)
    ensures Run(z, w, Advances(0)) == w
  {
  }

  lemma OneMoreAdvance(z: Setup, w: World, n: nat)
    ensures Run(z, w, Advances(n + 1)) == Advanced(z, Run(z, w, Advances(n)))
  {
    hide Advanced;
    assert Advances(n + 1)[..|Advances(n)|] == Advances(n);
    assert Next(z, Run(z, w, Advances(n)), Advance) == Advanced(z, Run(z, w, Advances(n)));
  }

  ghost function Fresh(z: Setup): World {
    World(Db(map a | a in z.cfgs :: map[], map[], []), map[], map[], Down, [], [])
  }

  // ---------- the reference: bars and commands applied one after the other to the rows ----------

  /** What the commits leave in the rows when nothing ever fails. */
  ghost function Replay(z: Setup, history: seq<Deed>): map<Account, TradeTable>
    requires Proper(z)
    ensures Replay(z, history).Keys == z.cfgs.Keys
  {
    if history == [] then map a | a in z.cfgs :: map[]
    else ReplayOne(z, Replay(z, history[..|history| - 1]), history[|history| - 1])
  }

  /** One more commit on accounts that are loaded from their rows. */
  ghost function ReplayOne(z: Setup, before: map<Account, TradeTable>, d: Deed): (after: map<Account, TradeTable>)
    requires Proper(z) && before.Keys == z.cfgs.Keys
    ensures after.Keys == z.cfgs.Keys
  {
    if d.BarDone? then
      map a | a in z.cfgs ::
        Final(z.cfgs[a], Load(z.cfgs[a], before[a]), a, d.job, MasterGate(z, before, d.job)).trades
    else map a | a in z.cfgs :: Commanded(z.cfgs[a], Load(z.cfgs[a], before[a]), a, d).trades
  }

  ghost predicate MasterGate(z: Setup, tables: map<Account, TradeTable>, job: Job)
    requires MASTER in z.cfgs && MASTER in tables
  {
    Gate(Updated(z.cfgs[MASTER], Load(z.cfgs[MASTER], tables[MASTER]), job), job)
  }

  // ---------- one account depends on its rows only ----------

  ghost predicate Same(cfg: EngineConfig, s: EngineState, t: EngineState) {
    PaperRestart.Same(cfg, s, t)
  }

  lemma UpdatedRespects(cfg: EngineConfig, s: EngineState, t: EngineState, job: Job)
    requires Same(cfg, s, t)
    ensures Same(cfg, Updated(cfg, s, job), Updated(cfg, t, job))
  {
    hide BarStep, Consistent;
    PaperRestart.StepRespects(cfg, s, t, PaperRestart.BarUpdate(job.symbol, job.bar));
  }

  lemma EnteredRespects(cfg: EngineConfig, s: EngineState, t: EngineState, a: Account, job: Job)
    requires Same(cfg, s, t)
    ensures Same(cfg, Entered(cfg, s, a, job), Entered(cfg, t, a, job))
  {
    hide OpenStep, Consistent, CreateExecutionPlan;
    SameSize(cfg, s, t);
    var o := OpeningOf(a, job);
    if o.Some? && |s.open| < job.maxOpen && o.value.id !in s.trades {
      PaperRestart.StepRespects(cfg, s, t,
                                PaperRestart.Open(o.value.id, o.value.request, o.value.timeframe, o.value.score,
                                                  job.bar.time));
    }
  }

  lemma CommandedRespects(cfg: EngineConfig, s: EngineState, t: EngineState, a: Account, d: Deed)
    requires Same(cfg, s, t)
    ensures Same(cfg, Commanded(cfg, s, a, d), Commanded(cfg, t, a, d))
  {
    hide CloseStep, ResetStep, Consistent;
    match d
    case CloseDone(_, id, reason, time) =>
      PaperRestart.StepRespects(cfg, s, t, PaperRestart.CloseTrade(id, reason, time));
    case ResetDone(_) => PaperRestart.StepRespects(cfg, s, t, PaperRestart.Reset);
    case BarDone(_) =>
  }

  lemma SameSize(cfg: EngineConfig, s: EngineState, t: EngineState)
    requires Same(cfg, s, t)
    ensures |s.open| == |t.open| && s.trades == t.trades
  {
    PaperRestart.SameShows(cfg, s, t);
    hide Consistent;
    assert |s.open| == |s.open.Keys| && |t.open| == |t.open.Keys|;
  }

  lemma GateRespects(cfg: EngineConfig, s: EngineState, t: EngineState, job: Job)
    requires Same(cfg, s, t)
    ensures Gate(s, job) == Gate(t, job)
  {
    hide Same;
    SameSize(cfg, s, t);
    SameOpenCores(cfg, s, t);
  }

  lemma SameOpenCores(cfg: EngineConfig, s: EngineState, t: EngineState)
    requires Same(cfg, s, t)
    ensures s.open.Keys == t.open.Keys && forall id :: id in s.open ==> s.open[id].core == t.open[id].core
  {
    hide Consistent;
    PaperRestart.SameShows(cfg, s, t);
  }

  lemma FinalRespects(cfg: EngineConfig, s: EngineState, t: EngineState, a: Account, job: Job, gate: bool)
    requires Same(cfg, s, t)
    ensures Same(cfg, Final(cfg, s, a, job, gate), Final(cfg, t, a, job, gate))
  {
    hide Same, Updated, Entered;
    UpdatedRespects(cfg, s, t, job);
    EnteredRespects(cfg, Updated(cfg, s, job), Updated(cfg, t, job), a, job);
  }
}
