/** The worker's control plane as a machine that can crash between any two steps (aura/runner/worker.py): commands,
    persisted halts, restarts, feed checks and entries. */
module WorkerHalt {
  import opened Wrappers
  import opened StateMachine

  datatype Kind = Halt | Resume | OtherCommand

  /** A halt or resume row with status 'applied'. */
  datatype Applied = Applied(id: nat, kind: Kind, at: int)

  datatype Event = HaltApplied | ResumeApplied | Entered(feedsHealthy: bool)

  /** Where the worker is. `Committing` lies between a command's effect in memory and the update of its row. */
  datatype Phase =
    | Down
    | Constructed
    | Started
    | Idle
    | Handling(rows: seq<nat>)
    | Committing(rows: seq<nat>, accepted: bool)
    | Bars(feedsHealthy: bool)

  /** The database (pending commands, applied halts and resumes in commit order, the runner_state row), the memory of
      the process, and the log of what has been committed. */
  datatype World = World(
    pending: map<nat, Kind>, applied: seq<Applied>, runnerState: Option<SystemState>,
    fsm: Fsm, phase: Phase, log: seq<Event>)

  datatype Step =
    | Submit(id: nat, kind: Kind)
    | Crash
    | Construct
    | Start(warmupOk: bool)
    | WriteRunnerState
    | Fetch(order: seq<nat>)
    | Handle
    | Commit(at: int)
    | CheckFeeds(health: seq<bool>)
    | ProcessBar(enters: bool)
    | CycleError

  // ---------- restoring a halt ----------

  /** The row with the greatest applied time, and among those the one with the greatest id. */
  function LatestApplied(applied: seq<Applied>): Option<Applied> {
    if applied == [] then None
    else
      var before, last := LatestApplied(applied[..|applied| - 1]), applied[|applied| - 1];
      if before.None? || last.at > before.value.at ||
        (last.at == before.value.at && last.id > before.value.id) then Some(last)
      else before
  }

  predicate ShouldHalt(w: World) {
    var last := LatestApplied(w.applied);
    (last.Some? && last.value.kind.Halt?) || w.runnerState == Some(HALTED)
  }

  function Restored(w: World): Fsm {
    if ShouldHalt(w) && !w.fsm.halted then EmergencyHalt(w.fsm) else w.fsm
  }

  /** The start-up transitions, skipped when a halt was restored. */
  function StartedUp(f: Fsm, warmupOk: bool): Fsm {
    if f.halted then f
    else
      var warming := TransitionTo(f, WARMING_UP);
      if warmupOk then TransitionTo(warming, RUNNING) else MarkDegraded(warming)
  }

  // ---------- one step ----------

  predicate Fetched(order: seq<nat>, pending: map<nat, Kind>) {
    && (forall i :: 0 <= i < |order| ==> order[i] in pending)
    && (forall id :: id in pending ==> id in order)
    && forall i, j :: 0 <= i < j < |order| ==> order[i] != order[j]
  }

  predicate AllHealthy(health: seq<bool>) {
    health != [] && forall i :: 0 <= i < |health| ==> health[i]
  }

  /** A command's effect on the state machine; only a resume can be refused. */
  function Effect(f: Fsm, kind: Kind): Fsm {
    match kind
    case Halt => EmergencyHalt(f)
    case Resume => ResumeFromHalt(f)
    case OtherCommand => f
  }

  function AfterFeeds(f: Fsm, healthy: bool): Fsm {
    if healthy then MarkHealthy(f)
    else if f.state == RUNNING then MarkDegraded(f)
    else f
  }

  function Committed(w: World, at: int): World
    requires w.phase.Committing? && w.phase.rows != [] && w.phase.rows[0] in w.pending
  {
    var id := w.phase.rows[0];
    var kind := w.pending[id];
    var counts := w.phase.accepted && !kind.OtherCommand?;
    w.(pending := w.pending - {id},
       applied := if counts then w.applied + [Applied(id, kind, at)] else w.applied,
       log := if counts then w.log + [if kind.Halt? then HaltApplied else ResumeApplied] else w.log,
       phase := Handling(w.phase.rows[1..]))
  }

  /** Ids are the key of the commands table. */
  predicate UsedId(applied: seq<Applied>, id: nat) {
    exists k :: 0 <= k < |applied| && applied[k].id == id
  }

  /** The worker does a step only where it is due; a step out of place changes nothing. The applied times are whatever
      the clock says, forwards or backwards. */
  function Next(w: World, s: Step): World {
    match s
    case Submit(id, kind) =>
      if id in w.pending || UsedId(w.applied, id) then w else w.(pending := w.pending[id := kind])
    case Crash => w.(phase := Down, fsm := Fsm(STARTING, false))
    case Construct => if w.phase.Down? then w.(phase := Constructed, fsm := Restored(w)) else w
    case Start(warmupOk) =>
      if w.phase.Constructed? then w.(phase := Started, fsm := StartedUp(Restored(w), warmupOk)) else w
    case WriteRunnerState =>
      if w.phase.Started? || w.phase.Bars? then w.(phase := Idle, runnerState := Some(w.fsm.state)) else w
    case Fetch(order) => if w.phase.Idle? && Fetched(order, w.pending) then w.(phase := Handling(order)) else w
    case Handle =>
      if w.phase.Handling? && w.phase.rows != [] && w.phase.rows[0] in w.pending then
        var kind := w.pending[w.phase.rows[0]];
        w.(fsm := Effect(w.fsm, kind), phase := Committing(w.phase.rows, !kind.Resume? || Accepts(w.fsm, RECOVERING)))
      else w
    case Commit(at) =>
      if w.phase.Committing? && w.phase.rows != [] && w.phase.rows[0] in w.pending then Committed(w, at) else w
    case CheckFeeds(health) =>
      if w.phase == Handling([]) then
        w.(fsm := AfterFeeds(w.fsm, AllHealthy(health)), phase := Bars(AllHealthy(health))) else w
    case ProcessBar(enters) =>
      if w.phase.Bars? && enters && CanOpenNewTrades(w.fsm) then w.(log := w.log + [Entered(w.phase.feedsHealthy)])
      else w
    case CycleError =>
      if w.phase.Handling? || w.phase.Committing? || w.phase.Bars? then w.(fsm := MarkDegraded(w.fsm), phase := Idle)
      else w
  }

  function Run(w: World, steps: seq<Step>): World {
    if steps == [] then w else Next(Run(w, steps[..|steps| - 1]), steps[|steps| - 1])
  }

  /** A new database and no process. */
  function Fresh(): World {
    World(map[], [], None, Fsm(STARTING, false), Down, [])
  }

  // ---------- the invariant ----------

  predicate OnlyControl(applied: seq<Applied>) {
    forall i :: 0 <= i < |applied| ==> !applied[i].kind.OtherCommand?
  }

  /** The last halt or resume of the log. */
  function LastControl(log: seq<Event>): Option<Event> {
    if log == [] then None
    else
      var last := log[|log| - 1];
      if last.Entered? then LastControl(log[..|log| - 1]) else Some(last)
  }

  predicate HaltInForce(w: World) {
    LastControl(w.log) == Some(HaltApplied)
  }

  /** The log ends with the kind of the last applied row. */
  predicate LogMatches(w: World) {
    LastControl(w.log) ==
    if w.applied == [] then None
    else if w.applied[|w.applied| - 1].kind.Halt? then Some(HaltApplied)
    else Some(ResumeApplied)
  }

  /** A resume took effect in memory, its row is still pending, and it will be committed before any bar. */
  ghost predicate ResumeUnderway(w: World) {
    w.fsm.state == RECOVERING
    && match w.phase
       case Idle => exists id :: PendingResume(w, id)
       case Handling(rows) => exists id :: PendingResume(w, id) && id in rows
       case Committing(rows, accepted) =>
         rows != [] && ((PendingResume(w, rows[0]) && accepted) || exists id :: PendingResume(w, id) && id in rows[1..])
       case _ => false
  }

  predicate PendingResume(w: World, id: nat) {
    id in w.pending && w.pending[id].Resume?
  }

  predicate RowsPending(w: World) {
    (w.phase.Handling? || w.phase.Committing?) ==>
      && (forall i :: 0 <= i < |w.phase.rows| ==> w.phase.rows[i] in w.pending)
      && forall i, j :: 0 <= i < j < |w.phase.rows| ==> w.phase.rows[i] != w.phase.rows[j]
  }

  /** Every entry was made with healthy feeds and with no halt in force. */
  predicate SafeLog(log: seq<Event>) {
    log != [] ==>
      var front, last := log[..|log| - 1], log[|log| - 1];
      SafeLog(front) && (last.Entered? ==> last.feedsHealthy && LastControl(front) != Some(HaltApplied))
  }

  predicate DistinctIds(applied: seq<Applied>) {
    forall i, j :: 0 <= i < j < |applied| ==> applied[i].id != applied[j].id
  }

  predicate NotPendingAgain(w: World) {
    forall i :: 0 <= i < |w.applied| ==> w.applied[i].id !in w.pending
  }

  /** What holds in every run, whatever the clock does. */
  predicate Records(w: World) {
    && Agrees(w.fsm)
    && OnlyControl(w.applied)
    && LogMatches(w)
    && DistinctIds(w.applied)
    && NotPendingAgain(w)
    && RowsPending(w)
    && (w.phase.Committing? ==> w.phase.rows != [])
    && (w.phase.Down? ==> w.fsm == Fsm(STARTING, false))
  }

  /** A halt in force holds the worker, and the log is safe. */
  ghost predicate Guarded(w: World) {
    && (w.phase.Committing? && w.phase.rows != [] && w.phase.rows[0] in w.pending && w.pending[w.phase.rows[0]].Halt?
        ==> w.fsm.halted && w.phase.accepted)
    && (w.phase.Bars? && w.fsm.state == RUNNING ==> w.phase.feedsHealthy)
    && (!w.phase.Down? && HaltInForce(w) ==> w.fsm.halted || ResumeUnderway(w))
    && SafeLog(w.log)
  }

  // ---------- what a restart restores ----------

  /** One row was applied after another: later, or at the same time with a greater id. */
  predicate After(a: Applied, b: Applied) {
    a.at > b.at || (a.at == b.at && a.id > b.id)
  }

  /** The row that a restart goes by. */
  predicate IsTop(applied: seq<Applied>, k: int) {
    0 <= k < |applied| && forall j :: 0 <= j < |applied| && j != k ==> After(applied[k], applied[j])
  }

  ghost predicate TopIs(applied: seq<Applied>, kind: Kind) {
    exists k :: IsTop(applied, k) && applied[k].kind == kind
  }

  lemma {:induction false} LatestIsTop(applied: seq<Applied>) returns (k: int)
    requires DistinctIds(applied) && applied != []
    ensures IsTop(applied, k) && LatestApplied(applied) == Some(applied[k])
  {
    var last := |applied| - 1;
    if last == 0 {
      k := 0;
    } else {
      var before := applied[..last];
      k := LatestIsTop(before);
      assert before[k] == applied[k] && applied[k].id != applied[last].id;
      assert forall j :: 0 <= j < last ==> before[j] == applied[j];
      if After(applied[last], applied[k]) {
        forall j | 0 <= j < last
          ensures After(applied[last], applied[j])
        {
          assert j == k || After(before[k], before[j]);
        }
        k := last;
      } else {
        forall j | 0 <= j < |applied| && j != k
          ensures After(applied[k], applied[j])
        {
          assert j == last || After(before[k], before[j]);
        }
      }
    }
  }

  /** With a clock that never goes back, the row is the one with the greatest id among those of the last time. */
  lemma TopOfLastTime(applied: seq<Applied>, k: int)
    requires 0 <= k < |applied| && forall i, j :: 0 <= i < j < |applied| ==> applied[i].at <= applied[j].at
    ensures var lastTime := applied[|applied| - 1].at;
            IsTop(applied, k) <==>
            applied[k].at == lastTime
            && forall j :: 0 <= j < |applied| && j != k && applied[j].at == lastTime ==> applied[j].id < applied[k].id
  {
    var last := |applied| - 1;
    if IsTop(applied, k) && k != last {
      assert After(applied[k], applied[last]);
    }
    if applied[k].at == applied[last].at {
      forall j | 0 <= j < |applied| && j != k && (applied[j].at == applied[last].at ==> applied[j].id < applied[k].id)
        ensures After(applied[k], applied[j])
      {
        assert j == last || applied[j].at <= applied[last].at;
      }
    }
  }

  /** The halt in force that a restart would not bring back: the row it goes by is a resume, and the last state row does
      not say HALTED either. */
  ghost predicate Forgets(w: World) {
    w.phase.Down? && HaltInForce(w) && w.runnerState != Some(HALTED) && TopIs(w.applied, Resume)
  }

  /** A restore halts exactly if the row it goes by is a halt, the last state row says HALTED, or memory is halted. */
  lemma RestoreExactly(w: World)
    requires Records(w)
    ensures var halts := w.runnerState == Some(HALTED) || TopIs(w.applied, Halt);
            Restored(w) == if halts || w.fsm.halted then Fsm(HALTED, true) else w.fsm
    ensures w.applied != [] ==> (TopIs(w.applied, Halt) <==> !TopIs(w.applied, Resume))
  {
    hide LastControl;
    if w.applied != [] {
      var k := LatestIsTop(w.applied);
      OneTop(w.applied, k);
    }
  }

  lemma OneWay(a: Applied, b: Applied)
    ensures After(a, b) ==> !After(b, a)
  {
  }

  lemma OneTop(applied: seq<Applied>, k: int)
    requires IsTop(applied, k)
    ensures forall kind :: TopIs(applied, kind) <==> applied[k].kind == kind
  {
    forall j | IsTop(applied, j)
      ensures j == k
    {
      OneWay(applied[j], applied[k]);
    }
  }

  lemma RestoreKeepsHalt(w: World)
    requires Records(w) && !Forgets(w)
    ensures w.phase.Down? && HaltInForce(w) ==> Restored(w) == Fsm(HALTED, true)
  {
    RestoreExactly(w);
    hide LatestApplied, LastControl, TopIs;
  }

  // ---------- every step keeps the records ----------

  lemma CommitRecords(w: World, at: int)
    requires Records(w)
    ensures Records(Next(w, Commit(at)))
  {
    hide LastControl, Agrees;
    var w' := Next(w, Commit(at));
    if w' != w {
      var rows := w.phase.rows;
      ControlAppended(w.log, HaltApplied);
      ControlAppended(w.log, ResumeApplied);
      assert forall i :: 0 <= i < |rows| - 1 ==> rows[1..][i] == rows[i + 1];
    }
  }

  lemma SubmitRecords(w: World, id: nat, kind: Kind)
    requires Records(w)
    ensures Records(Next(w, Submit(id, kind)))
  {
    hide LastControl, Agrees;
  }

  lemma RowRecords(w: World, s: Step)
    requires Records(w) && (s.Fetch? || s.Handle?)
    ensures Records(Next(w, s))
  {
    hide LastControl, DistinctIds, OnlyControl;
  }

  lemma StateRecords(w: World, s: Step)
    requires Records(w) && !s.Submit? && !s.Commit? && !s.Fetch? && !s.Handle?
    ensures Records(Next(w, s))
  {
    hide LastControl, DistinctIds, OnlyControl, LatestApplied, TopIs;
    RestoreExactly(w);
    if s.ProcessBar? && w.phase.Bars? { ControlAppended(w.log, Entered(w.phase.feedsHealthy)); }
  }

  lemma StepRecords(w: World, s: Step)
    requires Records(w)
    ensures Records(Next(w, s))
  {
    hide Records, Next;
    match s
    case Submit(id, kind) => SubmitRecords(w, id, kind);
    case Commit(at) => CommitRecords(w, at);
    case Fetch(_) => RowRecords(w, s);
    case Handle => RowRecords(w, s);
    case _ => StateRecords(w, s);
  }

  lemma {:induction false} RunRecords(steps: seq<Step>)
    ensures Records(Run(Fresh(), steps))
  {
    hide Records, Next;
    if steps == [] {
      FreshHolds();
    } else {
      RunRecords(steps[..|steps| - 1]);
      StepRecords(Run(Fresh(), steps[..|steps| - 1]), steps[|steps| - 1]);
    }
  }

  lemma FreshHolds()
    ensures Records(Fresh()) && Guarded(Fresh())
  {
  }

  // ---------- every step that forgets nothing keeps the guard ----------

  lemma SubmitKeeps(w: World, id: nat, kind: Kind)
    requires Records(w) && Guarded(w)
    ensures Guarded(Next(w, Submit(id, kind)))
  {
    hide SafeLog, LastControl, Agrees, OnlyControl;
    var w' := Next(w, Submit(id, kind));
    if ResumeUnderway(w) && !(w.phase.Committing? && PendingResume(w, w.phase.rows[0]) && w.phase.accepted) {
      var r :| PendingResume(w, r) && (w.phase.Handling? ==> r in w.phase.rows) &&
        (w.phase.Committing? ==> r in w.phase.rows[1..]);
      assert PendingResume(w', r);
    }
  }

  lemma StartKeeps(w: World, warmupOk: bool)
    requires Records(w) && Guarded(w)
    ensures Guarded(Next(w, Start(warmupOk)))
  {
    hide SafeLog, LastControl, OnlyControl, LatestApplied, ShouldHalt;
    if w.phase.Constructed? { RestoreKeepsHalt(w); }
  }

  lemma FetchKeeps(w: World, order: seq<nat>)
    requires Records(w) && Guarded(w)
    ensures Guarded(Next(w, Fetch(order)))
  {
    hide SafeLog, LastControl, Agrees, OnlyControl;
    if w.phase.Idle? && ResumeUnderway(w) {
      var r :| PendingResume(w, r);
      assert PendingResume(Next(w, Fetch(order)), r);
    }
  }

  lemma HandleKeeps(w: World)
    requires Records(w) && Guarded(w)
    ensures Guarded(Next(w, Handle))
  {
    hide SafeLog, LastControl, OnlyControl;
    var w' := Next(w, Handle);
    if w.phase.Handling? && w.phase.rows != [] && HaltInForce(w) && !w'.fsm.halted {
      var rows := w.phase.rows;
      assert PendingResume(w', rows[0]) <==> PendingResume(w, rows[0]);
      if !PendingResume(w, rows[0]) {
        var r :| PendingResume(w, r) && r in rows;
        assert rows == [rows[0]] + rows[1..];
        assert PendingResume(w', r) && r in rows[1..];
      }
    }
  }

  lemma ControlAppended(log: seq<Event>, e: Event)
    ensures LastControl(log + [e]) == if e.Entered? then LastControl(log) else Some(e)
    ensures SafeLog(log) && (e.Entered? ==> e.feedsHealthy && LastControl(log) != Some(HaltApplied)) ==>
            SafeLog(log + [e])
  {
    assert (log + [e])[..|log|] == log;
  }

  lemma CommitKeeps(w: World, at: int)
    requires Records(w) && Guarded(w)
    ensures Guarded(Next(w, Commit(at)))
  {
    hide SafeLog, LastControl, Agrees;
    var w' := Next(w, Commit(at));
    if w' != w {
      var rows := w.phase.rows;
      ControlAppended(w.log, HaltApplied);
      ControlAppended(w.log, ResumeApplied);
      assert rows[1..] == rows[1..|rows|];
      if HaltInForce(w') && !w'.fsm.halted {
        var r :| PendingResume(w, r) && r in rows[1..];
        var i :| 0 <= i < |rows| - 1 && rows[1..][i] == r;
        assert rows[i + 1] != rows[0];
        assert PendingResume(w', r);
      }
    }
  }

  lemma FeedsKeep(w: World, health: seq<bool>)
    requires Records(w) && Guarded(w)
    ensures Guarded(Next(w, CheckFeeds(health)))
  {
    hide SafeLog, LastControl, OnlyControl, AllHealthy;
  }

  lemma BarKeeps(w: World, enters: bool)
    requires Records(w) && Guarded(w)
    ensures Guarded(Next(w, ProcessBar(enters)))
  {
    hide OnlyControl, SafeLog, LastControl;
    if w.phase.Bars? { ControlAppended(w.log, Entered(w.phase.feedsHealthy)); }
  }

  lemma ErrorKeeps(w: World)
    requires Records(w) && Guarded(w)
    ensures Guarded(Next(w, CycleError))
  {
    hide SafeLog, LastControl, OnlyControl;
    var w' := Next(w, CycleError);
    assert w'.pending == w.pending;
    if ResumeUnderway(w) {
      var r := UnderwayRow(w);
      assert PendingResume(w', r);
    }
  }

  lemma UnderwayRow(w: World) returns (r: nat)
    requires ResumeUnderway(w)
    ensures PendingResume(w, r)
  {
    if w.phase.Committing? && PendingResume(w, w.phase.rows[0]) {
      r := w.phase.rows[0];
    } else {
      r :| PendingResume(w, r);
    }
  }

  lemma StepKeeps(w: World, s: Step)
    requires Records(w) && Guarded(w)
    requires s.Construct? ==> !Forgets(w)
    ensures Guarded(Next(w, s))
  {
    match s
    case Submit(id, kind) => SubmitKeeps(w, id, kind);
    case Crash =>
    case Construct => RestoreKeepsHalt(w);
    case Start(warmupOk) => StartKeeps(w, warmupOk);
    case WriteRunnerState =>
    case Fetch(order) => FetchKeeps(w, order);
    case Handle => HandleKeeps(w);
    case Commit(at) => CommitKeeps(w, at);
    case CheckFeeds(health) => FeedsKeep(w, health);
    case ProcessBar(enters) => BarKeeps(w, enters);
    case CycleError => ErrorKeeps(w);
  }

  /** No restart of the run forgets a halt. */
  ghost predicate NeverForgets(steps: seq<Step>) {
    forall n :: 0 <= n < |steps| && steps[n].Construct? ==> !Forgets(Run(Fresh(), steps[..n]))
  }

  lemma {:induction false} RunKeeps(steps: seq<Step>)
    requires NeverForgets(steps)
    ensures Guarded(Run(Fresh(), steps))
  {
    hide Records, Guarded, Next, Forgets;
    if steps == [] {
      FreshHolds();
    } else {
      var last := |steps| - 1;
      var front := steps[..last];
      forall n | 0 <= n < last && front[n].Construct?
        ensures !Forgets(Run(Fresh(), front[..n]))
      {
        assert front[n] == steps[n] && front[..n] == steps[..n];
      }
      RunKeeps(front);
      RunRecords(front);
      StepKeeps(Run(Fresh(), front), steps[last]);
    }
  }

  // ---------- the theorems ----------

  lemma {:induction false} ResumeBetween(log: seq<Event>, h: nat, e: nat) returns (r: nat)
    requires SafeLog(log) && h < e < |log| && log[h] == HaltApplied && log[e].Entered?
    ensures h < r < e && log[r] == ResumeApplied
  {
    var front := log[..|log| - 1];
    if e < |front| {
      assert front[h] == log[h] && front[e] == log[e];
      r := ResumeBetween(front, h, e);
      assert front[r] == log[r];
    } else {
      r := ControlAfter(front, h);
      assert front[r] == log[r];
    }
  }

  lemma {:induction false} ControlAfter(log: seq<Event>, h: nat) returns (r: nat)
    requires h < |log| && log[h] == HaltApplied && LastControl(log) != Some(HaltApplied)
    ensures h < r < |log| && log[r] == ResumeApplied
  {
    var last := |log| - 1;
    if log[last].Entered? {
      assert log[..last][h] == log[h];
      r := ControlAfter(log[..last], h);
    } else {
      r := last;
    }
  }

  lemma {:induction false} EntriesHealthy(log: seq<Event>, e: nat)
    requires SafeLog(log) && e < |log| && log[e].Entered?
    ensures log[e].feedsHealthy
  {
    var front := log[..|log| - 1];
    if e < |front| {
      assert front[e] == log[e];
      EntriesHealthy(front, e);
    }
  }

  /** Over any run of commands, cycles, errors, crashes and restarts none of which forgets a halt: every entry was made
      in a cycle whose feeds were all healthy, and between an applied halt and a later entry a resume was applied. */
  lemma HaltSafety(steps: seq<Step>, h: nat, e: nat) returns (r: nat)
    requires NeverForgets(steps)
    requires var log := Run(Fresh(), steps).log; h < |log| && e < |log| && log[h] == HaltApplied && log[e].Entered?
    ensures var log := Run(Fresh(), steps).log;
            && log[e].feedsHealthy
            && (h < e ==> h < r < e && log[r] == ResumeApplied)
  {
    hide Run;
    RunKeeps(steps);
    EntriesHealthy(Run(Fresh(), steps).log, e);
    if h < e { r := ResumeBetween(Run(Fresh(), steps).log, h, e); } else { r := 0; }
  }

  /** Exactly what a restart does, in every run and with any clock: it comes up halted if and only if the row it goes by
      is a halt or the last state row says HALTED; so it loses a halt in force if and only if that row is a resume and
      the state row does not say HALTED. */
  lemma RestartExactly(steps: seq<Step>, warmupOk: bool)
    requires Run(Fresh(), steps).phase.Down?
    ensures var w := Run(Fresh(), steps);
            var halts := w.runnerState == Some(HALTED) || TopIs(w.applied, Halt);
            var up := Next(w, Construct);
            && up.fsm == (if halts then Fsm(HALTED, true) else Fsm(STARTING, false))
            && Next(up, Start(warmupOk)).fsm ==
               (if halts then Fsm(HALTED, true) else Fsm(if warmupOk then RUNNING else DEGRADED, false))
    ensures var w := Run(Fresh(), steps);
            HaltInForce(w) ==> (!Next(w, Construct).fsm.halted <==>
                                w.runnerState != Some(HALTED) && TopIs(w.applied, Resume))
  {
    hide Run, LatestApplied, ShouldHalt, TopIs;
    var w := Run(Fresh(), steps);
    RunRecords(steps);
    RestoreExactly(w);
    StepRecords(w, Construct);
    RestoreExactly(Next(w, Construct));
  }

  /** Applied times that increase in the order of the commits. */
  predicate DistinctTimes(applied: seq<Applied>) {
    forall i, j :: 0 <= i < j < |applied| ==> applied[i].at < applied[j].at
  }

  lemma DistinctTimesRemember(w: World)
    requires Records(w) && DistinctTimes(w.applied)
    ensures !Forgets(w) && (HaltInForce(w) <==> TopIs(w.applied, Halt))
  {
    hide LastControl;
    if w.applied != [] {
      var last := |w.applied| - 1;
      assert IsTop(w.applied, last);
      OneTop(w.applied, last);
    }
  }

  /** With increasing applied times no restart of the run forgets a halt. */
  lemma {:induction false} DistinctTimesNeverForget(steps: seq<Step>)
    requires DistinctTimes(Run(Fresh(), steps).applied)
    ensures NeverForgets(steps)
  {
    hide Next, Forgets, Records;
    if steps != [] {
      var last := |steps| - 1;
      var front := steps[..last];
      AppliedGrows(Run(Fresh(), front), steps[last]);
      DistinctTimesNeverForget(front);
      RunRecords(front);
      DistinctTimesRemember(Run(Fresh(), front));
      forall n | 0 <= n < |steps| && steps[n].Construct?
        ensures !Forgets(Run(Fresh(), steps[..n]))
      {
        if n < last { assert front[n] == steps[n] && front[..n] == steps[..n]; }
      }
    }
  }

  lemma AppliedGrows(w: World, s: Step)
    requires DistinctTimes(Next(w, s).applied)
    ensures DistinctTimes(w.applied)
  {
    hide Committed;
    if s.Commit? && Next(w, s) != w {
      CommitGrows(w, s.at);
      var after := Next(w, s).applied;
      forall i, j | 0 <= i < j < |w.applied|
        ensures w.applied[i].at < w.applied[j].at
      {
        assert after[i] == w.applied[i] && after[j] == w.applied[j];
      }
    }
  }

  lemma CommitGrows(w: World, at: int)
    requires w.phase.Committing? && w.phase.rows != [] && w.phase.rows[0] in w.pending
    ensures w.applied <= Committed(w, at).applied
  {
  }

  /** With increasing applied times a restart never loses a halt; a crash right after a resume halts again when the last
      state row still says HALTED. */
  lemma RestartKeepsHalt(steps: seq<Step>)
    requires DistinctTimes(Run(Fresh(), steps).applied) && Run(Fresh(), steps).phase.Down?
    ensures var w := Run(Fresh(), steps);
            Next(w, Construct).fsm.halted <==> HaltInForce(w) || w.runnerState == Some(HALTED)
  {
    hide Run, Forgets;
    RestartExactly(steps, true);
    RunRecords(steps);
    DistinctTimesRemember(Run(Fresh(), steps));
  }

  /** The flag and the state agree at every point of every run, so entries need only look at the state. */
  lemma HaltedMeansHalted(steps: seq<Step>)
    ensures var f := Run(Fresh(), steps).fsm;
            (f.halted <==> f.state == HALTED) && (CanOpenNewTrades(f) <==> f.state == RUNNING)
  {
    hide Run;
    RunRecords(steps);
  }

  /** Such a restart happens: a resume and a later halt applied in the same millisecond leave the choice to their ids,
      and the restarted worker forgets the halt and enters. */
  lemma TiedTimesLoseHalt()
    ensures exists steps :: EntersAgainstHalt(Run(Fresh(), steps).log)
  {
    hide Run, ShouldHalt, LatestApplied;
    var up := [Construct, Start(true), WriteRunnerState];
    assert !ShouldHalt(Fresh()) by { FreshIsFree(); }
    var w1 := RunUp(Fresh());
    var commands := [Submit(2, Resume), Submit(1, Halt), Fetch([2, 1]), Handle, Commit(0), Handle, Commit(0), Crash];
    var w2 := TiedCommands(w1);
    var w3 := RunUp(w2);
    var entry := [Fetch([]), CheckFeeds([true]), ProcessBar(true)];
    var w4 := RunEntry(w3);
    RunConcat(Fresh(), up, commands);
    RunConcat(Fresh(), up + commands, up);
    RunConcat(Fresh(), up + commands + up, entry);
    assert EntersAgainstHalt(Run(Fresh(), up + commands + up + entry).log);
  }

  lemma FreshIsFree()
    ensures !ShouldHalt(Fresh())
  {
  }

  predicate EntersAgainstHalt(log: seq<Event>) {
    log == [ResumeApplied, HaltApplied, Entered(true)]
  }

  lemma {:induction false} RunConcat(w: World, a: seq<Step>, b: seq<Step>)
    ensures Run(w, a + b) == Run(Run(w, a), b)
  {
    hide Next;
    if b == [] {
      assert a + b == a;
    } else {
      var last := |b| - 1;
      RunConcat(w, a, b[..last]);
      var all := a + b;
      assert all[..|all| - 1] == a + b[..last] && all[|all| - 1] == b[last];
      assert Run(w, all) == Next(Run(w, all[..|all| - 1]), all[|all| - 1]);
    }
  }

  lemma RunTwo(w: World, s: Step, t: Step)
    ensures Run(w, [s, t]) == Next(Next(w, s), t)
  {
    hide Next;
    assert [s, t][..1] == [s] && [s][..0] == [];
    assert Run(w, [s]) == Next(w, s);
  }

  lemma RunThree(w: World, s: Step, t: Step, u: Step)
    ensures Run(w, [s, t, u]) == Next(Next(Next(w, s), t), u)
  {
    RunTwo(w, s, t);
    assert [s, t, u][..2] == [s, t];
  }

  lemma RunUp(w: World) returns (up: World)
    requires w.phase.Down? && w.fsm == Fsm(STARTING, false) && !ShouldHalt(w)
    ensures up == Run(w, [Construct, Start(true), WriteRunnerState])
    ensures up == w.(fsm := Fsm(RUNNING, false), phase := Idle, runnerState := Some(RUNNING))
  {
    hide LatestApplied;
    RunThree(w, Construct, Start(true), WriteRunnerState);
    up := Next(Next(Next(w, Construct), Start(true)), WriteRunnerState);
  }

  lemma RunEntry(w: World) returns (after: World)
    requires w.phase.Idle? && w.fsm == Fsm(RUNNING, false) && w.pending == map[]
    ensures after == Run(w, [Fetch([]), CheckFeeds([true]), ProcessBar(true)])
    ensures after.log == w.log + [Entered(true)]
  {
    RunThree(w, Fetch([]), CheckFeeds([true]), ProcessBar(true));
    after := Next(Next(Next(w, Fetch([])), CheckFeeds([true])), ProcessBar(true));
  }

  lemma HandleAndCommit(w: World, at: int)
    requires w.phase.Handling? && w.phase.rows != [] && w.phase.rows[0] in w.pending
    requires w.pending[w.phase.rows[0]].Halt? || (w.pending[w.phase.rows[0]].Resume? && Accepts(w.fsm, RECOVERING))
    ensures var id := w.phase.rows[0];
            var kind := w.pending[id];
            Next(Next(w, Handle), Commit(at)) ==
            w.(pending := w.pending - {id}, applied := w.applied + [Applied(id, kind, at)], fsm := Effect(w.fsm, kind),
               log := w.log + [if kind.Halt? then HaltApplied else ResumeApplied], phase := Handling(w.phase.rows[1..]))
  {
  }

  lemma Submitted(w: World)
    requires w == Fresh().(fsm := Fsm(RUNNING, false), phase := Idle, runnerState := Some(RUNNING))
    ensures Next(Next(Next(w, Submit(2, Resume)), Submit(1, Halt)), Fetch([2, 1])) ==
            w.(pending := map[2 := Resume, 1 := Halt], phase := Handling([2, 1]))
  {
    var w1 := Next(Next(w, Submit(2, Resume)), Submit(1, Halt));
    assert w1.pending == map[2 := Resume, 1 := Halt];
  }

  lemma TiedCommands(w: World) returns (after: World)
    requires w == Fresh().(fsm := Fsm(RUNNING, false), phase := Idle, runnerState := Some(RUNNING))
    ensures after ==
            Run(w, [Submit(2, Resume), Submit(1, Halt), Fetch([2, 1]), Handle, Commit(0), Handle, Commit(0), Crash])
    ensures after == w.(fsm := Fsm(STARTING, false), phase := Down, log := [ResumeApplied, HaltApplied],
                        applied := [Applied(2, Resume, 0), Applied(1, Halt, 0)])
    ensures !ShouldHalt(after)
  {
    Submitted(w);
    hide Next, LatestApplied, TopIs, ShouldHalt;
    var w2 := w.(pending := map[2 := Resume, 1 := Halt], phase := Handling([2, 1]));
    var w3 := ResumeCommitted(w2);
    var w4 := HaltCommitted(w3);
    after := Next(w4, Crash);
    CrashLeaves(w4);
    TiedRestore(after);
    EightSteps(w, Submit(2, Resume), Submit(1, Halt), Fetch([2, 1]), Handle, Commit(0), Handle, Commit(0), Crash);
  }

  lemma ResumeCommitted(w: World) returns (after: World)
    requires w.phase == Handling([2, 1]) && w.pending == map[2 := Resume, 1 := Halt] && w.fsm == Fsm(RUNNING, false)
    requires w.applied == [] && w.log == []
    ensures after == Next(Next(w, Handle), Commit(0))
    ensures after == w.(pending := map[1 := Halt], applied := [Applied(2, Resume, 0)], fsm := Fsm(RECOVERING, false),
                        log := [ResumeApplied], phase := Handling([1]))
  {
    HandleAndCommit(w, 0);
    hide Next;
    after := Next(Next(w, Handle), Commit(0));
    assert w.pending - {2} == map[1 := Halt] && [2, 1][1..] == [1];
  }

  lemma HaltCommitted(w: World) returns (after: World)
    requires w.phase == Handling([1]) && w.pending == map[1 := Halt] && w.fsm == Fsm(RECOVERING, false)
    requires w.applied == [Applied(2, Resume, 0)] && w.log == [ResumeApplied]
    ensures after == Next(Next(w, Handle), Commit(0))
    ensures after == w.(pending := map[], applied := [Applied(2, Resume, 0), Applied(1, Halt, 0)],
                        fsm := Fsm(HALTED, true),
                        log := [ResumeApplied, HaltApplied], phase := Handling([]))
  {
    HandleAndCommit(w, 0);
    hide Next;
    after := Next(Next(w, Handle), Commit(0));
    assert w.pending - {1} == map[] && [1][1..] == [];
  }

  lemma EightSteps(w: World, s: Step, t: Step, u: Step, v: Step, s': Step, t': Step, u': Step, v': Step)
    ensures Run(w, [s, t, u, v, s', t', u', v']) ==
            Next(Next(Next(Next(Next(Next(Next(Next(w, s), t), u), v), s'), t'), u'), v')
  {
    hide Next, Run;
    var a, b, c := [s, t, u], [v, s', t'], [u', v'];
    RunThree(w, s, t, u);
    RunThree(Run(w, a), v, s', t');
    RunTwo(Run(Run(w, a), b), u', v');
    RunConcat(w, a, b);
    RunConcat(w, a + b, c);
    assert a + b + c == [s, t, u, v, s', t', u', v'];
  }

  lemma CrashLeaves(w: World)
    ensures Next(w, Crash) == w.(phase := Down, fsm := Fsm(STARTING, false))
  {
  }

  /** The row that this restart goes by is the resume, whose id is greater. */
  lemma TiedRestore(w: World)
    requires w.applied == [Applied(2, Resume, 0), Applied(1, Halt, 0)] && w.runnerState == Some(RUNNING)
    ensures TopIs(w.applied, Resume) && !ShouldHalt(w)
  {
    assert IsTop(w.applied, 0);
    OneTop(w.applied, 0);
    var k := LatestIsTop(w.applied);
  }
}
