/** The whole worker (aura/runner/worker.py): the control plane of `WorkerHalt` and the bars of `WorkerBars` in one
    process, taking their steps in turn and crashing together. One log tells what was committed in which order. */
module Worker {
  import opened Wrappers
  import opened PaperLedger
  import opened WorkerBars
  import opened WorkerBarsSafety
  import F = StateMachine
  import H = WorkerHalt

  /** A halt or resume was applied, or trades were committed; for a bar with an entry, whether its feeds were
      healthy. */
  datatype Happening = Controlled(event: H.Event) | Did(deed: Deed, entry: Option<bool>)

  datatype Whole = Whole(control: H.World, books: World, log: seq<Happening>)

  datatype Move = Control(h: H.Step) | Books(b: Step)

  // ---------- whose turn it is ----------

  /** Commands may be submitted and the process may die at any time; otherwise the control plane waits until a bar is
      done. While the connection is stuck it can change its memory but no row. Bars are not processed by the control
      plane itself. */
  predicate MayControl(w: Whole, h: H.Step) {
    match h
    case Submit(_, _) => true
    case Crash => true
    case Construct => true
    case ProcessBar(_) => false
    case Start(_) => w.books.phase.Ready?
    case Commit(_) => w.books.phase.Ready?
    case WriteRunnerState => w.books.phase.Ready?
    case _ => w.books.phase.Ready? || w.books.phase.Stuck?
  }

  /** Bars are begun in their phase of the cycle, with the permission to enter that the control plane gives at that
      moment; closes and resets are effects of a command whose row is still pending. The process does not restart by
      itself. */
  predicate MayBook(w: Whole, b: Step) {
    match b
    case Begin(job) => w.control.phase.Bars? && job.canOpen == F.CanOpenNewTrades(w.control.fsm)
    case Apply(_) =>
      && w.control.phase.Committing? && w.control.phase.rows != []
      && w.control.phase.rows[0] in w.control.pending && w.control.pending[w.control.phase.rows[0]].OtherCommand?
    case Crash => false
    case Restart => false
    case _ => true
  }

  /** Some account takes an entry on the bar under way. */
  ghost predicate Enters(z: Setup, w: World) {
    && w.phase.Committing? && w.phase.gate
    && exists a :: a in z.cfgs && a in w.phase.snapshot
                   && TakesEntry(z.cfgs[a], Updated(z.cfgs[a], w.phase.snapshot[a], w.phase.job), a, w.phase.job)
  }

  /** What a move does to the control plane; the commit of a bar with an entry is an entry there. */
  ghost function ControlPart(z: Setup, w: Whole, m: Move): Option<H.Step> {
    match m
    case Control(h) => if MayControl(w, h) then Some(h) else None
    case Books(b) => if b.Commit? && Enters(z, w.books) then Some(H.ProcessBar(true)) else None
  }

  /** What a move does to the bars; they die with the process and are loaded with it. */
  function BooksPart(w: Whole, m: Move): Option<Step> {
    match m
    case Control(h) => if h.Crash? then Some(Crash) else if h.Construct? then Some(Restart) else None
    case Books(b) => if MayBook(w, b) then Some(b) else None
  }

  function ControlNext(w: H.World, part: Option<H.Step>): H.World {
    if part.Some? then H.Next(w, part.value) else w
  }

  ghost function BooksNext(z: Setup, w: World, part: Option<Step>): World {
    if part.Some? then Next(z, w, part.value) else w
  }

  /** What a move adds to the log. */
  ghost function Noted(z: Setup, w: Whole, m: Move): seq<Happening> {
    var control, books := ControlNext(w.control, ControlPart(z, w, m)), BooksNext(z, w.books, BooksPart(w, m));
    if |books.db.history| > |w.books.db.history| then
      var entry := if |control.log| > |w.control.log| && w.control.phase.Bars? then Some(w.control.phase.feedsHealthy)
        else None;
      [Did(books.db.history[|w.books.db.history|], entry)]
    else if |control.log| > |w.control.log| then [Controlled(control.log[|w.control.log|])]
    else []
  }

  ghost function Moved(z: Setup, w: Whole, m: Move): Whole {
    Whole(ControlNext(w.control, ControlPart(z, w, m)), BooksNext(z, w.books, BooksPart(w, m)), w.log + Noted(z, w, m))
  }

  ghost function RunAll(z: Setup, moves: seq<Move>): Whole {
    if moves == [] then Whole(H.Fresh(), Fresh(z), [])
    else Moved(z, RunAll(z, moves[..|moves| - 1]), moves[|moves| - 1])
  }

  // ---------- the two machines inside ----------

  function Listed<T>(part: Option<T>): seq<T> {
    if part.Some? then [part.value] else []
  }

  ghost function ControlSteps(z: Setup, moves: seq<Move>): seq<H.Step> {
    if moves == [] then []
    else
      var front := moves[..|moves| - 1];
      ControlSteps(z, front) + Listed(ControlPart(z, RunAll(z, front), moves[|moves| - 1]))
  }

  ghost function BookSteps(z: Setup, moves: seq<Move>): seq<Step> {
    if moves == [] then []
    else
      var front := moves[..|moves| - 1];
      BookSteps(z, front) + Listed(BooksPart(RunAll(z, front), moves[|moves| - 1]))
  }

  lemma ControlRun(steps: seq<H.Step>, part: Option<H.Step>)
    ensures H.Run(H.Fresh(), steps + Listed(part)) == ControlNext(H.Run(H.Fresh(), steps), part)
  {
    hide H.Next;
    if part.Some? {
      assert (steps + [part.value])[..|steps|] == steps;
    } else {
      assert steps + Listed(part) == steps;
    }
  }

  lemma BookRun(z: Setup, steps: seq<Step>, part: Option<Step>)
    ensures Run(z, Fresh(z), steps + Listed(part)) == BooksNext(z, Run(z, Fresh(z), steps), part)
  {
    hide Next, Fresh;
    if part.Some? {
      RunOne(z, Fresh(z), steps, part.value);
    } else {
      assert steps + Listed(part) == steps;
    }
  }

  /** Every run of the worker is a run of both machines. */
  lemma {:induction false} BothRun(z: Setup, moves: seq<Move>)
    ensures RunAll(z, moves).control == H.Run(H.Fresh(), ControlSteps(z, moves))
    ensures RunAll(z, moves).books == Run(z, Fresh(z), BookSteps(z, moves))
  {
    hide H.Next, H.Fresh, Fresh, Next, ControlPart, BooksPart, Noted;
    if moves != [] {
      var front := moves[..|moves| - 1];
      BothRun(z, front);
      ControlRun(ControlSteps(z, front), ControlPart(z, RunAll(z, front), moves[|moves| - 1]));
      BookRun(z, BookSteps(z, front), BooksPart(RunAll(z, front), moves[|moves| - 1]));
    }
  }

  // ---------- one log ----------

  function Deeds(log: seq<Happening>): seq<Deed> {
    if log == [] then []
    else
      var last := log[|log| - 1];
      Deeds(log[..|log| - 1]) + if last.Did? then [last.deed] else []
  }

  function Controls(log: seq<Happening>): seq<H.Event> {
    if log == [] then []
    else
      Controls(log[..|log| - 1]) +
        match log[|log| - 1]
        case Controlled(event) => [event]
        case Did(_, entry) => if entry.Some? then [H.Entered(entry.value)] else []
  }

  predicate GateAllowed(phase: Phase) {
    match phase
    case Entering(job, _, gate, _, _) => gate ==> job.canOpen
    case Logging(job, gate, _) => gate ==> job.canOpen
    case Committing(job, gate, _) => gate ==> job.canOpen
    case _ => true
  }

  /** The log tells the story of both machines, and a bar under way may enter only if the control plane allows it
      now. */
  predicate Together(w: Whole) {
    && Deeds(w.log) == w.books.db.history && Controls(w.log) == w.control.log
    && (InBlock(w.books.phase) ==>
          w.control.phase.Bars? && w.books.phase.job.canOpen == F.CanOpenNewTrades(w.control.fsm))
    && GateAllowed(w.books.phase)
  }

  lemma LogGrows(w: H.World, h: H.Step)
    ensures var w' := H.Next(w, h); w'.log == w.log || exists e :: w'.log == w.log + [e]
    ensures h.Submit? ==> H.Next(w, h).phase == w.phase && H.Next(w, h).fsm == w.fsm
    ensures h.Construct? && !w.phase.Down? ==> H.Next(w, h) == w
  {
    match h
    case Commit(at) => hide F.ResumeFromHalt;
    case _ =>
      hide H.Restored, H.StartedUp, H.Fetched, H.AllHealthy, H.Effect, H.AfterFeeds, F.MarkDegraded, H.Committed;
  }

  lemma EntryLogged(w: H.World)
    requires w.phase.Bars? && F.CanOpenNewTrades(w.fsm)
    ensures H.Next(w, H.ProcessBar(true)) == w.(log := w.log + [H.Entered(w.phase.feedsHealthy)])
  {
  }

  lemma HistoryGrows(z: Setup, w: World, b: Step)
    ensures var before, after := w.db.history, Next(z, w, b).db.history;
            && (after == before || (|after| == |before| + 1 && after == before + [after[|before|]]))
            && (after != before ==> (b.Commit? && w.phase.Committing?) || (b.Apply? && w.phase.Ready?))
            && (b.Commit? && w.phase.Committing? ==> after == before + [BarDone(w.phase.job)])
  {
    hide Advanced, RolledBack, Reloaded, RowsBack, AllCommanded, DeedOf, Tables, Completion, Updated, LogDone, Claimed;
    match b
    case Commit =>
    case Apply(_) =>
    case _ =>
      hide Left, Applied;
      StaysPut(z, w, b);
  }

  lemma StaysPut(z: Setup, w: World, b: Step)
    requires !b.Commit? && !b.Apply?
    ensures Next(z, w, b).db == w.db
  {
    hide RolledBack, Reloaded, RowsBack, Updated, Entered, ExitAlerts, EntryAlerts, Gate, Completion;
  }

  /** A step that is not a beginning stays with the bar under way, or leaves it. */
  lemma SameBar(z: Setup, w: World, b: Step)
    requires GateAllowed(w.phase)
    ensures GateAllowed(Next(z, w, b).phase)
    ensures InBlock(Next(z, w, b).phase) ==>
              if InBlock(w.phase) then Next(z, w, b).phase.job == w.phase.job
              else b.Begin? && Next(z, w, b).phase.job == b.job
  {
    hide RolledBack, Reloaded, RowsBack, AllCommanded, DeedOf, Tables, Completion, Updated, Entered, ExitAlerts,
         EntryAlerts;
  }

  lemma NotedOne(log: seq<Happening>, x: Happening)
    ensures Deeds(log + [x]) == Deeds(log) + if x.Did? then [x.deed] else []
    ensures Controls(log + [x]) ==
            Controls(log) +
              match x
              case Controlled(event) => [event]
              case Did(_, entry) => if entry.Some? then [H.Entered(entry.value)] else []
  {
    assert (log + [x])[..|log|] == log;
  }

  /** The happenings of a log once both machines have gone on. */
  lemma LogFollows(z: Setup, w: Whole, m: Move)
    requires Deeds(w.log) == w.books.db.history && Controls(w.log) == w.control.log
    requires var after, before := Moved(z, w, m).books.db.history, w.books.db.history;
             after == before || (|after| == |before| + 1 && after == before + [after[|before|]])
    requires var after, before := Moved(z, w, m).control.log, w.control.log;
             after == before || (|after| == |before| + 1 && after == before + [after[|before|]])
    requires var w' := Moved(z, w, m);
             w'.books.db.history != w.books.db.history && w'.control.log != w.control.log ==>
               w.control.phase.Bars? && w'.control.log[|w.control.log|] == H.Entered(w.control.phase.feedsHealthy)
    ensures var w' := Moved(z, w, m); Deeds(w'.log) == w'.books.db.history && Controls(w'.log) == w'.control.log
  {
    hide ControlNext, BooksNext, ControlPart, BooksPart, Deeds, Controls;
    var w' := Moved(z, w, m);
    if w'.books.db.history != w.books.db.history {
      var entry := if w'.control.log != w.control.log then Some(w.control.phase.feedsHealthy) else None;
      NotedOne(w.log, Did(w'.books.db.history[|w.books.db.history|], entry));
    } else if w'.control.log != w.control.log {
      NotedOne(w.log, Controlled(w'.control.log[|w.control.log|]));
    } else {
      assert w.log + [] == w.log;
    }
  }

  lemma ControlTogether(z: Setup, w: Whole, h: H.Step)
    requires Together(w) && MayControl(w, h)
    ensures Together(Moved(z, w, Control(h)))
  {
    hide H.Next, Next, GateAllowed, F.CanOpenNewTrades, Noted, Deeds, Controls;
    LogGrows(w.control, h);
    CrashAndRestart(z, w.books);
    LogFollows(z, w, Control(h));
  }

  lemma CrashAndRestart(z: Setup, w: World)
    ensures var down, up := Next(z, w, Crash), Next(z, w, Restart);
            && down.phase.Down? && down.db == w.db && GateAllowed(down.phase)
            && up.db == w.db && (up.phase.Ready? || up == w)
            && (GateAllowed(w.phase) ==> GateAllowed(up.phase))
  {
    hide Reloaded;
  }

  /** What the control plane notices of a bar's step: its entry, when it commits. */
  lemma ControlNotices(z: Setup, w: Whole, b: Step)
    requires Together(w)
    ensures var c, c' := w.control, ControlNext(w.control, ControlPart(z, w, Books(b)));
            c' == c || (b.Commit? && w.books.phase.Committing? && c.phase.Bars?
                        && c' == c.(log := c.log + [H.Entered(c.phase.feedsHealthy)]))
  {
    hide TakesEntry, Updated, Deeds, Controls, F.CanOpenNewTrades;
    if b.Commit? && Enters(z, w.books) { EntryLogged(w.control); }
    hide H.Next;
  }

  lemma BookTogether(z: Setup, w: Whole, b: Step)
    requires Together(w) && MayBook(w, b)
    ensures Together(Moved(z, w, Books(b)))
  {
    ControlNotices(z, w, b);
    HistoryGrows(z, w.books, b);
    SameBar(z, w.books, b);
    CommitLeaves(z, w.books);
    hide H.Next, Next, F.CanOpenNewTrades, ControlPart, ControlNext, Noted, Deeds, Controls, GateAllowed;
    LogFollows(z, w, Books(b));
  }

  lemma CommitLeaves(z: Setup, w: World)
    ensures w.phase.Committing? ==> !InBlock(Next(z, w, Commit).phase)
  {
    hide Tables;
  }

  lemma {:induction false} AllTogether(z: Setup, moves: seq<Move>)
    ensures Together(RunAll(z, moves))
  {
    hide Moved, Together;
    if moves == [] {
      StartTogether(z);
    } else {
      var front, last := moves[..|moves| - 1], moves[|moves| - 1];
      AllTogether(z, front);
      MoveTogether(z, RunAll(z, front), last);
    }
  }

  lemma StartTogether(z: Setup)
    ensures Together(RunAll(z, []))
  {
  }

  lemma MoveTogether(z: Setup, w: Whole, m: Move)
    requires Together(w)
    ensures Together(Moved(z, w, m))
  {
    hide Together;
    match m
    case Control(h) => if MayControl(w, h) { ControlTogether(z, w, h); } else { NothingMoves(z, w, m); }
    case Books(b) => if MayBook(w, b) { BookTogether(z, w, b); } else { NothingMoves(z, w, m); }
  }

  lemma NothingMoves(z: Setup, w: Whole, m: Move)
    requires match m case Control(h) => !MayControl(w, h) case Books(b) => !MayBook(w, b)
    ensures Moved(z, w, m) == w
  {
    hide H.Next, Next;
    assert w.log + [] == w.log;
  }

  // ---------- the theorems ----------

  /** A bar commits with an entry only while the control plane is running and its feeds' phase is on. */
  lemma EntersOnlyRunning(z: Setup, moves: seq<Move>)
    ensures var w := RunAll(z, moves);
            Enters(z, w.books) ==> w.control.phase.Bars? && w.control.fsm == F.Fsm(F.RUNNING, false)
  {
    hide RunAll, TakesEntry, Updated, BookSteps, ControlSteps;
    AllTogether(z, moves);
    BothRun(z, moves);
    H.HaltedMeansHalted(ControlSteps(z, moves));
    hide H.Run;
  }

  /** An entry was committed. */
  predicate EntryAt(log: seq<Happening>, e: int) {
    0 <= e < |log| && log[e].Did? && log[e].entry.Some?
  }

  lemma LastEvent(log: seq<H.Event>, e: H.Event)
    requires H.SafeLog(log + [e])
    ensures H.SafeLog(log) && (e.Entered? ==> e.feedsHealthy && H.LastControl(log) != Some(H.HaltApplied))
    ensures H.LastControl(log + [e]) == if e.Entered? then H.LastControl(log) else Some(e)
  {
    assert (log + [e])[..|log|] == log;
  }

  lemma LastHappening(log: seq<Happening>)
    requires log != [] && H.SafeLog(Controls(log))
    ensures var front := log[..|log| - 1];
            && H.SafeLog(Controls(front))
            && (EntryAt(log, |log| - 1) ==>
                  log[|log| - 1].entry.value && H.LastControl(Controls(front)) != Some(H.HaltApplied))
            && (H.LastControl(Controls(log)) ==
                if log[|log| - 1].Controlled? && !log[|log| - 1].event.Entered? then Some(log[|log| - 1].event)
                else H.LastControl(Controls(front)))
  {
    hide Controls, H.SafeLog, H.LastControl;
    var front, last := log[..|log| - 1], log[|log| - 1];
    NotedOne(front, last);
    assert front + [last] == log;
    match last
    case Controlled(event) => LastEvent(Controls(front), event);
    case Did(_, entry) =>
      assert Controls(front) + [] == Controls(front);
      if entry.Some? { LastEvent(Controls(front), H.Entered(entry.value)); }
  }

  lemma {:induction false} EntryIsHealthy(log: seq<Happening>, e: int)
    requires H.SafeLog(Controls(log)) && EntryAt(log, e)
    ensures log[e].entry.value
  {
    hide Controls, H.SafeLog, H.LastControl;
    LastHappening(log);
    if e < |log| - 1 {
      EntryIsHealthy(log[..|log| - 1], e);
    }
  }

  lemma {:induction false} ResumedAfter(log: seq<Happening>, h: int) returns (r: int)
    requires H.SafeLog(Controls(log)) && 0 <= h < |log| && log[h] == Controlled(H.HaltApplied)
    requires H.LastControl(Controls(log)) != Some(H.HaltApplied)
    ensures h < r < |log| && log[r] == Controlled(H.ResumeApplied)
  {
    hide Controls, H.SafeLog, H.LastControl;
    LastHappening(log);
    var last := log[|log| - 1];
    if last.Controlled? && !last.event.Entered? {
      r := |log| - 1;
    } else {
      var front := log[..|log| - 1];
      assert front[h] == log[h];
      r := ResumedAfter(front, h);
      assert front[r] == log[r];
    }
  }

  lemma {:induction false} ResumedBetween(log: seq<Happening>, h: int, e: int) returns (r: int)
    requires H.SafeLog(Controls(log)) && 0 <= h < e && EntryAt(log, e) && log[h] == Controlled(H.HaltApplied)
    ensures h < r < e && log[r] == Controlled(H.ResumeApplied)
  {
    hide Controls, H.SafeLog, H.LastControl;
    LastHappening(log);
    var front := log[..|log| - 1];
    assert front[h] == log[h];
    if e < |log| - 1 {
      assert front[e] == log[e];
      r := ResumedBetween(front, h, e);
    } else {
      r := ResumedAfter(front, h);
    }
    assert front[r] == log[r];
  }

  /** The worker as a whole, over any run of commands, cycles, attempts, aborts, errors, crashes and restarts in which
      no restart forgets a halt and every lost transaction is harmless: the committed trades of a snapshotted account
      are the fold of the log, bars and operator's commands in the order of their commits, each bar once; every entry
      was made with healthy feeds; and between an applied halt and a later entry of that same log a resume was
      applied. */
  lemma WorkerIsSafe(z: Setup, moves: seq<Move>, a: Account)
    requires Covered(z) && a in z.snapshotted
    requires LossesAreHarmless(z, BookSteps(z, moves)) && H.NeverForgets(ControlSteps(z, moves))
    ensures var w := RunAll(z, moves);
            && Replayed(z, Deeds(w.log), a, if a in w.books.db.tables then w.books.db.tables[a] else map[])
            && EachBarOnce(Deeds(w.log))
            && (forall e :: EntryAt(w.log, e) ==> w.log[e].entry.value)
            && (forall h, e :: 0 <= h < e && EntryAt(w.log, e) && w.log[h] == Controlled(H.HaltApplied) ==>
                  exists r :: h < r < e && w.log[r] == Controlled(H.ResumeApplied))
  {
    hide RunAll, BookSteps, ControlSteps, Run, H.Run, LossesAreHarmless, H.NeverForgets, Replayed, EachBarOnce,
         H.SafeLog, Controls, Deeds;
    var w := RunAll(z, moves);
    AllTogether(z, moves);
    BothRun(z, moves);
    BarsTakeEffectOnce(z, BookSteps(z, moves), a);
    BarsCompleteOnce(z, BookSteps(z, moves));
    SafeControl(ControlSteps(z, moves));
    forall e | EntryAt(w.log, e)
      ensures w.log[e].entry.value
    {
      EntryIsHealthy(w.log, e);
    }
    forall h, e | 0 <= h < e && EntryAt(w.log, e) && w.log[h] == Controlled(H.HaltApplied)
      ensures exists r :: h < r < e && w.log[r] == Controlled(H.ResumeApplied)
    {
      var r := ResumedBetween(w.log, h, e);
    }
  }

  lemma SafeControl(steps: seq<H.Step>)
    requires H.NeverForgets(steps)
    ensures H.SafeLog(H.Run(H.Fresh(), steps).log)
  {
    hide H.Run, H.SafeLog;
    H.RunKeeps(steps);
  }
}
