/** The control plane of the worker (aura/runner/worker.py) as it runs: restoring, starting, applying commands and
    cycling. Every method does steps of the `WorkerHalt` machine. */
module WorkerCycle {
  import opened Wrappers
  import opened StateMachine
  import opened WorkerHalt

  /** The steps of handling one row after the other. */
  function HandleSteps(times: seq<int>): seq<Step> {
    if times == [] then [] else HandleSteps(times[..|times| - 1]) + [Handle, Commit(times[|times| - 1])]
  }

  function BarSteps(entries: seq<bool>): seq<Step> {
    if entries == [] then [] else BarSteps(entries[..|entries| - 1]) + [ProcessBar(entries[|entries| - 1])]
  }

  function CycleSteps(order: seq<nat>, times: seq<int>, health: seq<bool>, entries: seq<bool>): seq<Step> {
    [Fetch(order)] + HandleSteps(times) + [CheckFeeds(health)] + BarSteps(entries) + [WriteRunnerState]
  }

  /** Where a cycle raises: among the commands, perhaps between a command's effect and its row, or among the bars. */
  datatype CycleFate = Completes | RaisesInCommands(n: nat, midway: bool) | RaisesInBars(n: nat)

  class ControlPlane {
    var pending: map<nat, Kind>
    var applied: seq<Applied>
    var runnerState: Option<SystemState>
    const sm: RunnerStateMachine
    ghost var log: seq<Event>

    ghost function At(phase: Phase): World
      reads this, sm
    {
      World(pending, applied, runnerState, sm.Core(), phase, log)
    }

    /** A new process over the database: whatever was in memory is gone, a persisted halt comes back. */
    constructor (pending: map<nat, Kind>, applied: seq<Applied>, runnerState: Option<SystemState>,
                 ghost log: seq<Event>, nowMs: int)
      ensures fresh(sm)
      ensures At(Constructed) == Next(World(pending, applied, runnerState, Fsm(STARTING, false), Down, log), Construct)
    {
      this.pending, this.applied, this.runnerState := pending, applied, runnerState;
      this.log := log;
      sm := new RunnerStateMachine(STARTING, nowMs);
      new;
      RestorePersistedState(nowMs);
    }

    method RestorePersistedState(nowMs: int)
      modifies sm
      ensures sm.Core() == Restored(old(At(Constructed)))
    {
      hide LatestApplied;
      var last := LatestApplied(applied);
      var shouldHalt := (last.Some? && last.value.kind.Halt?) || runnerState == Some(HALTED);
      if shouldHalt && !sm.halted {
        sm.Halt("Persistierter Not-Halt nach Neustart wiederhergestellt", nowMs);
      }
    }

    method StartUp(warmupOk: bool, nowMs: int)
      modifies this`runnerState, sm
      ensures At(Idle) == Next(Next(old(At(Constructed)), Start(warmupOk)), WriteRunnerState)
    {
      RestorePersistedState(nowMs);
      hide Restored;
      if !sm.halted {
        var _ := sm.Transition(WARMING_UP, "Initialisiere Marktdaten-Feeds", nowMs);
        if warmupOk {
          var _ := sm.Transition(RUNNING, "Feeds initialisiert", nowMs);
        } else {
          sm.Degrade("Marktdaten beim Start unvollstaendig oder offline", nowMs);
        }
      }
      runnerState := Some(sm.state);
    }

    /** The effect in memory; the row is still pending. */
    method TakeEffect(id: nat, ghost rows: seq<nat>, nowMs: int) returns (accepted: bool)
      requires rows != [] && rows[0] == id && id in pending
      modifies sm
      ensures At(Committing(rows, accepted)) == Next(old(At(Handling(rows))), Handle)
    {
      accepted := true;
      match pending[id] {
        case Halt => sm.Halt("Control-Plane Not-Halt", nowMs);
        case Resume => accepted := sm.Resume("Control-Plane Resume", nowMs);
        case OtherCommand =>
      }
    }

    /** Effect in memory, then the update of the row. */
    method HandleRow(id: nat, ghost rows: seq<nat>, nowMs: int)
      requires rows != [] && rows[0] == id && id in pending
      modifies this`pending, this`applied, this`log, sm
      ensures At(Handling(rows[1..])) == Next(Next(old(At(Handling(rows))), Handle), Commit(nowMs))
      ensures pending == old(pending) - {id}
    {
      var accepted := TakeEffect(id, rows, nowMs);
      var kind := pending[id];
      pending := pending - {id};
      if accepted && !kind.OtherCommand? {
        applied := applied + [Applied(id, kind, nowMs)];
        log := log + [if kind.Halt? then HaltApplied else ResumeApplied];
      }
    }

    /** Handle the first fetched rows in order. */
    method ApplyCommands(order: seq<nat>, times: seq<int>, count: nat)
      requires Fetched(order, pending) && |times| == |order| && count <= |order|
      modifies this`pending, this`applied, this`log, sm
      ensures At(Handling(order[count..])) == Run(old(At(Idle)), [Fetch(order)] + HandleSteps(times[..count]))
      ensures forall k :: count <= k < |order| ==> order[k] in pending
    {
      hide Next, Run, HandleSteps;
      ghost var start := At(Idle);
      FetchStep(start, order, times);
      assert order[0..] == order;
      for i := 0 to count
        invariant forall k :: i <= k < |order| ==> order[k] in pending
        invariant At(Handling(order[i..])) == Run(start, [Fetch(order)] + HandleSteps(times[..i]))
      {
        HandleStep(start, order, times, i);
        assert order[i..][1..] == order[i + 1..];
        HandleRow(order[i], order[i..], times[i]);
      }
    }

    method UpdateFeeds(health: seq<bool>, nowMs: int)
      modifies sm
      ensures At(Bars(AllHealthy(health))) == Next(old(At(Handling([]))), CheckFeeds(health))
    {
      var allValid := true;
      for i := 0 to |health|
        invariant allValid <==> forall k :: 0 <= k < i ==> health[k]
        invariant sm.Core() == old(sm.Core()) && runnerState == old(runnerState)
      {
        if !health[i] {
          allValid := false;
        }
      }
      assert AllHealthy(health) <==> allValid && health != [];
      if !allValid || |health| == 0 {
        if sm.state == RUNNING {
          sm.Degrade("Feeds unvollstaendig oder veraltet", nowMs);
        }
      } else {
        sm.Heal("Alle Feeds synchron, aktuell und valide", nowMs);
      }
    }

    method ProcessBars(entries: seq<bool>, ghost healthy: bool) returns (entered: nat)
      modifies this`log
      ensures At(Bars(healthy)) == Run(old(At(Bars(healthy))), BarSteps(entries))
      ensures !CanOpenNewTrades(sm.Core()) ==> entered == 0
    {
      hide Run, BarSteps;
      entered := 0;
      ghost var start := At(Bars(healthy));
      NoBars(start);
      for i := 0 to |entries|
        invariant At(Bars(healthy)) == Run(start, BarSteps(entries[..i]))
        invariant !CanOpenNewTrades(sm.Core()) ==> entered == 0
      {
        OneMoreBar(start, entries, i);
        if entries[i] && sm.state == RUNNING && !sm.halted {
          entered := entered + 1;
          log := log + [Entered(healthy)];
        }
      }
      assert entries[..|entries|] == entries;
    }

    /** An exception somewhere in the cycle: the loop around it marks the worker degraded and goes on. */
    method CatchError(ghost w: World, nowMs: int)
      requires w == At(w.phase) && (w.phase.Handling? || w.phase.Committing? || w.phase.Bars?)
      modifies sm
      ensures At(Idle) == Next(w, CycleError)
    {
      sm.Degrade("Zyklus-Fehler", nowMs);
    }

    /** The command loop up to its end or to an exception, before a row or between its effect and its update. */
    method RunCommands(order: seq<nat>, times: seq<int>, fate: CycleFate, nowMs: int) returns (ghost steps: seq<Step>)
      requires Fetched(order, pending) && |times| == |order|
      modifies this, sm
      ensures runnerState == old(runnerState)
      ensures if fate.RaisesInCommands? then
                At(Idle) == Run(old(At(Idle)), steps) && steps != [] && steps[|steps| - 1] == CycleError
              else At(Handling([])) == Run(old(At(Idle)), steps) && steps == [Fetch(order)] + HandleSteps(times)
    {
      hide Next, Run, HandleSteps;
      ghost var start := At(Idle);
      var count := if fate.RaisesInCommands? && fate.n < |order| then fate.n else |order|;
      ApplyCommands(order, times, count);
      steps := [Fetch(order)] + HandleSteps(times[..count]);
      ghost var w := At(Handling(order[count..]));
      if fate.RaisesInCommands? {
        if fate.midway && count < |order| {
          var accepted := TakeEffect(order[count], order[count..], nowMs);
          w := At(Committing(order[count..], accepted));
          RunConcat(start, steps, [Handle]);
          RunOne(Run(start, steps), Handle);
          steps := steps + [Handle];
        }
        CatchError(w, nowMs);
        RunConcat(start, steps, [CycleError]);
        RunOne(w, CycleError);
        steps := steps + [CycleError];
      } else {
        assert order[|order|..] == [] && times[..|times|] == times;
      }
    }

    /** One cycle: commands, feeds, bars, the runner_state row. An exception on the way ends it in the degraded
        state. */
    method RunCycle(order: seq<nat>, times: seq<int>, health: seq<bool>, entries: seq<bool>, fate: CycleFate,
                    nowMs: int)
      returns (ghost steps: seq<Step>)
      requires Fetched(order, pending) && |times| == |order|
      modifies this, sm
      ensures At(Idle) == Run(old(At(Idle)), steps)
      ensures if fate.Completes? then steps == CycleSteps(order, times, health, entries)
              else steps != [] && steps[|steps| - 1] == CycleError
    {
      hide Next, Run, HandleSteps, BarSteps, AllHealthy;
      ghost var start := At(Idle);
      steps := RunCommands(order, times, fate, nowMs);
      if fate.RaisesInCommands? {
        return;
      }
      ghost var handled := At(Handling([]));
      UpdateFeeds(health, nowMs);
      ghost var fed := At(Bars(AllHealthy(health)));
      var count := if fate.RaisesInBars? && fate.n < |entries| then fate.n else |entries|;
      var _ := ProcessBars(entries[..count], AllHealthy(health));
      ghost var processed := At(Bars(AllHealthy(health)));
      assert entries[..|entries|] == entries;
      if fate.RaisesInBars? {
        CatchError(processed, nowMs);
        CycleRun(start, order, times, health, entries[..count], handled, fed, processed, CycleError);
        steps := [Fetch(order)] + HandleSteps(times) + [CheckFeeds(health)] + BarSteps(entries[..count]) + [CycleError];
        return;
      }
      runnerState := Some(sm.state);
      assert At(Idle) == Next(processed, WriteRunnerState) by { WriteStep(processed); }
      CycleRun(start, order, times, health, entries, handled, fed, processed, WriteRunnerState);
      steps := CycleSteps(order, times, health, entries);
    }
  }

  lemma FetchStep(start: World, order: seq<nat>, times: seq<int>)
    requires start.phase.Idle? && Fetched(order, start.pending)
    ensures start.(phase := Handling(order)) == Run(start, [Fetch(order)] + HandleSteps(times[..0]))
  {
    assert [Fetch(order)] + HandleSteps(times[..0]) == [Fetch(order)];
    assert Run(start, [Fetch(order)][..0]) == start;
  }

  lemma HandleStep(start: World, order: seq<nat>, times: seq<int>, i: nat)
    requires i < |times|
    ensures Run(start, [Fetch(order)] + HandleSteps(times[..i + 1]))
            == Next(Next(Run(start, [Fetch(order)] + HandleSteps(times[..i])), Handle), Commit(times[i]))
  {
    hide Next;
    var before := [Fetch(order)] + HandleSteps(times[..i]);
    assert times[..i + 1][..i] == times[..i];
    assert [Fetch(order)] + HandleSteps(times[..i + 1]) == before + [Handle, Commit(times[i])];
    RunConcat(start, before, [Handle, Commit(times[i])]);
    RunTwo(Run(start, before), Handle, Commit(times[i]));
  }

  lemma NoBars(start: World)
    ensures start == Run(start, BarSteps([]))
  {
  }

  lemma OneMoreBar(start: World, entries: seq<bool>, i: nat)
    requires i < |entries|
    ensures Run(start, BarSteps(entries[..i + 1])) == Next(Run(start, BarSteps(entries[..i])), ProcessBar(entries[i]))
  {
    hide Next;
    assert entries[..i + 1][..i] == entries[..i];
    assert BarSteps(entries[..i + 1])[..|BarSteps(entries[..i])|] == BarSteps(entries[..i]);
  }

  lemma WriteStep(w: World)
    requires w.phase.Bars?
    ensures Next(w, WriteRunnerState) == w.(phase := Idle, runnerState := Some(w.fsm.state))
  {
  }

  lemma RunOne(w: World, s: Step)
    ensures Run(w, [s]) == Next(w, s)
  {
    hide Next;
    assert [s][..0] == [];
  }

  lemma CycleRun(start: World, order: seq<nat>, times: seq<int>, health: seq<bool>, entries: seq<bool>, handled: World,
                 fed: World, processed: World, end: Step)
    requires handled == Run(start, [Fetch(order)] + HandleSteps(times))
    requires fed == Next(handled, CheckFeeds(health)) && processed == Run(fed, BarSteps(entries))
    ensures Run(start, [Fetch(order)] + HandleSteps(times) + [CheckFeeds(health)] + BarSteps(entries) + [end]) ==
            Next(processed, end)
  {
    hide Next, Run, HandleSteps, BarSteps;
    var a, c := [Fetch(order)] + HandleSteps(times), BarSteps(entries);
    RunConcat(start, a, [CheckFeeds(health)]);
    RunOne(handled, CheckFeeds(health));
    RunConcat(start, a + [CheckFeeds(health)], c);
    RunConcat(start, a + [CheckFeeds(health)] + c, [end]);
    RunOne(processed, end);
  }
}
