/** The runner's state machine (aura/runner/state_machine.py). */
module StateMachine {
  datatype SystemState = STARTING | WARMING_UP | RUNNING | DEGRADED | HALTED | RECOVERING

  /** The valid transitions. */
  function ValidTransitions(s: SystemState): set<SystemState> {
    match s
    case STARTING => {WARMING_UP, HALTED, DEGRADED}
    case WARMING_UP => {RUNNING, DEGRADED, HALTED}
    case RUNNING => {DEGRADED, HALTED, RECOVERING}
    case DEGRADED => {RUNNING, HALTED, RECOVERING}
    case HALTED => {RECOVERING, WARMING_UP}
    case RECOVERING => {WARMING_UP, RUNNING, DEGRADED, HALTED}
  }

  /** The state and the halt flag, which are two separate fields. */
  datatype Fsm = Fsm(state: SystemState, halted: bool)

  predicate Accepts(f: Fsm, next: SystemState) {
    next == f.state || next in ValidTransitions(f.state)
  }

  function TransitionTo(f: Fsm, next: SystemState): Fsm {
    if Accepts(f, next) then f.(state := next) else f
  }

  function EmergencyHalt(f: Fsm): Fsm {
    TransitionTo(f.(halted := true), HALTED)
  }

  function ResumeFromHalt(f: Fsm): Fsm {
    TransitionTo(f.(halted := false), RECOVERING)
  }

  function MarkDegraded(f: Fsm): Fsm {
    if f.state in {RUNNING, WARMING_UP} then TransitionTo(f, DEGRADED) else f
  }

  function MarkHealthy(f: Fsm): Fsm {
    if f.state in {DEGRADED, RECOVERING, WARMING_UP} then TransitionTo(f, RUNNING) else f
  }

  predicate CanOpenNewTrades(f: Fsm) {
    f.state == RUNNING && !f.halted
  }

  class RunnerStateMachine {
    var state: SystemState
    var halted: bool
    var reason: string
    var haltReason: string
    var sinceMs: int

    function Core(): Fsm
      reads this
    {
      Fsm(state, halted)
    }

    constructor (initial: SystemState, nowMs: int)
      ensures Core() == Fsm(initial, false) && sinceMs == nowMs && haltReason == ""
    {
      state, halted, reason, haltReason, sinceMs := initial, false, "System gestartet", "", nowMs;
    }

    /** An accepted change of state takes the new reason and time; anything else leaves them. */
    method Transition(next: SystemState, why: string, nowMs: int) returns (done: bool)
      modifies `state, `reason, `sinceMs
      ensures done == Accepts(old(Core()), next) && Core() == TransitionTo(old(Core()), next)
      ensures state != old(state) ==> sinceMs == nowMs && (why != "" ==> reason == why)
      ensures state == old(state) ==> sinceMs == old(sinceMs) && reason == old(reason)
    {
      if next == state {
        return true;
      }
      if next !in ValidTransitions(state) {
        return false;
      }
      state, sinceMs := next, nowMs;
      reason := if why != "" then why else "Transition";
      done := true;
    }

    method Halt(why: string, nowMs: int)
      modifies this
      ensures Core() == EmergencyHalt(old(Core())) && haltReason == why
    {
      halted, haltReason := true, why;
      var _ := Transition(HALTED, "Not-Halt: " + why, nowMs);
    }

    method Resume(why: string, nowMs: int) returns (done: bool)
      modifies this
      ensures Core() == ResumeFromHalt(old(Core())) && haltReason == ""
      ensures done == Accepts(old(Core()), RECOVERING)
    {
      halted, haltReason := false, "";
      done := Transition(RECOVERING, why, nowMs);
    }

    method Degrade(why: string, nowMs: int)
      modifies `state, `reason, `sinceMs
      ensures Core() == MarkDegraded(old(Core()))
    {
      if state in {RUNNING, WARMING_UP} {
        var _ := Transition(DEGRADED, why, nowMs);
      }
    }

    method Heal(why: string, nowMs: int)
      modifies `state, `reason, `sinceMs
      ensures Core() == MarkHealthy(old(Core()))
    {
      if state in {DEGRADED, RECOVERING, WARMING_UP} {
        var _ := Transition(RUNNING, why, nowMs);
      }
    }
  }

  // ---------- the halt flag and the state agree ----------

  predicate Agrees(f: Fsm) {
    f.halted <==> f.state == HALTED
  }

  /** From anywhere a halt lands in HALTED; a resume never leaves the machine halted, and is refused only while starting
      or warming up; the feed marks keep flag and state in agreement and never leave or enter HALTED. */
  lemma HaltAgrees(f: Fsm)
    requires Agrees(f)
    ensures EmergencyHalt(f) == Fsm(HALTED, true)
    ensures Agrees(ResumeFromHalt(f)) && !ResumeFromHalt(f).halted
    ensures Accepts(f, RECOVERING) ==> ResumeFromHalt(f) == Fsm(RECOVERING, false)
    ensures !Accepts(f, RECOVERING) <==> f.state in {STARTING, WARMING_UP}
    ensures Agrees(MarkDegraded(f)) && MarkDegraded(f).halted == f.halted
    ensures Agrees(MarkHealthy(f)) && MarkHealthy(f).halted == f.halted
    ensures CanOpenNewTrades(f) <==> f.state == RUNNING
  {
  }

  /** A direct transition keeps the agreement exactly when it neither enters nor leaves HALTED. */
  lemma TransitionAgrees(f: Fsm, next: SystemState)
    requires Agrees(f)
    ensures Agrees(TransitionTo(f, next)) <==>
            next == f.state || !Accepts(f, next) || (f.state != HALTED && next != HALTED)
  {
  }
}
