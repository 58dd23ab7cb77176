/** The task lifecycle: the one table of legal transitions. */
module Transitions {
  import opened Wrappers

  datatype TaskState = Created | Planning | Ready | Running | Verifying | Completed | Failed | Cancelled | Blocked
    | Recovering | Stabilizing | SecurityHalted

  /** `Other` is any event name the table does not have. */
  datatype Event = StartPlanning | PlanReady | PlanFailed | AuthorizeAndRun | ExecutionComplete | ExecutionFailed
    | ExecutionUnknown | SecurityHalt | Verified | StepVerified | VerificationFailed | Retry | Recovered
    | RecoveryFailed | Stabilized | Destabilized | Unblock | Block | Cancel | Other

  const TERMINAL := {Completed, Cancelled, SecurityHalted}

  function NextState(state: TaskState, event: Event): Option<TaskState> {
    match (state, event)
    case (Created, StartPlanning) => Some(Planning)
    case (Created, Cancel) => Some(Cancelled)
    case (Planning, PlanReady) => Some(Ready)
    case (Planning, PlanFailed) => Some(Failed)
    case (Planning, Block) => Some(Blocked)
    case (Planning, Cancel) => Some(Cancelled)
    case (Ready, AuthorizeAndRun) => Some(Running)
    case (Ready, Block) => Some(Blocked)
    case (Ready, Cancel) => Some(Cancelled)
    case (Running, ExecutionComplete) => Some(Verifying)
    case (Running, ExecutionFailed) => Some(Failed)
    case (Running, ExecutionUnknown) => Some(Blocked)
    case (Running, SecurityHalt) => Some(SecurityHalted)
    case (Running, Cancel) => Some(Cancelled)
    case (Verifying, Verified) => Some(Completed)
    case (Verifying, StepVerified) => Some(Ready)
    case (Verifying, VerificationFailed) => Some(Failed)
    case (Failed, Retry) => Some(Recovering)
    case (Recovering, Recovered) => Some(Stabilizing)
    case (Recovering, RecoveryFailed) => Some(Failed)
    case (Stabilizing, Stabilized) => Some(Ready)
    case (Stabilizing, Destabilized) => Some(Failed)
    case (Blocked, Unblock) => Some(Ready)
    case (Blocked, Cancel) => Some(Cancelled)
    case _ => None
  }

  /** Following a trace of events from a state; no step of it may be illegal. */
  function Fold(state: TaskState, trace: seq<Event>): Option<TaskState> {
    if trace == [] then Some(state)
    else
      var before := Fold(state, trace[..|trace| - 1]);
      if before.None? then None else NextState(before.value, trace[|trace| - 1])
  }

  function WayOut(state: TaskState): Event {
    match state
    case Verifying => Verified
    case Failed => Retry
    case Recovering => Recovered
    case Stabilizing => Stabilized
    case _ => Cancel
  }

  /** A state is terminal exactly when no event leads out of it. */
  lemma TerminalMeansStuck(state: TaskState, event: Event)
    ensures state in TERMINAL ==> NextState(state, event).None?
    ensures state !in TERMINAL ==> NextState(state, WayOut(state)).Some?
  {
    match state case _ =>
  }

  /** Each state of the path to completion has one way in. */
  lemma OnlyWayIn(before: TaskState, event: Event)
    ensures NextState(before, event) == Some(Completed) ==> before == Verifying && event == Verified
    ensures NextState(before, event) == Some(Verifying) ==> before == Running && event == ExecutionComplete
    ensures NextState(before, event) == Some(Running) ==> before == Ready && event == AuthorizeAndRun
  {}

  /** How a trace ends that arrives in `state`. */
  ghost predicate Arrives(trace: seq<Event>, before: TaskState, event: Event) {
    && trace != [] && trace[|trace| - 1] == event && Fold(Created, trace[..|trace| - 1]) == Some(before)
  }

  lemma LastMove(trace: seq<Event>)
    ensures Fold(Created, trace) == Some(Completed) ==> Arrives(trace, Verifying, Verified)
    ensures Fold(Created, trace) == Some(Verifying) ==> Arrives(trace, Running, ExecutionComplete)
    ensures Fold(Created, trace) == Some(Running) ==> Arrives(trace, Ready, AuthorizeAndRun)
  {
    if trace != [] {
      var before := Fold(Created, trace[..|trace| - 1]);
      if before.Some? { OnlyWayIn(before.value, trace[|trace| - 1]); }
    }
  }

  /** Nothing completes unless it was authorised, ran to its end and was verified, in that order
      and with nothing in between. */
  lemma CompletionIsEarned(trace: seq<Event>)
    requires Fold(Created, trace) == Some(Completed)
    ensures |trace| >= 3 && trace[|trace| - 3..] == [AuthorizeAndRun, ExecutionComplete, Verified]
  {
    LastMove(trace);
    var two := trace[..|trace| - 1];
    LastMove(two);
    var one := two[..|two| - 1];
    LastMove(one);
    assert one[|one| - 1] == trace[|trace| - 3] && two[|two| - 1] == trace[|trace| - 2];
  }
}
