/** The services as they run: each method against what the lifecycle model says it commits. */
module LifecycleServices {
  import opened Wrappers
  import opened Lifecycle
  import opened Retry
  import opened Transactions
  import opened Transitions

  /** `with uow:` around one write. */
  function Within(s: Session<Store>, t: Store): Session<Store> {
    s.Entered().Written(t).Exited(true)
  }

  /** Between transactions, as every service method is entered and left. */
  ghost predicate Settled(uow: UnitOfWork<Store>)
    reads uow
  {
    uow.depth == 0 && uow.working == uow.durable
  }

  datatype AdvanceError = TaskNotFound | IllegalTransition

  class Orchestrator {
    const uow: UnitOfWork<Store>

    constructor (uow: UnitOfWork<Store>)
      ensures this.uow == uow
    {
      this.uow := uow;
    }

    method CreateTask(id: string)
      requires id !in uow.working.tasks
      modifies uow
      ensures uow.Snapshot() == Within(old(uow.Snapshot()), Noted(WithFile(old(uow.working), id, NEW_TASK), id, TaskCreated))
    {
      uow.Enter();
      uow.Write(WithFile(uow.working, id, NEW_TASK));
      uow.Write(Noted(uow.working, id, TaskCreated));
      uow.Exit(true);
    }

    /** Works at any depth: on its own it commits, inside another block it leaves that to the block. */
    method Advance(id: string, event: Event) returns (r: Result<TaskState, AdvanceError>)
      modifies uow
      ensures r.Success? <==> CanMove(old(uow.working), id, event)
      ensures r.Success? ==> Some(r.value) == NextState(old(uow.working).tasks[id].state, event)
      ensures r == Failure(TaskNotFound) <==> id !in old(uow.working).tasks
      ensures uow.Snapshot() ==
        if id in old(uow.working).tasks then Within(old(uow.Snapshot()), Advanced(old(uow.working), id, event))
        else old(uow.Snapshot())
    {
      if id !in uow.working.tasks { return Failure(TaskNotFound); }
      var file := uow.working.tasks[id];
      var next := NextState(file.state, event);
      uow.Enter();
      if next.None? {
        uow.Write(Noted(uow.working, id, Rejected(event)));
        uow.Exit(true);
        return Failure(IllegalTransition);
      }
      uow.Write(WithFile(uow.working, id, file.(state := next.value)));
      uow.Write(Noted(uow.working, id, Moved(event)));
      uow.Exit(true);
      return Success(next.value);
    }

    method AttachPlan(id: string, planId: string) returns (found: bool)
      modifies uow
      ensures found <==> id in old(uow.working).tasks
      ensures uow.Snapshot() ==
        if found then Within(old(uow.Snapshot()),
          Noted(WithFile(old(uow.working), id, old(uow.working).tasks[id].(planId := Some(planId))), id, PlanAttached(planId)))
        else old(uow.Snapshot())
    {
      if id !in uow.working.tasks { return false; }
      uow.Enter();
      uow.Write(WithFile(uow.working, id, uow.working.tasks[id].(planId := Some(planId))));
      uow.Write(Noted(uow.working, id, PlanAttached(planId)));
      uow.Exit(true);
      return true;
    }

    method CancelTask(id: string) returns (found: bool)
      requires Settled(uow)
      modifies uow
      ensures Settled(uow) && uow.durable == CancelledIn(old(uow.durable), id)
      ensures found <==> id in old(uow.durable).tasks
    {
      if id !in uow.working.tasks { return false; }
      if uow.working.tasks[id].state in UNCANCELLABLE { return true; }
      uow.Enter();
      uow.Write(WithFile(uow.working, id, uow.working.tasks[id].(state := Cancelled)));
      uow.Exit(true);
      return true;
    }

    /** The last statement of a service's transaction: everything prepared in it commits with the
        move, or nothing does. */
    method Finish(id: string, event: Event, ghost before: Store, ghost prepared: Store) returns (ok: bool)
      requires uow.depth == 1 && uow.durable == before && uow.working == prepared
      modifies uow
      ensures Settled(uow) && uow.durable == Together(before, prepared, id, event)
      ensures ok <==> CanMove(prepared, id, event)
    {
      var r := Advance(id, event);
      uow.Exit(r.Success?);
      return r.Success?;
    }
  }

  datatype DecisionError = PolicyDenied | AuthorizationRequired | NotMoved

  class DecisionService {
    const orchestrator: Orchestrator
    const settings: Settings

    constructor (orchestrator: Orchestrator, settings: Settings)
      ensures this.orchestrator == orchestrator && this.settings == settings
    {
      this.orchestrator, this.settings := orchestrator, settings;
    }

    /** Decision, authorization and the move to RUNNING, in one transaction or not at all. */
    method EvaluateAndAuthorize(id: string, a: Approval, capabilities: set<string>, b: Binding)
      returns (r: Result<Auth, DecisionError>)
      requires Settled(orchestrator.uow)
      modifies orchestrator.uow
      ensures Settled(orchestrator.uow)
      ensures orchestrator.uow.durable == Granted(settings, old(orchestrator.uow.durable), id, a, capabilities, b)
      ensures r.Success? <==> Approved(a) && CanMove(old(orchestrator.uow.durable), id, AuthorizeAndRun)
      ensures r.Success? ==> r.value == GrantedAuth(settings.hashes, old(orchestrator.uow.durable).tasks[id], b)
    {
      var uow := orchestrator.uow;
      if a.verdict == Denied { return Failure(PolicyDenied); }
      var requiresAuthorization := a.ruleRequires || a.verdict == RequiresAuthorization;
      if requiresAuthorization && !a.userAck && a.ruleAcknowledges { return Failure(AuthorizationRequired); }
      if id !in uow.working.tasks { return Failure(NotMoved); }
      var auth := GrantedAuth(settings.hashes, uow.working.tasks[id], b);
      ghost var before := uow.durable;
      uow.Enter();
      var file := uow.working.tasks[id];
      uow.Write(WithFile(uow.working, id, file.(decisions := file.decisions + [capabilities])));
      file := uow.working.tasks[id];
      uow.Write(WithFile(uow.working, id, file.(auths := file.auths + [auth])));
      assert uow.working.tasks == Granting(before, id, capabilities, auth).tasks;
      var ok := orchestrator.Finish(id, AuthorizeAndRun, before, Granting(before, id, capabilities, auth));
      return if ok then Success(auth) else Failure(NotMoved);
    }
  }

  class ExecutionService {
    const orchestrator: Orchestrator
    const settings: Settings

    constructor (orchestrator: Orchestrator, settings: Settings)
      ensures this.orchestrator == orchestrator && this.settings == settings
    {
      this.orchestrator, this.settings := orchestrator, settings;
    }

    /** The checks before the adapter; `seen` is the state of the caller's task object. */
    method Admit(f: TaskFile, seen: TaskState, request: Request, needed: set<string>, now: int)
      returns (r: Result<nat, ExecutionError>)
      ensures r == Admission(settings.hashes, f, seen, request, needed, now)
    {
      if seen != Running { return Failure(NotRunning); }
      var bound := VerifyBinding(f, request, now);
      if bound.Some? { return Failure(bound.value); }
      var prior := Prior(f.records, request);
      if prior == Some(ExecSucceeded) || prior == Some(ExecUnknown) { return Failure(Suppressed); }
      if f.decisions == [] { return Failure(MissingDecision); }
      if !(needed <= f.decisions[|f.decisions| - 1]) { return Failure(MissingCapability); }
      return Success(|f.auths| - 1);
    }

    method VerifyBinding(f: TaskFile, request: Request, now: int) returns (error: Option<ExecutionError>)
      ensures error.None? <==>
        && f.auths != []
        && var auth := f.auths[|f.auths| - 1];
        && !auth.used && now <= auth.expiresAt
        && (auth.planHash.Some? ==> f.plan.Some? && settings.hashes.plan(f.plan.value) == auth.planHash.value)
        && (auth.stepHash.Some? ==> StepMatches(settings.hashes, f, auth.stepHash.value, request.tool))
        && (auth.argumentsHash.Some? ==> settings.hashes.arguments(request.arguments) == auth.argumentsHash.value)
      ensures error.Some? ==> forall needed ::
        Admission(settings.hashes, f, Running, request, needed, now) == Failure(error.value)
    {
      if f.auths == [] { return Some(MissingAuthorization); }
      var auth := f.auths[|f.auths| - 1];
      if auth.used { return Some(AlreadyUsed); }
      if auth.expiresAt < now { return Some(AuthorizationExpired); }
      if auth.planHash.Some? {
        if f.plan.None? || auth.planHash.value != settings.hashes.plan(f.plan.value) { return Some(PlanChanged); }
      }
      if auth.stepHash.Some? {
        if f.plan.None? { return Some(StepChanged); }
        var steps, found := f.plan.value.steps, false;
        for i := 0 to |steps|
          invariant found <==> exists j ::
            0 <= j < i && steps[j].tool == request.tool && settings.hashes.step(steps[j]) == auth.stepHash.value
        {
          if steps[i].tool == request.tool && settings.hashes.step(steps[i]) == auth.stepHash.value { found := true; }
        }
        if !found { return Some(StepChanged); }
      }
      if auth.argumentsHash.Some? && auth.argumentsHash.value != settings.hashes.arguments(request.arguments) {
        return Some(ArgumentsChanged);
      }
      return None;
    }

    /** The record, the use of the latest authorization and the move, in one transaction. */
    method Conclude(id: string, request: Request, checked: nat, outcome: ExecutionOutcome) returns (ok: bool)
      requires Settled(orchestrator.uow)
      modifies orchestrator.uow
      ensures Settled(orchestrator.uow)
      ensures orchestrator.uow.durable == Concluded(old(orchestrator.uow.durable), id, request, checked, outcome)
      ensures ok <==> CanMove(old(orchestrator.uow.durable), id, EventFor(outcome))
    {
      var uow := orchestrator.uow;
      if id !in uow.working.tasks { return false; }
      ghost var before := uow.durable;
      uow.Enter();
      var file := uow.working.tasks[id];
      var auths := file.auths;
      var under := if auths == [] then 0 else |auths| - 1;
      uow.Write(WithFile(uow.working, id, file.(records := file.records + [Record(request, outcome, checked, under)])));
      if outcome == ExecSucceeded && auths != [] {
        var auth := auths[|auths| - 1];
        if auth.nonce.Some? && !auth.used {
          file := uow.working.tasks[id];
          uow.Write(WithFile(uow.working, id, file.(auths := auths[|auths| - 1 := auth.(used := true)])));
        }
      }
      ghost var prepared := WithFile(before, id, Recorded(before.tasks[id], request, checked, outcome));
      assert uow.working.tasks == prepared.tasks;
      ok := orchestrator.Finish(id, EventFor(outcome), before, prepared);
    }
  }

  class VerificationService {
    const orchestrator: Orchestrator

    constructor (orchestrator: Orchestrator)
      ensures this.orchestrator == orchestrator
    {
      this.orchestrator := orchestrator;
    }

    method Verify(id: string, seen: TaskState, verified: bool, more: bool) returns (ok: bool)
      requires Settled(orchestrator.uow)
      modifies orchestrator.uow
      ensures Settled(orchestrator.uow)
      ensures orchestrator.uow.durable == VerifiedIn(old(orchestrator.uow.durable), id, seen, verified, more)
    {
      var uow := orchestrator.uow;
      if seen != Verifying || id !in uow.working.tasks || uow.working.tasks[id].records == [] { return false; }
      ghost var before := uow.durable;
      uow.Enter();
      var file := uow.working.tasks[id];
      uow.Write(WithFile(uow.working, id, file.(verifications := file.verifications + [verified])));
      var event;
      if !verified {
        event := VerificationFailed;
      } else if more {
        event := StepVerified;
      } else {
        event := Verified;
      }
      ok := orchestrator.Finish(id, event, before, WithFile(before, id, Judged(before.tasks[id], verified)));
    }
  }

  datatype RecoveryError = UnknownTask | TaskNotFailed | OutsideAuthority | RecoveryExhausted | NoExecutionRecord
    | HaltRejected | ProcessDied

  /** Why a recovery does not begin, in the order of the checks. */
  function RecoveryRefusal(c: Settings, s: Store, id: string, strategy: Strategy, now: int): Option<RecoveryError> {
    if id !in s.tasks then Some(UnknownTask)
    else
      var f := s.tasks[id];
      if f.state != Failed then Some(TaskNotFailed)
      else if !MayRecover(c, f, RetryOperation, now, |f.recoveries|) then Some(OutsideAuthority)
      else if !CanRetry(c.retry, |f.recoveries|) then Some(RecoveryExhausted)
      else if f.records == [] then Some(NoExecutionRecord)
      else if strategy == HaltStrategy then Some(HaltRejected)
      else if strategy == AbortStrategy then Some(RecoveryExhausted)
      else None
  }

  class RecoveryService {
    const orchestrator: Orchestrator
    const settings: Settings

    constructor (orchestrator: Orchestrator, settings: Settings)
      ensures this.orchestrator == orchestrator && this.settings == settings
    {
      this.orchestrator, this.settings := orchestrator, settings;
    }

    /** `crashes` is the process dying between the two commits. */
    method BeginRecovery(id: string, strategy: Strategy, factor: real, now: int, crashes: bool)
      returns (r: Result<TaskState, RecoveryError>)
      requires Settled(orchestrator.uow)
      modifies orchestrator.uow
      ensures Settled(orchestrator.uow)
      ensures orchestrator.uow.durable
        == RecoveryBegun(settings, old(orchestrator.uow.durable), id, strategy, factor, now, crashes)
      ensures r == match RecoveryRefusal(settings, old(orchestrator.uow.durable), id, strategy, now)
                   case Some(error) => Failure(error)
                   case None => if crashes then Failure(ProcessDied) else Success(Recovering)
      ensures r.Success? ==> id in orchestrator.uow.durable.tasks && orchestrator.uow.durable.tasks[id].state == Recovering
    {
      var uow := orchestrator.uow;
      if id !in uow.working.tasks { return Failure(UnknownTask); }
      var file := uow.working.tasks[id];
      if file.state != Failed { return Failure(TaskNotFailed); }
      var attemptsMade := |file.recoveries|;
      if !MayRecover(settings, file, RetryOperation, now, attemptsMade) { return Failure(OutsideAuthority); }
      if !CanRetry(settings.retry, attemptsMade) { return Failure(RecoveryExhausted); }
      if file.records == [] { return Failure(NoExecutionRecord); }
      if strategy == HaltStrategy {
        var halted := orchestrator.Advance(id, SecurityHalt);
        return Failure(HaltRejected);
      }
      if strategy == AbortStrategy { return Failure(RecoveryExhausted); }
      var delay := DelayFor(settings.retry, attemptsMade + 1, factor);
      uow.Enter();
      uow.Write(WithFile(uow.working, id, file.(recoveries :=
        file.recoveries + [RecoveryRow(attemptsMade + 1, delay.value, None)])));
      uow.Exit(true);
      if crashes { return Failure(ProcessDied); }
      var moved := orchestrator.Advance(id, Retry);
      return Success(moved.value);
    }

    method ResolveRecovery(id: string, seen: TaskState, now: int, restored: bool) returns (ok: bool)
      requires Settled(orchestrator.uow)
      modifies orchestrator.uow
      ensures Settled(orchestrator.uow)
      ensures orchestrator.uow.durable == RecoveryResolved(settings, old(orchestrator.uow.durable), id, seen, now, restored)
    {
      var uow := orchestrator.uow;
      if seen != Recovering || id !in uow.working.tasks || uow.working.tasks[id].recoveries == [] { return false; }
      var file := uow.working.tasks[id];
      if !MayRecover(settings, file, Compensate, now, |file.recoveries| - 1) { return false; }
      ghost var before := uow.durable;
      uow.Enter();
      uow.Write(WithFile(uow.working, id, Resolving(file, restored)));
      ok := orchestrator.Finish(id, if restored then Recovered else RecoveryFailed, before,
        WithFile(before, id, Resolving(before.tasks[id], restored)));
    }

    method ResolveBlocked(id: string, seen: TaskState, now: int, resume: bool) returns (ok: bool)
      requires Settled(orchestrator.uow)
      modifies orchestrator.uow
      ensures Settled(orchestrator.uow)
      ensures orchestrator.uow.durable == BlockedResolved(settings, old(orchestrator.uow.durable), id, seen, now, resume)
    {
      var uow := orchestrator.uow;
      if seen != Blocked || id !in uow.working.tasks { return false; }
      if !MayRecover(settings, uow.working.tasks[id], Operation.ResolveBlocked, now, 0) { return false; }
      var r := orchestrator.Advance(id, if resume then Unblock else Cancel);
      return r.Success?;
    }

    /** The startup sweep over the tasks that are not in a terminal state. */
    method ReconcileStrandedTasks(ids: seq<string>)
      requires Settled(orchestrator.uow)
      modifies orchestrator.uow
      ensures Settled(orchestrator.uow)
      ensures orchestrator.uow.durable == UnstrandedAll(old(orchestrator.uow.durable), ids)
    {
      var uow := orchestrator.uow;
      for i := 0 to |ids|
        invariant Settled(uow)
        invariant uow.durable == UnstrandedAll(old(uow.durable), ids[..i])
      {
        assert ids[..i + 1][..i] == ids[..i];
        if ids[i] in uow.working.tasks {
          var state := uow.working.tasks[ids[i]].state;
          if state in {Created, Planning, Ready} {
            var r := orchestrator.Advance(ids[i], Cancel);
          } else if state == Running {
            var r := orchestrator.Advance(ids[i], ExecutionUnknown);
          } else if state == Verifying {
            var r := orchestrator.Advance(ids[i], VerificationFailed);
          } else if state == Recovering {
            var r := orchestrator.Advance(ids[i], RecoveryFailed);
          }
        }
      }
      assert ids[..|ids|] == ids;
    }
  }

  function UnstrandedAll(s: Store, ids: seq<string>): Store {
    if ids == [] then s else Unstranded(UnstrandedAll(s, ids[..|ids| - 1]), ids[|ids| - 1])
  }

  /** Where the sweep may leave a task. */
  const SETTLED_STATES := {Completed, Cancelled, SecurityHalted, Failed, Blocked, Stabilizing}

  /** After the startup sweep every listed task is failed, blocked or finished; STABILIZING is the one
      unfinished state the sweep passes over. */
  lemma {:induction false} SweepStrandsNothing(s: Store, ids: seq<string>, id: string)
    requires id in s.tasks
    ensures
      var t := UnstrandedAll(s, ids);
      && id in t.tasks
      && (id in ids ==> t.tasks[id].state in SETTLED_STATES)
      && (id !in ids || s.tasks[id].state in SETTLED_STATES ==> t.tasks[id] == s.tasks[id])
  {
    if ids != [] {
      var init, last := ids[..|ids| - 1], ids[|ids| - 1];
      SweepStrandsNothing(s, init, id);
      assert ids == init + [last];
    }
  }

  /** A sweep over a list that misses no unsettled task leaves none in the store. */
  lemma SweepSettlesTheStore(s: Store, ids: seq<string>, id: string)
    requires forall other :: other in s.tasks && s.tasks[other].state !in SETTLED_STATES ==> other in ids
    ensures UnstrandedAll(s, ids).tasks.Keys == s.tasks.Keys
    ensures id in s.tasks ==> UnstrandedAll(s, ids).tasks[id].state in SETTLED_STATES
  {
    SweepKeepsTasks(s, ids);
    if id in s.tasks { SweepStrandsNothing(s, ids, id); }
  }

  lemma {:induction false} SweepKeepsTasks(s: Store, ids: seq<string>)
    ensures UnstrandedAll(s, ids).tasks.Keys == s.tasks.Keys
  {
    if ids != [] {
      SweepKeepsTasks(s, ids[..|ids| - 1]);
      UnstrandedKeepsTasks(UnstrandedAll(s, ids[..|ids| - 1]), ids[|ids| - 1]);
    }
  }

  lemma UnstrandedKeepsTasks(s: Store, id: string)
    ensures Unstranded(s, id).tasks.Keys == s.tasks.Keys
  {}
}
