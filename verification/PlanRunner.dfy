/** The resumable step loop of a plan, and what every durable moment of any number of runs,
    crashes and resumes shows. */
module PlanRunner {
  import opened Wrappers
  import opened Text
  import opened OperationGraph
  import opened Transitions

  datatype StepState = Pending | StepRunning | StepCompleted | StepFailed | Skipped

  /** What no service but the verification leaves a task in. */
  type Unfinished = s: TaskState | s != Completed witness Created

  /** What is durable at some moment: the state of each step and of the task. */
  datatype Moment = Moment(steps: map<string, StepState>, task: TaskState)

  datatype Execution = ExecutionRaises | Executed(success: bool, task: Unfinished)

  datatype Scan = ScanRaises | Flagged | Clean

  datatype Verification = VerificationRaises | Refuted | Confirmed

  /** How the services and the plan repository behave for one step; `left` is the task state a
      service that raises leaves durable. */
  datatype Script = Script(
    savesRunning: bool, authorizes: bool, execution: Execution, scan: Scan, verification: Verification,
    savesCompleted: bool, savesFailed: bool, left: Unfinished)

  /** The step runs to its end and everything is saved. */
  predicate Confirms(s: Script) {
    && s.savesRunning && s.authorizes && s.execution == Executed(true, Verifying) && s.scan == Clean
    && s.verification == Confirmed && s.savesCompleted
  }

  /** Everything goes through but the saving of the step as completed. */
  predicate VerifiedUnsaved(s: Script) {
    Confirms(s.(savesCompleted := true)) && !s.savesCompleted
  }

  datatype StepEnd = Done | Stopped | Raised

  datatype RunError = Cyclic | NothingExecutable | NotReady | SaveFailed

  datatype RunResult = RunResult(task: TaskState, completedSteps: nat, stoppedEarly: bool)

  predicate IsDone(m: Moment, id: string) {
    id in m.steps && m.steps[id] == StepCompleted
  }

  /** Completed steps form a prefix of the order. */
  ghost predicate DoneInOrder(order: seq<string>, m: Moment) {
    forall i, j :: 0 <= i < j < |order| && IsDone(m, order[j]) ==> IsDone(m, order[i])
  }

  /** Only steps of the order complete, in order; `verified` commits before the last step is marked,
      so that step alone may lag behind a completed task. */
  ghost predicate Good(order: seq<string>, m: Moment) {
    && DoneInOrder(order, m)
    && (forall id :: IsDone(m, id) ==> id in order)
    && (m.task == Completed ==> forall i :: 0 <= i < |order| - 1 ==> IsDone(m, order[i]))
  }

  ghost predicate Starts(a: Moment, b: Moment, id: string) {
    id in b.steps && b.steps[id] == StepRunning && (id in a.steps ==> a.steps[id] != StepRunning)
  }

  /** One commit: no step is undone, and a step starts only after everything before it in the order. */
  ghost predicate Follows(order: seq<string>, a: Moment, b: Moment) {
    && (forall i :: 0 <= i < |order| && IsDone(a, order[i]) ==> IsDone(b, order[i]))
    && (forall i, j :: 0 <= j < i < |order| && Starts(a, b, order[i]) ==> IsDone(a, order[j]))
  }

  ghost predicate History(order: seq<string>, log: seq<Moment>) {
    && log != []
    && (forall k :: 0 <= k < |log| ==> Good(order, log[k]))
    && (forall k :: 0 <= k < |log| - 1 ==> Follows(order, log[k], log[k + 1]))
  }

  ghost predicate Unique(order: seq<string>) {
    forall i, j :: 0 <= i < j < |order| ==> order[i] != order[j]
  }

  /** Exactly the first n steps of the order are completed. */
  ghost predicate DoneUpTo(order: seq<string>, m: Moment, n: nat) {
    forall i :: 0 <= i < |order| ==> (IsDone(m, order[i]) <==> i < n)
  }

  lemma HistoryGrows(order: seq<string>, log: seq<Moment>, m: Moment)
    requires History(order, log) && Good(order, m) && Follows(order, log[|log| - 1], m)
    ensures History(order, log + [m])
  {
    var more := log + [m];
    forall k | 0 <= k < |more| ensures Good(order, more[k]) {
      if k < |log| { assert more[k] == log[k]; }
    }
    forall k | 0 <= k < |more| - 1 ensures Follows(order, more[k], more[k + 1]) {
      assert more[k] == log[k];
      if k + 1 < |log| { assert more[k + 1] == log[k + 1]; }
    }
  }

  lemma StepWriteKeeps(order: seq<string>, m: Moment, n: nat, state: StepState)
    requires Unique(order) && n < |order| && DoneUpTo(order, m, n) && Good(order, m)
    ensures
      var after := m.(steps := m.steps[order[n] := state]);
      && Good(order, after) && Follows(order, m, after)
      && DoneUpTo(order, after, if state == StepCompleted then n + 1 else n)
  {
    var after := m.(steps := m.steps[order[n] := state]);
    forall i | 0 <= i < |order| ensures IsDone(after, order[i]) <==> i < (if state == StepCompleted then n + 1 else n) {
      assert i < n ==> order[i] != order[n];
      assert n < i ==> order[n] != order[i];
    }
  }

  lemma TaskWriteKeeps(order: seq<string>, m: Moment, n: nat, task: TaskState)
    requires Good(order, m) && DoneUpTo(order, m, n)
    requires task == Completed ==> n >= |order| - 1
    ensures Good(order, m.(task := task)) && Follows(order, m, m.(task := task)) && DoneUpTo(order, m.(task := task), n)
  {
    var after := m.(task := task);
    assert forall id :: IsDone(m, id) == IsDone(after, id);
  }

  function Executable(ids: seq<string>, tools: set<string>): seq<string> {
    if ids == [] then []
    else (if ids[0] in tools then [ids[0]] else []) + Executable(ids[1..], tools)
  }

  function PendingIndices(order: seq<string>, m: Moment, from: nat): seq<nat>
    requires from <= |order|
    decreases |order| - from
  {
    if from == |order| then []
    else (if IsDone(m, order[from]) then [] else [from]) + PendingIndices(order, m, from + 1)
  }

  function FirstPending(order: seq<string>, m: Moment, from: nat): (n: nat)
    requires from <= |order|
    ensures from <= n <= |order|
    decreases |order| - from
  {
    if from == |order| || !IsDone(m, order[from]) then from else FirstPending(order, m, from + 1)
  }

  /** The first step from `from` on that does not run to its end. */
  function FirstFailing(order: seq<string>, scripts: string -> Script, from: nat): (n: nat)
    requires from <= |order|
    ensures from <= n <= |order|
    decreases |order| - from
  {
    if from == |order| || !Confirms(scripts(order[from])) then from else FirstFailing(order, scripts, from + 1)
  }

  lemma {:induction false} PendingIsTail(order: seq<string>, m: Moment, from: nat)
    requires from <= |order| && DoneInOrder(order, m)
    ensures
      var n, pending := FirstPending(order, m, from), PendingIndices(order, m, from);
      && |pending| == |order| - n && (forall p :: 0 <= p < |pending| ==> pending[p] == n + p)
      && (forall i :: from <= i < |order| ==> (IsDone(m, order[i]) <==> i < n))
    decreases |order| - from
  {
    if from < |order| {
      PendingIsTail(order, m, from + 1);
      if !IsDone(m, order[from]) {
        assert forall i :: from < i < |order| ==> !IsDone(m, order[i]);
        assert FirstPending(order, m, from + 1) == from + 1;
      }
    }
  }

  class PlanRunner {
    const order: seq<string>
    var steps: map<string, StepState>
    var task: TaskState
    /** Every durable moment so far, over all runs. */
    ghost var log: seq<Moment>

    function Now(): Moment
      reads this
    {
      Moment(steps, task)
    }

    ghost predicate Valid()
      reads this
    {
      Unique(order) && History(order, log) && log[|log| - 1] == Now()
    }

    /** A process that comes up on what an earlier one left: any history, cut off anywhere. */
    constructor (order: seq<string>, ghost log: seq<Moment>, now: Moment)
      requires Unique(order) && History(order, log) && log[|log| - 1] == now
      ensures Valid() && this.order == order && this.log == log && Now() == now
    {
      this.order, this.steps, this.task, this.log := order, now.steps, now.task, log;
    }

    /** Other services move the task between runs. */
    method MovedByOthers(state: Unfinished)
      requires Valid()
      modifies this`task, this`log
      ensures Valid() && steps == old(steps) && task == state && log == old(log) + [Now()]
    {
      PendingIsTail(order, Now(), 0);
      TaskWriteKeeps(order, Now(), FirstPending(order, Now(), 0), state);
      SetTask(state);
    }

    method SetTask(state: TaskState)
      requires Valid() && Good(order, Now().(task := state)) && Follows(order, Now(), Now().(task := state))
      modifies this`task, this`log
      ensures Valid() && Now() == old(Now()).(task := state) && log == old(log) + [Now()]
    {
      HistoryGrows(order, log, Now().(task := state));
      task := state;
      log := log + [Now()];
    }

    /** Saves the plan with one step's state changed. */
    method SetStepState(ghost n: nat, id: string, state: StepState, saves: bool) returns (ok: bool)
      requires Valid() && n < |order| && id == order[n] && DoneUpTo(order, Now(), n)
      modifies this`steps, this`log
      ensures Valid() && ok == saves
      ensures DoneUpTo(order, Now(), if saves && state == StepCompleted then n + 1 else n)
      ensures saves ==> steps == old(steps)[id := state] && log == old(log) + [Now()]
      ensures !saves ==> Now() == old(Now()) && log == old(log)
    {
      if !saves { return false; }
      StepWriteKeeps(order, Now(), n, state);
      HistoryGrows(order, log, Now().(steps := steps[id := state]));
      steps := steps[id := state];
      log := log + [Now()];
      return true;
    }

    method Service(ghost n: nat, state: TaskState)
      requires Valid() && DoneUpTo(order, Now(), n) && (state == Completed ==> n >= |order| - 1)
      modifies this`task, this`log
      ensures Valid() && Now() == old(Now()).(task := state) && DoneUpTo(order, Now(), n) && log == old(log) + [Now()]
    {
      TaskWriteKeeps(order, Now(), n, state);
      SetTask(state);
    }

    /** Everything up to the verification of one step, as the `try` block does it. */
    method Attempt(ghost n: nat, id: string, more: bool, s: Script) returns (confirmed: bool)
      requires Valid() && n < |order| && id == order[n] && DoneUpTo(order, Now(), n) && (!more ==> n == |order| - 1)
      modifies this`steps, this`task, this`log
      ensures Valid() && old(log) <= log
      ensures confirmed == Confirms(s.(savesCompleted := true))
      ensures DoneUpTo(order, Now(), n)
      ensures confirmed ==> task == if more then Ready else Completed
      ensures !confirmed && old(task) != Completed ==> task != Completed
      ensures steps == if s.savesRunning then old(steps)[id := StepRunning] else old(steps)
    {
      var saved := SetStepState(n, id, StepRunning, s.savesRunning);
      if !saved { return false; }
      if !s.authorizes {
        Service(n, s.left);
        return false;
      }
      Service(n, Running);
      if s.execution.ExecutionRaises? {
        Service(n, s.left);
        return false;
      }
      Service(n, s.execution.task);
      if !s.execution.success || s.execution.task != Verifying || s.scan != Clean { return false; }
      if s.verification != Confirmed {
        Service(n, if s.verification == Refuted then Failed else s.left);
        return false;
      }
      Service(n, if more then Ready else Completed);
      return true;
    }

    method RunStep(ghost n: nat, id: string, more: bool, s: Script) returns (end: StepEnd)
      requires Valid() && n < |order| && id == order[n] && DoneUpTo(order, Now(), n) && (!more ==> n == |order| - 1)
      modifies this`steps, this`task, this`log
      ensures Valid() && old(log) <= log
      ensures end == if Confirms(s) then Done else if s.savesFailed then Stopped else Raised
      ensures DoneUpTo(order, Now(), if Confirms(s) then n + 1 else n)
      ensures end.Done? ==> steps == old(steps)[id := StepCompleted] && task == if more then Ready else Completed
      ensures end.Stopped? ==> steps == old(steps)[id := StepFailed]
      ensures !end.Done? && old(task) != Completed ==> (task == Completed <==> !more && VerifiedUnsaved(s))
    {
      var confirmed := Attempt(n, id, more, s);
      if confirmed {
        var saved := SetStepState(n, id, StepCompleted, s.savesCompleted);
        if saved {
          assert steps == old(steps)[id := StepCompleted];
          return Done;
        }
      }
      var marked := SetStepState(n, id, StepFailed, s.savesFailed);
      if !marked { return Raised; }
      assert steps == old(steps)[id := StepFailed];
      return Stopped;
    }

    /** The step loop. */
    method RunPending(scripts: string -> Script, pending: seq<nat>, ghost first: nat)
      returns (r: Result<RunResult, RunError>)
      requires Valid() && first < |order| && DoneUpTo(order, Now(), first)
      requires |pending| == |order| - first && forall p :: 0 <= p < |pending| ==> pending[p] == first + p
      modifies this`steps, this`task, this`log
      ensures Valid() && old(log) <= log
      ensures if old(task) == Ready then Ran(order, scripts, first, r, Now())
              else r == Failure(NotReady) && Now() == old(Now())
    {
      var completedCount := 0;
      for position := 0 to |pending|
        invariant Valid() && old(log) <= log
        invariant completedCount == position
        invariant DoneUpTo(order, Now(), first + position)
        invariant FirstFailing(order, scripts, first) == FirstFailing(order, scripts, first + position)
        invariant position == 0 ==> Now() == old(Now())
        invariant position > 0 ==> task == (if position < |pending| then Ready else Completed) && old(task) == Ready
      {
        var id := order[pending[position]];
        if task != Ready { return Failure(NotReady); }
        var end := RunStep(first + position, id, position < |pending| - 1, scripts(id));
        if end.Raised? { return Failure(SaveFailed); }
        if end.Stopped? { return Success(RunResult(task, completedCount, true)); }
        completedCount := completedCount + 1;
      }
      return Success(RunResult(task, completedCount, false));
    }

    /** Runs the steps that are not completed yet, in order, up to the first that does not go through. */
    method Run(scripts: string -> Script) returns (r: Result<RunResult, RunError>)
      requires Valid()
      modifies this`steps, this`task, this`log
      ensures Valid() && old(log) <= log
      ensures
        var first := FirstPending(order, old(Now()), 0);
        if order == [] then r == Failure(NothingExecutable) && Now() == old(Now())
        else if first == |order| then r == Success(RunResult(task, |order|, false)) && Now() == old(Now())
        else if old(task) != Ready then r == Failure(NotReady) && Now() == old(Now())
        else Ran(order, scripts, first, r, Now())
    {
      if order == [] { return Failure(NothingExecutable); }
      var pending := PendingIndices(order, Now(), 0);
      PendingIsTail(order, Now(), 0);
      if pending == [] { return Success(RunResult(task, |order|, false)); }
      r := RunPending(scripts, pending, FirstPending(order, Now(), 0));
    }
  }

  /** What a run that finds work does: it completes exactly the steps before the first that does not
      go through, and marks that one failed. The task is left COMPLETED with every step completed,
      but for one case: the last step was verified and could not be saved as completed. */
  ghost predicate Ran(
      order: seq<string>, scripts: string -> Script, first: nat, r: Result<RunResult, RunError>, now: Moment)
    requires first <= |order|
  {
    var stop := FirstFailing(order, scripts, first);
    && DoneUpTo(order, now, stop)
    && (stop == |order| ==> r == Success(RunResult(Completed, stop - first, false)) && now.task == Completed)
    && (stop < |order| ==>
          (now.task == Completed <==> stop == |order| - 1 && VerifiedUnsaved(scripts(order[stop])))
          && if scripts(order[stop]).savesFailed then
               r == Success(RunResult(now.task, stop - first, true))
               && order[stop] in now.steps && now.steps[order[stop]] == StepFailed
             else r == Failure(SaveFailed))
  }

  /** So a run that finds work and leaves the task COMPLETED has completed every step unless exactly
      that happened to the last one. */
  lemma CompletedTaskMeansCompletedSteps(
      order: seq<string>, scripts: string -> Script, first: nat, r: Result<RunResult, RunError>, now: Moment)
    requires first < |order| && Ran(order, scripts, first, r, now) && now.task == Completed
    ensures DoneUpTo(order, now, |order|) <==>
      !(FirstFailing(order, scripts, first) == |order| - 1 && VerifiedUnsaved(scripts(order[|order| - 1])))
  {
    var last := order[|order| - 1];
    var stop := FirstFailing(order, scripts, first);
    assert IsDone(now, last) <==> |order| - 1 < stop;
  }

  // ---- The order is the plan's ----

  /** The executable steps of a plan in topological order. */
  method StepsInOrder(nodes: seq<Node>, tools: set<string>) returns (r: Result<seq<string>, RunError>)
    ensures r.Success? <==> Resolvable(Deps(nodes))
    ensures r.Success? ==> r.value == Executable(Order(Deps(nodes), |Deps(nodes)|), tools)
  {
    var nodesInOrder := TopologicalOrder(nodes);
    if nodesInOrder.Failure? { return Failure(Cyclic); }
    ghost var ids := Order(Deps(nodes), |Deps(nodes)|);
    var order: seq<string> := [];
    NodeIds(nodes);
    for i := 0 to |nodesInOrder.value|
      invariant order + Executable(ids[i..], tools) == Executable(ids, tools)
    {
      assert nodesInOrder.value[i].stepId == ids[i];
      assert ids[i..][1..] == ids[i + 1..];
      if nodesInOrder.value[i].stepId in tools { order := order + [nodesInOrder.value[i].stepId]; }
    }
    return Success(order);
  }

  lemma NodeIds(nodes: seq<Node>)
    requires Elems(Order(Deps(nodes), |Deps(nodes)|)) <= ById(nodes).Keys
    ensures
      var ids := Order(Deps(nodes), |Deps(nodes)|);
      forall i :: 0 <= i < |ids| ==> Nodes(ById(nodes), ids)[i].stepId == ids[i]
  {
    ByIdFacts(nodes);
    var ids := Order(Deps(nodes), |Deps(nodes)|);
    forall i | 0 <= i < |ids| ensures Nodes(ById(nodes), ids)[i].stepId == ids[i] {
      assert ids[i] in Elems(ids);
    }
  }

  ghost predicate NoneDependsOnLater(g: Graph, ids: seq<string>) {
    forall i, j :: 0 <= i <= j < |ids| ==> !DependsOn(g, ids[i], ids[j])
  }

  lemma {:induction false} ExecutableIn(ids: seq<string>, tools: set<string>)
    ensures forall id :: id in Executable(ids, tools) <==> id in ids && id in tools
  {
    if ids != [] { ExecutableIn(ids[1..], tools); }
  }

  lemma {:induction false} ExecutableKeepsOrder(g: Graph, ids: seq<string>, tools: set<string>)
    requires Unique(ids) && NoneDependsOnLater(g, ids)
    ensures Unique(Executable(ids, tools)) && NoneDependsOnLater(g, Executable(ids, tools))
  {
    if ids != [] {
      var rest := Executable(ids[1..], tools);
      ExecutableKeepsOrder(g, ids[1..], tools);
      ExecutableIn(ids[1..], tools);
      forall j | 0 <= j < |rest| ensures rest[j] != ids[0] && !DependsOn(g, ids[0], rest[j]) {
        assert rest[j] in ids[1..];
      }
    }
  }

  ghost predicate OrderOf(g: Graph, tools: set<string>, order: seq<string>) {
    Resolvable(g) && order == Executable(Order(g, |g|), tools)
  }

  lemma OrderOfMeaning(g: Graph, tools: set<string>, order: seq<string>)
    requires OrderOf(g, tools, order)
    ensures Unique(order) && NoneDependsOnLater(g, order)
    ensures forall id :: id in order <==> id in g && id in tools
  {
    var ids := Order(g, |g|);
    OrderMeaning(g);
    forall i, j | 0 <= i < j < |ids| ensures ids[i] != ids[j] {
      assert ids[i] in Elems(ids) && ids[j] in Elems(ids);
      assert InOrder(g, ids, i, j);
      RankIsStrict(g, ids[i], ids[j]);
    }
    ExecutableKeepsOrder(g, ids, tools);
    ExecutableIn(ids, tools);
    assert forall id :: id in ids <==> id in Elems(ids);
  }

  // ---- Whole histories ----

  /** A plan that has not run starts a history; a crash cuts one off; both are where a run may begin. */
  lemma HistoriesBegin(order: seq<string>, m: Moment)
    requires m.task != Completed && forall id :: id in m.steps ==> m.steps[id] == Pending
    ensures History(order, [m])
  {}

  lemma CrashLeavesAHistory(order: seq<string>, log: seq<Moment>, k: nat)
    requires History(order, log) && 0 < k <= |log|
    ensures History(order, log[..k])
  {}

  lemma {:induction false} CompletedStays(order: seq<string>, log: seq<Moment>, j: nat, k: nat, id: string)
    requires History(order, log) && j <= k < |log| && id in order && IsDone(log[j], id)
    ensures IsDone(log[k], id)
  {
    if j < k {
      CompletedStays(order, log, j, k - 1, id);
      assert Follows(order, log[k - 1], log[k]);
      var i :| 0 <= i < |order| && order[i] == id;
    }
  }

  /** At every durable moment of every history, whatever a completed step depends on, directly or
      through others, is completed; and a step that starts finds all of that completed. */
  lemma DependenciesComeFirst(g: Graph, tools: set<string>, order: seq<string>, log: seq<Moment>, k: nat, a: string, b: string)
    requires OrderOf(g, tools, order) && History(order, log) && k < |log|
    requires a in order && b in order && DependsOn(g, a, b)
    ensures IsDone(log[k], a) ==> IsDone(log[k], b)
    ensures k + 1 < |log| && Starts(log[k], log[k + 1], a) ==> IsDone(log[k], b)
  {
    OrderOfMeaning(g, tools, order);
    var i :| 0 <= i < |order| && order[i] == a;
    var j :| 0 <= j < |order| && order[j] == b;
    assert j < i;
    assert Good(order, log[k]);
    if k + 1 < |log| { assert Follows(order, log[k], log[k + 1]); }
  }

  ghost predicate CompletedIsClosed(g: Graph, m: Moment) {
    forall a, b :: IsDone(m, a) && DependsOn(g, a, b) ==> IsDone(m, b)
  }

  /** No step with a tool depends on one without. */
  ghost predicate ToolsDependOnTools(g: Graph, tools: set<string>, order: seq<string>) {
    forall a, b :: a in order && DependsOn(g, a, b) ==> b in tools
  }

  lemma DependenciesAreSteps(g: Graph, tools: set<string>, order: seq<string>, a: string, b: string)
    requires OrderOf(g, tools, order) && a in order && DependsOn(g, a, b)
    ensures b in g && (b in tools ==> b in order)
  {
    OrderOfMeaning(g, tools, order);
    assert Settled(g, |g|) == g.Keys;
    DependencyIsLower(g, a, b);
  }

  lemma MomentIsClosed(g: Graph, tools: set<string>, order: seq<string>, log: seq<Moment>, k: nat)
    requires OrderOf(g, tools, order) && History(order, log) && k < |log| && ToolsDependOnTools(g, tools, order)
    ensures CompletedIsClosed(g, log[k])
  {
    assert Good(order, log[k]);
    forall a, b | IsDone(log[k], a) && DependsOn(g, a, b) ensures IsDone(log[k], b) {
      DependenciesAreSteps(g, tools, order, a, b);
      DependenciesComeFirst(g, tools, order, log, k, a, b);
    }
  }

  /** The history of a plan whose steps have all gone through. */
  function Finished(order: seq<string>): Moment {
    Moment(map id | id in order :: StepCompleted, Ready)
  }

  lemma FinishedHistory(order: seq<string>)
    ensures History(order, [Moment(map[], Ready), Finished(order)]) && DoneUpTo(order, Finished(order), |order|)
  {
    var start, end := Moment(map[], Ready), Finished(order);
    var log := [start, end];
    assert Good(order, start) && Good(order, end) && Follows(order, start, end);
    assert forall k :: 0 <= k < |log| ==> log[k] == start || log[k] == end;
  }

  /** The completed steps are closed under dependency at every durable moment of every history exactly
      when no step with a tool depends on one without: such a step is left out of the loop and
      never completes. */
  lemma ClosedExactlyIfToolsDependOnTools(g: Graph, tools: set<string>, order: seq<string>)
    requires OrderOf(g, tools, order)
    ensures (forall log: seq<Moment>, k: nat :: History(order, log) && k < |log| ==> CompletedIsClosed(g, log[k]))
      <==> ToolsDependOnTools(g, tools, order)
  {
    if ToolsDependOnTools(g, tools, order) {
      forall log: seq<Moment>, k: nat | History(order, log) && k < |log| ensures CompletedIsClosed(g, log[k]) {
        MomentIsClosed(g, tools, order, log, k);
      }
    } else {
      var log := [Moment(map[], Ready), Finished(order)];
      FinishedHistory(order);
      FinishedPlanIsClosed(g, tools, order, log[1]);
    }
  }

  /** In particular that is when a run that completes every step leaves it closed. */
  lemma FinishedPlanIsClosed(g: Graph, tools: set<string>, order: seq<string>, m: Moment)
    requires OrderOf(g, tools, order) && DoneUpTo(order, m, |order|) && Good(order, m)
    ensures CompletedIsClosed(g, m) <==> ToolsDependOnTools(g, tools, order)
  {
    OrderOfMeaning(g, tools, order);
    forall id ensures IsDone(m, id) <==> id in order {
      if id in order { var i :| 0 <= i < |order| && order[i] == id; }
    }
    forall a, b | a in order && DependsOn(g, a, b) ensures b in tools ==> b in order {
      DependenciesAreSteps(g, tools, order, a, b);
    }
  }

  /** Two steps are enough: one with a tool that depends on one without. */
  lemma ToollessDependency() returns (g: Graph, order: seq<string>)
    ensures OrderOf(g, {"t"}, order) && !ToolsDependOnTools(g, {"t"}, order)
    ensures !CompletedIsClosed(g, Finished(order))
  {
    g := map["n" := {}, "t" := {"n"}];
    assert |g.Keys| == 2 by { assert g.Keys == {"n", "t"}; }
    assert Settled(g, 1) == {"n"};
    assert Settled(g, 2) == g.Keys;
    order := Executable(Order(g, |g|), {"t"});
    OrderOfMeaning(g, {"t"}, order);
    assert Chain(g, ["t", "n"]);
    assert DependsOn(g, "t", "n");
    FinishedHistory(order);
    FinishedPlanIsClosed(g, {"t"}, order, Finished(order));
  }

  /** The one case, run: a plan of one step whose completion is verified and cannot be saved leaves a
      COMPLETED task with a FAILED step. */
  method CompletedTaskWithFailedStep() returns (r: Result<RunResult, RunError>, steps: map<string, StepState>)
    ensures r == Success(RunResult(Completed, 0, true)) && "s" in steps && steps["s"] == StepFailed
  {
    var script := Script(true, true, Executed(true, Verifying), Clean, Confirmed, false, true, Failed);
    var start := Moment(map["s" := Pending], Ready);
    var runner := new PlanRunner(["s"], [start], start);
    r := runner.Run(_ => script);
    steps := runner.steps;
  }
}
