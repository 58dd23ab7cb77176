/** One store shared by the orchestrator and the decision, execution, verification and recovery
    services: what each commits, and what holds in every store they can reach together. */
module Lifecycle {
  import opened Wrappers
  import opened Retry
  import opened Transitions

  datatype ExecutionOutcome = ExecSucceeded | ExecFailed | ExecUnknown

  datatype PlanStep = PlanStep(id: string, tool: string, arguments: string)

  datatype Plan = Plan(id: string, objective: string, steps: seq<PlanStep>)

  datatype Request = Request(tool: string, action: string, arguments: string)

  /** The content hashes that bind an authorization. */
  datatype Hashes = Hashes(plan: Plan -> int, step: PlanStep -> int, arguments: string -> int)

  datatype Settings = Settings(hashes: Hashes, retry: RetryPolicy)

  datatype Auth = Auth(
    nonce: Option<string>, used: bool, expiresAt: int,
    planHash: Option<int>, stepHash: Option<int>, argumentsHash: Option<int>)

  /** `checked` and `under` number the authorizations that were the latest when the request was
      checked and when its record was saved; the source stores neither. */
  datatype Record = Record(request: Request, outcome: ExecutionOutcome, checked: nat, under: nat)

  datatype RecoveryRow = RecoveryRow(number: int, delay: real, recovered: Option<bool>)

  /** Everything stored about one task; each list is in rowid order. */
  datatype TaskFile = TaskFile(
    state: TaskState, planId: Option<string>, plan: Option<Plan>, decisions: seq<set<string>>, auths: seq<Auth>,
    records: seq<Record>, verifications: seq<bool>, recoveries: seq<RecoveryRow>)

  /** The orchestrator's audit rows. */
  datatype Mark = TaskCreated | Moved(event: Event) | Rejected(event: Event) | PlanAttached(planId: string)

  datatype Entry = Entry(taskId: string, mark: Mark)

  datatype Store = Store(tasks: map<string, TaskFile>, audit: seq<Entry>)

  const NEW_TASK := TaskFile(Created, None, None, [], [], [], [], [])

  // ---- What the orchestrator commits ----

  function WithFile(s: Store, id: string, f: TaskFile): Store {
    s.(tasks := s.tasks[id := f])
  }

  function Noted(s: Store, id: string, mark: Mark): Store {
    s.(audit := s.audit + [Entry(id, mark)])
  }

  predicate CanMove(s: Store, id: string, event: Event) {
    id in s.tasks && NextState(s.tasks[id].state, event).Some?
  }

  function MovedTo(s: Store, id: string, event: Event): Store
    requires CanMove(s, id, event)
  {
    Noted(WithFile(s, id, s.tasks[id].(state := NextState(s.tasks[id].state, event).value)), id, Moved(event))
  }

  /** `advance` on its own: an illegal move leaves an audit row and nothing else. */
  function Advanced(s: Store, id: string, event: Event): Store {
    if CanMove(s, id, event) then MovedTo(s, id, event)
    else if id in s.tasks then Noted(s, id, Rejected(event))
    else s
  }

  /** `advance` as the last statement of a transaction: an illegal move takes everything with it,
      the row that reports it included. */
  function Together(before: Store, prepared: Store, id: string, event: Event): Store {
    if CanMove(prepared, id, event) then MovedTo(prepared, id, event) else before
  }

  // ---- What the decision service commits ----

  datatype Verdict = Denied | RequiresAuthorization | Allowed

  datatype Approval = Approval(verdict: Verdict, ruleRequires: bool, ruleAcknowledges: bool, userAck: bool)

  predicate Approved(a: Approval) {
    a.verdict != Denied
    && (a.userAck || !a.ruleAcknowledges || !(a.ruleRequires || a.verdict == RequiresAuthorization))
  }

  /** What the caller binds the grant to; what is missing is taken from the stored plan. */
  datatype Binding = Binding(plan: Option<Plan>, step: Option<PlanStep>, arguments: Option<string>, nonce: string, now: int)

  const HOUR := 3600

  function GrantedAuth(h: Hashes, f: TaskFile, b: Binding): Auth {
    var plan := if b.plan.Some? then b.plan else if f.planId.Some? then f.plan else None;
    if plan.None? then Auth(None, false, b.now + HOUR, None, None, None)
    else
      var step := if b.step.Some? then b.step else if plan.value.steps != [] then Some(plan.value.steps[0]) else None;
      var arguments :=
        if step.None? then None else if b.arguments.Some? then b.arguments else Some(step.value.arguments);
      Auth(Some(b.nonce), false, b.now + HOUR, Some(h.plan(plan.value)),
        if step.Some? then Some(h.step(step.value)) else None,
        if arguments.Some? then Some(h.arguments(arguments.value)) else None)
  }

  function Granting(s: Store, id: string, capabilities: set<string>, auth: Auth): Store
    requires id in s.tasks
  {
    var f := s.tasks[id];
    WithFile(s, id, f.(decisions := f.decisions + [capabilities], auths := f.auths + [auth]))
  }

  function Granted(c: Settings, s: Store, id: string, a: Approval, capabilities: set<string>, b: Binding): Store {
    if id in s.tasks && Approved(a) then
      Together(s, Granting(s, id, capabilities, GrantedAuth(c.hashes, s.tasks[id], b)), id, AuthorizeAndRun)
    else s
  }

  // ---- What the execution service checks and commits ----

  datatype ExecutionError = NotRunning | MissingAuthorization | AlreadyUsed | AuthorizationExpired | PlanChanged
    | StepChanged | ArgumentsChanged | Suppressed | MissingDecision | MissingCapability

  predicate StepMatches(h: Hashes, f: TaskFile, hash: int, tool: string) {
    f.plan.Some? && exists i ::
      0 <= i < |f.plan.value.steps| && f.plan.value.steps[i].tool == tool && h.step(f.plan.value.steps[i]) == hash
  }

  /** The last record of the same call, if any. */
  function Prior(records: seq<Record>, request: Request): Option<ExecutionOutcome> {
    if records == [] then None
    else if records[|records| - 1].request == request then Some(records[|records| - 1].outcome)
    else Prior(records[..|records| - 1], request)
  }

  /** Everything between the security gate and the adapter; `seen` is the state the caller's task
      object shows, `needed` the capabilities of the tool. Yields the number of the authorization. */
  function Admission(
      h: Hashes, f: TaskFile, seen: TaskState, request: Request, needed: set<string>, now: int): Result<nat, ExecutionError>
  {
    if seen != Running then Failure(NotRunning)
    else if f.auths == [] then Failure(MissingAuthorization)
    else
      var auth := f.auths[|f.auths| - 1];
      if auth.used then Failure(AlreadyUsed)
      else if auth.expiresAt < now then Failure(AuthorizationExpired)
      else if auth.planHash.Some? && (f.plan.None? || h.plan(f.plan.value) != auth.planHash.value) then Failure(PlanChanged)
      else if auth.stepHash.Some? && !StepMatches(h, f, auth.stepHash.value, request.tool) then Failure(StepChanged)
      else if auth.argumentsHash.Some? && h.arguments(request.arguments) != auth.argumentsHash.value then
        Failure(ArgumentsChanged)
      else if Prior(f.records, request) in {Some(ExecSucceeded), Some(ExecUnknown)} then Failure(Suppressed)
      else if f.decisions == [] then Failure(MissingDecision)
      else if !(needed <= f.decisions[|f.decisions| - 1]) then Failure(MissingCapability)
      else Success(|f.auths| - 1)
  }

  function Consumed(auths: seq<Auth>): seq<Auth> {
    if auths != [] && auths[|auths| - 1].nonce.Some? && !auths[|auths| - 1].used then
      auths[|auths| - 1 := auths[|auths| - 1].(used := true)]
    else auths
  }

  function EventFor(outcome: ExecutionOutcome): Event {
    match outcome case ExecSucceeded => ExecutionComplete case ExecFailed => ExecutionFailed case ExecUnknown => ExecutionUnknown
  }

  function Recorded(f: TaskFile, request: Request, checked: nat, outcome: ExecutionOutcome): TaskFile {
    var under := if f.auths == [] then 0 else |f.auths| - 1;
    f.(records := f.records + [Record(request, outcome, checked, under)],
       auths := if outcome == ExecSucceeded then Consumed(f.auths) else f.auths)
  }

  /** Record, consumption of the latest authorization and the move, in one transaction. */
  function Concluded(s: Store, id: string, request: Request, checked: nat, outcome: ExecutionOutcome): Store {
    if id in s.tasks then
      Together(s, WithFile(s, id, Recorded(s.tasks[id], request, checked, outcome)), id, EventFor(outcome))
    else s
  }

  // ---- What the verification service commits ----

  function EventAfter(verified: bool, more: bool): Event {
    if !verified then VerificationFailed else if more then StepVerified else Verified
  }

  function Judged(f: TaskFile, verified: bool): TaskFile {
    f.(verifications := f.verifications + [verified])
  }

  function VerifiedIn(s: Store, id: string, seen: TaskState, verified: bool, more: bool): Store {
    if id in s.tasks && seen == Verifying && s.tasks[id].records != [] then
      Together(s, WithFile(s, id, Judged(s.tasks[id], verified)), id, EventAfter(verified, more))
    else s
  }

  // ---- What the recovery service commits ----

  datatype Strategy = HaltStrategy | AbortStrategy | ProceedStrategy

  predicate MayRecover(c: Settings, f: TaskFile, operation: Operation, now: int, attemptsMade: int) {
    f.decisions != [] && f.auths != []
    && var a := FromOriginal(f.decisions[|f.decisions| - 1], true, Some(f.auths[|f.auths| - 1].expiresAt),
                  c.retry.maxAttempts, now, HOUR);
    AssertCan(a.value, operation, now, attemptsMade, {}).None?
  }

  function Attempting(c: Settings, s: Store, id: string, factor: real): Store
    requires id in s.tasks
  {
    var f := s.tasks[id];
    var number := |f.recoveries| + 1;
    WithFile(s, id, f.(recoveries :=
      f.recoveries + [RecoveryRow(number, DelayFor(c.retry, number, factor).value, None)]))
  }

  /** The guards of a recovery. */
  predicate RecoveryAllowed(c: Settings, s: Store, id: string, now: int) {
    && id in s.tasks && s.tasks[id].state == Failed
    && MayRecover(c, s.tasks[id], RetryOperation, now, |s.tasks[id].recoveries|)
    && CanRetry(c.retry, |s.tasks[id].recoveries|) && s.tasks[id].records != []
  }

  /** The attempt is saved in one transaction and the task moved in the next; `crashes` between. */
  function RecoveryBegun(
      c: Settings, s: Store, id: string, strategy: Strategy, factor: real, now: int, crashes: bool): Store
  {
    if !RecoveryAllowed(c, s, id, now) then s
    else if strategy == HaltStrategy then Advanced(s, id, SecurityHalt)
    else if strategy == AbortStrategy then s
    else
      var saved := Attempting(c, s, id, factor);
      if crashes then saved else Advanced(saved, id, Retry)
  }

  function Resolving(f: TaskFile, restored: bool): TaskFile
    requires f.recoveries != []
  {
    var last := |f.recoveries| - 1;
    f.(recoveries := f.recoveries[last := f.recoveries[last].(recovered := Some(restored))])
  }

  function RecoveryResolved(c: Settings, s: Store, id: string, seen: TaskState, now: int, restored: bool): Store {
    if id !in s.tasks || seen != Recovering || s.tasks[id].recoveries == []
      || !MayRecover(c, s.tasks[id], Compensate, now, |s.tasks[id].recoveries| - 1) then s
    else Together(s, WithFile(s, id, Resolving(s.tasks[id], restored)), id, if restored then Recovered else RecoveryFailed)
  }

  function BlockedResolved(c: Settings, s: Store, id: string, seen: TaskState, now: int, resume: bool): Store {
    if id !in s.tasks || seen != Blocked || !MayRecover(c, s.tasks[id], ResolveBlocked, now, 0) then s
    else Advanced(s, id, if resume then Unblock else Cancel)
  }

  /** The startup sweep over one task. */
  function Unstranded(s: Store, id: string): Store {
    if id !in s.tasks then s
    else match s.tasks[id].state
      case Created => Advanced(s, id, Cancel)
      case Planning => Advanced(s, id, Cancel)
      case Ready => Advanced(s, id, Cancel)
      case Running => Advanced(s, id, ExecutionUnknown)
      case Verifying => Advanced(s, id, VerificationFailed)
      case Recovering => Advanced(s, id, RecoveryFailed)
      case _ => s
  }

  const UNCANCELLABLE := {Completed, Cancelled, SecurityHalted, Failed, Blocked}

  /** `cancel_task`: no transition table, no audit row. */
  function CancelledIn(s: Store, id: string): Store {
    if id in s.tasks && s.tasks[id].state !in UNCANCELLABLE then
      WithFile(s, id, s.tasks[id].(state := Cancelled))
    else s
  }

  // ---- Any interleaving of the services ----

  /** An execution between its checks and its commit. */
  datatype Flight = Flight(id: string, request: Request, checked: nat)

  /** `due` holds a task once for every process that has saved a recovery attempt of it and has not
      moved it yet. */
  datatype System = System(store: Store, flights: map<nat, Flight>, due: multiset<string>)

  datatype Op =
    | Create(id: string)
    | AttachPlan(id: string, planId: string)
    | SavePlan(id: string, plan: Plan)
    | Advance(id: string, event: Event)
    | Grant(id: string, approval: Approval, capabilities: set<string>, binding: Binding)
    | Admit(p: nat, id: string, seen: TaskState, request: Request, needed: set<string>, now: int)
    | Conclude(p: nat, outcome: ExecutionOutcome)
    | Verify(id: string, seen: TaskState, verified: bool, more: bool)
    | AttemptRecovery(id: string, strategy: Strategy, factor: real, now: int)
    | MoveToRecovering(id: string)
    | ResolveRecovery(id: string, seen: TaskState, now: int, restored: bool)
    | ResolveBlockedTask(id: string, seen: TaskState, now: int, resume: bool)
    | ReconcileStranded(id: string)
    | CancelTask(id: string)
    | Crash

  /** These events belong to one service each; planning, security, the API and the startup code
      send only the others. */
  const GUARDED := {AuthorizeAndRun, ExecutionComplete, Verified, StepVerified, Retry}

  function Next(c: Settings, s: System, op: Op): System {
    match op
    case Create(id) =>
      if id in s.store.tasks then s else s.(store := Noted(WithFile(s.store, id, NEW_TASK), id, TaskCreated))
    case AttachPlan(id, planId) =>
      if id !in s.store.tasks then s
      else s.(store := Noted(WithFile(s.store, id, s.store.tasks[id].(planId := Some(planId))), id, PlanAttached(planId)))
    case SavePlan(id, plan) =>
      if id !in s.store.tasks then s else s.(store := WithFile(s.store, id, s.store.tasks[id].(plan := Some(plan))))
    case Advance(id, event) => if event in GUARDED then s else s.(store := Advanced(s.store, id, event))
    case Grant(id, approval, capabilities, binding) =>
      s.(store := Granted(c, s.store, id, approval, capabilities, binding))
    case Admit(p, id, seen, request, needed, now) =>
      if p in s.flights || id !in s.store.tasks then s
      else
        var admitted := Admission(c.hashes, s.store.tasks[id], seen, request, needed, now);
        if admitted.Failure? then s else s.(flights := s.flights[p := Flight(id, request, admitted.value)])
    case Conclude(p, outcome) =>
      if p !in s.flights then s
      else
        var flight := s.flights[p];
        s.(store := Concluded(s.store, flight.id, flight.request, flight.checked, outcome), flights := s.flights - {p})
    case Verify(id, seen, verified, more) => s.(store := VerifiedIn(s.store, id, seen, verified, more))
    case AttemptRecovery(id, strategy, factor, now) =>
      s.(store := RecoveryBegun(c, s.store, id, strategy, factor, now, true),
         due := if RecoveryAllowed(c, s.store, id, now) && strategy == ProceedStrategy then s.due + multiset{id} else s.due)
    case MoveToRecovering(id) =>
      if id in s.due then s.(store := Advanced(s.store, id, Retry), due := s.due - multiset{id}) else s
    case ResolveRecovery(id, seen, now, restored) => s.(store := RecoveryResolved(c, s.store, id, seen, now, restored))
    case ResolveBlockedTask(id, seen, now, resume) => s.(store := BlockedResolved(c, s.store, id, seen, now, resume))
    case ReconcileStranded(id) => s.(store := Unstranded(s.store, id))
    case CancelTask(id) => s.(store := CancelledIn(s.store, id))
    case Crash => s.(flights := map[], due := multiset{})
  }

  function Run(c: Settings, s: System, ops: seq<Op>): System {
    if ops == [] then s else Next(c, Run(c, s, ops[..|ops| - 1]), ops[|ops| - 1])
  }

  // ---- What one task's rows show ----

  ghost predicate SucceededUnder(f: TaskFile, i: nat) {
    exists k :: 0 <= k < |f.records| && f.records[k].under == i && f.records[k].outcome == ExecSucceeded
  }

  /** The latest record is a success under the latest authorization. */
  predicate LastSucceeded(f: TaskFile) {
    && f.records != [] && f.records[|f.records| - 1].outcome == ExecSucceeded
    && f.records[|f.records| - 1].under == |f.auths| - 1
  }

  /** The step and the arguments of a request are the granted ones. */
  ghost predicate BoundTo(h: Hashes, auth: Auth, request: Request) {
    && (auth.stepHash.Some? ==> exists step :: h.step(step) == auth.stepHash.value && step.tool == request.tool)
    && (auth.argumentsHash.Some? ==> h.arguments(request.arguments) == auth.argumentsHash.value)
  }

  ghost predicate SoundRecord(h: Hashes, f: TaskFile, r: Record) {
    r.checked <= r.under < |f.auths| && BoundTo(h, f.auths[r.checked], r.request)
  }

  ghost predicate SoundAuth(f: TaskFile, i: nat)
    requires i < |f.auths|
  {
    f.auths[i].used <==> f.auths[i].nonce.Some? && SucceededUnder(f, i)
  }

  ghost predicate SoundState(f: TaskFile) {
    && (f.auths != [] ==> f.decisions != [])
    && (f.state == Running ==>
          f.auths != [] && !f.auths[|f.auths| - 1].used
          && (f.records != [] ==> f.records[|f.records| - 1].under < |f.auths| - 1))
    && (f.state == Verifying ==> LastSucceeded(f))
    && (f.state == Completed ==> LastSucceeded(f) && f.verifications != [] && f.verifications[|f.verifications| - 1])
    && (f.state == Recovering ==> f.recoveries != [])
  }

  predicate SoundRow(retry: RetryPolicy, row: RecoveryRow, number: int) {
    && row.number == number && row.delay <= retry.maxDelay
    && (retry.initialDelay >= 0.0 && retry.maxDelay >= 0.0 ==> row.delay >= 0.0)
  }

  ghost predicate SoundRecoveries(retry: RetryPolicy, f: TaskFile) {
    && (f.recoveries != [] ==> |f.recoveries| <= retry.maxAttempts)
    && forall i :: 0 <= i < |f.recoveries| ==> SoundRow(retry, f.recoveries[i], i + 1)
  }

  ghost predicate SoundFile(c: Settings, f: TaskFile) {
    && SoundState(f) && SoundRecoveries(c.retry, f)
    && (forall k {:trigger SoundRecord(c.hashes, f, f.records[k])} ::
          0 <= k < |f.records| ==> SoundRecord(c.hashes, f, f.records[k]))
    && Ascending(f.records)
    && (forall i {:trigger SoundAuth(f, i)} :: 0 <= i < |f.auths| ==> SoundAuth(f, i))
  }

  /** Each record was saved under a later authorization than the one before it. */
  ghost predicate Ascending(records: seq<Record>) {
    forall j, k {:trigger records[j], records[k]} :: 0 <= j < k < |records| ==> records[j].under < records[k].under
  }

  /** Grants are only ever added; of an old one only the mark of its use may change. */
  ghost predicate AuthsKept(f: TaskFile, g: TaskFile) {
    |f.auths| <= |g.auths| && forall i :: 0 <= i < |f.auths| ==>
      g.auths[i].stepHash == f.auths[i].stepHash && g.auths[i].argumentsHash == f.auths[i].argumentsHash
  }

  lemma MovedFile(c: Settings, f: TaskFile, state: TaskState)
    requires SoundFile(c, f) && state !in {Running, Verifying, Completed, Recovering}
    ensures SoundFile(c, f.(state := state))
  {
    SameRecords(c, f, f.(state := state));
  }

  /** Rows beside the records and the grants do not matter to them. */
  lemma SameRecords(c: Settings, f: TaskFile, g: TaskFile)
    requires SoundFile(c, f) && g.records == f.records && g.auths == f.auths
    requires SoundState(g) && SoundRecoveries(c.retry, g)
    ensures SoundFile(c, g)
  {
    forall k | 0 <= k < |g.records| ensures SoundRecord(c.hashes, g, g.records[k]) {
      assert SoundRecord(c.hashes, f, f.records[k]);
    }
    forall i | 0 <= i < |g.auths| ensures SoundAuth(g, i) {
      assert SoundAuth(f, i) && (SucceededUnder(f, i) <==> SucceededUnder(g, i));
    }
  }

  lemma RecordKept(h: Hashes, f: TaskFile, g: TaskFile, r: Record)
    requires SoundRecord(h, f, r) && AuthsKept(f, g)
    ensures SoundRecord(h, g, r)
  {}

  lemma GrantedFile(c: Settings, f: TaskFile, capabilities: set<string>, auth: Auth)
    requires SoundFile(c, f) && !auth.used
    ensures SoundFile(c, f.(state := Running, decisions := f.decisions + [capabilities], auths := f.auths + [auth]))
  {
    var g := f.(state := Running, decisions := f.decisions + [capabilities], auths := f.auths + [auth]);
    forall k | 0 <= k < |g.records| ensures SoundRecord(c.hashes, g, g.records[k]) && g.records[k].under < |f.auths| {
      assert SoundRecord(c.hashes, f, f.records[k]);
      RecordKept(c.hashes, f, g, f.records[k]);
    }
    forall i | 0 <= i < |g.auths| ensures SoundAuth(g, i) {
      if i < |f.auths| {
        assert SoundAuth(f, i) && (SucceededUnder(f, i) <==> SucceededUnder(g, i));
      }
    }
  }

  lemma LastIsHighest(records: seq<Record>, bound: int)
    requires Ascending(records)
    requires records != [] ==> records[|records| - 1].under < bound
    ensures forall k :: 0 <= k < |records| ==> records[k].under < bound
  {}

  lemma AscendsBy(records: seq<Record>, own: Record)
    requires Ascending(records) && forall k :: 0 <= k < |records| ==> records[k].under < own.under
    ensures Ascending(records + [own])
  {}

  lemma RecordedRecords(h: Hashes, f: TaskFile, g: TaskFile, own: Record)
    requires forall k {:trigger SoundRecord(h, f, f.records[k])} :: 0 <= k < |f.records| ==> SoundRecord(h, f, f.records[k])
    requires SoundRecord(h, f, own) && AuthsKept(f, g) && g.records == f.records + [own]
    ensures forall k {:trigger SoundRecord(h, g, g.records[k])} :: 0 <= k < |g.records| ==> SoundRecord(h, g, g.records[k])
  {
    forall k | 0 <= k < |g.records| ensures SoundRecord(h, g, g.records[k]) {
      RecordKept(h, f, g, if k < |f.records| then f.records[k] else own);
    }
  }

  lemma RecordedState(f: TaskFile, request: Request, checked: nat, outcome: ExecutionOutcome, state: TaskState)
    requires SoundState(f) && f.state == Running
    requires state in {Failed, Blocked} || (state == Verifying && outcome == ExecSucceeded)
    ensures SoundState(Recorded(f, request, checked, outcome).(state := state))
    ensures AuthsKept(f, Recorded(f, request, checked, outcome))
  {}

  lemma RecordedIn(c: Settings, f: TaskFile, request: Request, checked: nat, outcome: ExecutionOutcome, state: TaskState)
    requires SoundFile(c, f) && f.state == Running
    requires checked < |f.auths| && BoundTo(c.hashes, f.auths[checked], request)
    requires state in {Failed, Blocked} || (state == Verifying && outcome == ExecSucceeded)
    ensures SoundFile(c, Recorded(f, request, checked, outcome).(state := state))
  {
    var g := Recorded(f, request, checked, outcome).(state := state);
    var own := Record(request, outcome, checked, |f.auths| - 1);
    assert g.records == f.records + [own] && g.records[..|f.records|] == f.records;
    LastIsHighest(f.records, |f.auths| - 1);
    RecordedState(f, request, checked, outcome, state);
    RecordedRecords(c.hashes, f, g, own);
    AscendsBy(f.records, own);
    RecordedAuths(f, g, outcome);
  }

  lemma RecordedFile(c: Settings, f: TaskFile, request: Request, checked: nat, outcome: ExecutionOutcome)
    requires SoundFile(c, f) && f.state == Running
    requires checked < |f.auths| && BoundTo(c.hashes, f.auths[checked], request)
    ensures SoundFile(c, Recorded(f, request, checked, outcome).(state := NextState(Running, EventFor(outcome)).value))
  {
    RecordedIn(c, f, request, checked, outcome, NextState(Running, EventFor(outcome)).value);
  }

  lemma RecordedAuths(f: TaskFile, g: TaskFile, outcome: ExecutionOutcome)
    requires f.auths != [] && !f.auths[|f.auths| - 1].used
    requires forall i {:trigger SoundAuth(f, i)} :: 0 <= i < |f.auths| ==> SoundAuth(f, i)
    requires g.auths == (if outcome == ExecSucceeded then Consumed(f.auths) else f.auths)
    requires |g.records| == |f.records| + 1 && g.records[..|f.records|] == f.records
    requires g.records[|f.records|].outcome == outcome && g.records[|f.records|].under == |f.auths| - 1
    requires forall k :: 0 <= k < |f.records| ==> f.records[k].under < |f.auths| - 1
    ensures forall i {:trigger SoundAuth(g, i)} :: 0 <= i < |g.auths| ==> SoundAuth(g, i)
  {
    forall i | 0 <= i < |g.auths| ensures SoundAuth(g, i) {
      assert SoundAuth(f, i);
      RecordedAuth(f, g, i, outcome);
    }
  }

  lemma RecordedAuth(f: TaskFile, g: TaskFile, i: nat, outcome: ExecutionOutcome)
    requires f.auths != [] && i < |f.auths| && SoundAuth(f, i) && !f.auths[|f.auths| - 1].used
    requires g.auths == (if outcome == ExecSucceeded then Consumed(f.auths) else f.auths)
    requires |g.records| == |f.records| + 1 && g.records[..|f.records|] == f.records
    requires g.records[|f.records|].outcome == outcome && g.records[|f.records|].under == |f.auths| - 1
    requires forall k :: 0 <= k < |f.records| ==> f.records[k].under < |f.auths| - 1
    ensures SoundAuth(g, i)
  {
    assert forall k :: 0 <= k < |f.records| ==> g.records[k] == f.records[k];
    if i < |f.auths| - 1 {
      assert SucceededUnder(f, i) <==> SucceededUnder(g, i);
    } else {
      assert outcome == ExecSucceeded ==> g.records[|f.records|].under == i;
    }
  }

  // ---- What the audit shows ----

  /** The legal moves of a task, oldest first. */
  function TraceOf(audit: seq<Entry>, id: string): seq<Event> {
    if audit == [] then []
    else
      var last := audit[|audit| - 1];
      TraceOf(audit[..|audit| - 1], id) + (if last.taskId == id && last.mark.Moved? then [last.mark.event] else [])
  }

  function Count(trace: seq<Event>, event: Event): nat {
    if trace == [] then 0
    else Count(trace[..|trace| - 1], event) + if trace[|trace| - 1] == event then 1 else 0
  }

  function EventsOf(mark: Option<Mark>): seq<Event> {
    if mark.Some? && mark.value.Moved? then [mark.value.event] else []
  }

  /** The grants and the recovery attempts account for every such move. */
  ghost predicate Accounted(s: Store, id: string)
    requires id in s.tasks
  {
    && Count(TraceOf(s.audit, id), AuthorizeAndRun) == |s.tasks[id].auths|
    && Count(TraceOf(s.audit, id), Retry) <= |s.tasks[id].recoveries|
  }

  ghost predicate SoundFlight(c: Settings, s: Store, flight: Flight) {
    && flight.id in s.tasks && flight.checked < |s.tasks[flight.id].auths|
    && BoundTo(c.hashes, s.tasks[flight.id].auths[flight.checked], flight.request)
  }

  ghost predicate SoundTask(c: Settings, s: Store, id: string) {
    id in s.tasks && SoundFile(c, s.tasks[id]) && Accounted(s, id)
  }

  ghost predicate Inv(c: Settings, s: System) {
    && (forall id {:trigger SoundTask(c, s.store, id)} :: id in s.store.tasks ==> SoundTask(c, s.store, id))
    && Known(s.store)
    && (forall p {:trigger SoundFlight(c, s.store, s.flights[p])} :: p in s.flights ==> SoundFlight(c, s.store, s.flights[p]))
  }

  /** No audit row speaks of a task that is not stored. */
  ghost predicate Known(s: Store) {
    forall k {:trigger s.audit[k]} :: 0 <= k < |s.audit| ==> s.audit[k].taskId in s.tasks
  }

  /** Folding the legal moves from CREATED gives the stored state. */
  ghost predicate Traced(s: Store) {
    forall id {:trigger TracedTask(s, id)} :: id in s.tasks ==> TracedTask(s, id)
  }

  ghost predicate TracedTask(s: Store, id: string) {
    id in s.tasks && Fold(Created, TraceOf(s.audit, id)) == Some(s.tasks[id].state)
  }

  /** One commit: the rows of one task and at most one audit row. */
  ghost predicate Touches(s: Store, t: Store, id: string, f: TaskFile, mark: Option<Mark>) {
    t.tasks == s.tasks[id := f] && t.audit == s.audit + if mark.Some? then [Entry(id, mark.value)] else []
  }

  lemma TraceGrows(audit: seq<Entry>, entry: Entry, id: string)
    ensures TraceOf(audit + [entry], id) == TraceOf(audit, id) + if entry.taskId == id then EventsOf(Some(entry.mark)) else []
  {
    assert (audit + [entry])[..|audit|] == audit;
  }

  lemma CountGrows(trace: seq<Event>, e: Event, event: Event)
    ensures Count(trace + [e], event) == Count(trace, event) + if e == event then 1 else 0
  {
    assert (trace + [e])[..|trace|] == trace;
  }

  lemma FoldGrows(state: TaskState, trace: seq<Event>, e: Event)
    requires Fold(state, trace).Some?
    ensures Fold(state, trace + [e]) == NextState(Fold(state, trace).value, e)
  {
    assert (trace + [e])[..|trace|] == trace;
  }

  lemma TouchedTrace(s: Store, t: Store, id: string, f: TaskFile, mark: Option<Mark>, other: string)
    requires Touches(s, t, id, f, mark)
    ensures TraceOf(t.audit, other) == TraceOf(s.audit, other) + if other == id then EventsOf(mark) else []
  {
    if mark.Some? { TraceGrows(s.audit, Entry(id, mark.value), other); }
    else { assert t.audit == s.audit; }
  }

  /** More attempts than moves. */
  ghost predicate Unspent(s: Store, id: string) {
    id in s.tasks && Count(TraceOf(s.audit, id), Retry) < |s.tasks[id].recoveries|
  }

  /** The grants and attempts grow with the moves they account for. */
  predicate InStep(f: TaskFile, g: TaskFile, mark: Option<Mark>) {
    && |g.auths| == |f.auths| + (if mark == Some(Moved(AuthorizeAndRun)) then 1 else 0)
    && |g.recoveries| >= |f.recoveries|
  }

  lemma MoveAccounts(s: Store, t: Store, id: string, f: TaskFile, event: Event)
    requires id in s.tasks && Accounted(s, id) && Touches(s, t, id, f, Some(Moved(event)))
    requires InStep(s.tasks[id], f, Some(Moved(event))) && (event == Retry ==> Unspent(s, id))
    ensures id in t.tasks && Accounted(t, id)
  {
    TouchedTrace(s, t, id, f, Some(Moved(event)), id);
    CountGrows(TraceOf(s.audit, id), event, AuthorizeAndRun);
    CountGrows(TraceOf(s.audit, id), event, Retry);
  }

  lemma TouchAccounts(s: Store, t: Store, id: string, f: TaskFile, mark: Option<Mark>, other: string)
    requires other in s.tasks && Accounted(s, other) && id in s.tasks && Touches(s, t, id, f, mark) && InStep(s.tasks[id], f, mark)
    requires mark == Some(Moved(Retry)) ==> Unspent(s, id)
    ensures other in t.tasks && Accounted(t, other)
  {
    if other == id && mark.Some? && mark.value.Moved? {
      MoveAccounts(s, t, id, f, mark.value.event);
    } else {
      TouchedTrace(s, t, id, f, mark, other);
      assert TraceOf(t.audit, other) == TraceOf(s.audit, other);
    }
  }

  lemma TouchKeeps(c: Settings, s: System, t: System, id: string, f: TaskFile, mark: Option<Mark>)
    requires Inv(c, s) && id in s.store.tasks && Touches(s.store, t.store, id, f, mark)
    requires t.flights.Keys <= s.flights.Keys && forall p :: p in t.flights ==> t.flights[p] == s.flights[p]
    requires SoundFile(c, f) && AuthsKept(s.store.tasks[id], f) && InStep(s.store.tasks[id], f, mark)
    requires mark == Some(Moved(Retry)) ==> Unspent(s.store, id)
    ensures Inv(c, t)
  {
    forall other | other in t.store.tasks ensures SoundTask(c, t.store, other) {
      assert SoundTask(c, s.store, other);
      TouchAccounts(s.store, t.store, id, f, mark, other);
    }
    forall p | p in t.flights ensures SoundFlight(c, t.store, t.flights[p]) {
      FlightKept(c, s.store, t.store, id, f, s.flights[p]);
    }
  }

  lemma FlightKept(c: Settings, s: Store, t: Store, id: string, f: TaskFile, flight: Flight)
    requires SoundFlight(c, s, flight) && id in s.tasks && t.tasks == s.tasks[id := f] && AuthsKept(s.tasks[id], f)
    ensures SoundFlight(c, t, flight)
  {}

  /** A move keeps the fold in step with the state. */
  lemma TouchTraces(s: Store, t: Store, id: string, f: TaskFile, mark: Option<Mark>)
    requires Traced(s) && id in s.tasks && Touches(s, t, id, f, mark)
    requires if mark.Some? && mark.value.Moved? then NextState(s.tasks[id].state, mark.value.event) == Some(f.state)
             else f.state == s.tasks[id].state
    ensures Traced(t)
  {
    assert TracedTask(s, id);
    forall other | other in t.tasks ensures TracedTask(t, other) {
      assert other in s.tasks ==> TracedTask(s, other);
      TouchedTrace(s, t, id, f, mark, other);
      if other == id && mark.Some? && mark.value.Moved? { FoldGrows(Created, TraceOf(s.audit, id), mark.value.event); }
      else { assert TraceOf(t.audit, other) == TraceOf(s.audit, other); }
    }
  }

  // ---- Every step keeps the invariant ----

  lemma MoveKeeps(c: Settings, s: System, id: string, event: Event)
    requires Inv(c, s) && event !in GUARDED && CanMove(s.store, id, event)
    ensures Inv(c, s.(store := MovedTo(s.store, id, event)))
  {
    var f := s.store.tasks[id];
    var state := NextState(f.state, event).value;
    assert SoundTask(c, s.store, id);
    MovedFile(c, f, state);
    TouchKeeps(c, s, s.(store := MovedTo(s.store, id, event)), id, f.(state := state), Some(Moved(event)));
  }

  lemma RejectKeeps(c: Settings, s: System, id: string, event: Event)
    requires Inv(c, s) && id in s.store.tasks
    ensures Inv(c, s.(store := Noted(s.store, id, Rejected(event))))
  {
    var f := s.store.tasks[id];
    assert SoundTask(c, s.store, id);
    assert s.store.tasks == s.store.tasks[id := f];
    TouchKeeps(c, s, s.(store := Noted(s.store, id, Rejected(event))), id, f, Some(Rejected(event)));
  }

  lemma AdvanceKeeps(c: Settings, s: System, id: string, event: Event)
    requires Inv(c, s) && event !in GUARDED
    ensures Inv(c, s.(store := Advanced(s.store, id, event)))
  {
    if CanMove(s.store, id, event) { MoveKeeps(c, s, id, event); }
    else if id in s.store.tasks { RejectKeeps(c, s, id, event); }
  }

  lemma NewTaskIsSound(c: Settings)
    ensures SoundFile(c, NEW_TASK)
  {}

  lemma CreatedTask(c: Settings, s: Store, t: Store, id: string, other: string)
    requires id !in s.tasks && t == Noted(WithFile(s, id, NEW_TASK), id, TaskCreated) && other in t.tasks
    requires if other == id then Known(s) else SoundTask(c, s, other)
    ensures SoundTask(c, t, other)
  {
    TraceGrows(s.audit, Entry(id, TaskCreated), other);
    assert TraceOf(t.audit, other) == TraceOf(s.audit, other);
    if other == id {
      NoTrace(s.audit, id);
      NewTaskIsSound(c);
    }
  }

  lemma CreateKeeps(c: Settings, s: System, id: string)
    requires Inv(c, s) && id !in s.store.tasks
    ensures Inv(c, s.(store := Noted(WithFile(s.store, id, NEW_TASK), id, TaskCreated)))
  {
    var t := s.(store := Noted(WithFile(s.store, id, NEW_TASK), id, TaskCreated));
    forall other | other in t.store.tasks ensures SoundTask(c, t.store, other) {
      assert other != id ==> SoundTask(c, s.store, other);
      CreatedTask(c, s.store, t.store, id, other);
    }
    forall p | p in t.flights ensures SoundFlight(c, t.store, t.flights[p]) {
      assert SoundFlight(c, s.store, s.flights[p]);
    }
  }

  lemma {:induction false} NoTrace(audit: seq<Entry>, id: string)
    requires forall k :: 0 <= k < |audit| ==> audit[k].taskId != id
    ensures TraceOf(audit, id) == []
  {
    if audit != [] { NoTrace(audit[..|audit| - 1], id); }
  }

  /** Rows of a task that no audit row accompanies. */
  lemma QuietKeeps(c: Settings, s: System, t: System, id: string, f: TaskFile, mark: Option<Mark>)
    requires Inv(c, s) && id in s.store.tasks && Touches(s.store, t.store, id, f, mark) && t.flights == s.flights
    requires mark.Some? ==> mark.value.PlanAttached?
    requires f.records == s.store.tasks[id].records && f.auths == s.store.tasks[id].auths
    requires SoundState(f) && SoundRecoveries(c.retry, f) && |f.recoveries| >= |s.store.tasks[id].recoveries|
    ensures Inv(c, t)
  {
    assert SoundTask(c, s.store, id);
    SameRecords(c, s.store.tasks[id], f);
    TouchKeeps(c, s, t, id, f, mark);
  }

  lemma AdmissionBinds(h: Hashes, f: TaskFile, seen: TaskState, request: Request, needed: set<string>, now: int)
    requires Admission(h, f, seen, request, needed, now).Success?
    ensures
      var checked := Admission(h, f, seen, request, needed, now).value;
      checked < |f.auths| && BoundTo(h, f.auths[checked], request)
  {}

  /** A transaction that ends in a move either touches the one task or changes nothing. */
  lemma TogetherShape(s: Store, id: string, f: TaskFile, event: Event)
    requires id in s.tasks && f.state == s.tasks[id].state
    ensures
      var t := Together(s, WithFile(s, id, f), id, event);
      if NextState(f.state, event).Some? then
        Touches(s, t, id, f.(state := NextState(f.state, event).value), Some(Moved(event)))
      else t == s
  {}

  function After(f: TaskFile, event: Event): TaskFile
    requires NextState(f.state, event).Some?
  {
    f.(state := NextState(f.state, event).value)
  }

  lemma TogetherKeeps(c: Settings, s: System, flights: map<nat, Flight>, id: string, f: TaskFile, event: Event)
    requires Inv(c, s) && event != Retry && id in s.store.tasks && f.state == s.store.tasks[id].state
    requires flights.Keys <= s.flights.Keys && forall p :: p in flights ==> flights[p] == s.flights[p]
    requires NextState(f.state, event).Some? ==>
      SoundFile(c, After(f, event)) && AuthsKept(s.store.tasks[id], f) && InStep(s.store.tasks[id], f, Some(Moved(event)))
    ensures Inv(c, s.(store := Together(s.store, WithFile(s.store, id, f), id, event), flights := flights))
  {
    var t := s.(store := Together(s.store, WithFile(s.store, id, f), id, event), flights := flights);
    TogetherShape(s.store, id, f, event);
    if NextState(f.state, event).Some? {
      TouchKeeps(c, s, t, id, After(f, event), Some(Moved(event)));
    } else {
      forall p | p in flights ensures SoundFlight(c, t.store, t.flights[p]) {
        assert SoundFlight(c, s.store, s.flights[p]);
      }
      forall other | other in t.store.tasks ensures SoundTask(c, t.store, other) {
        assert SoundTask(c, s.store, other);
      }
    }
  }

  lemma GrantedStep(c: Settings, f: TaskFile, capabilities: set<string>, auth: Auth)
    requires SoundFile(c, f) && !auth.used
    ensures
      var g := f.(decisions := f.decisions + [capabilities], auths := f.auths + [auth]);
      NextState(g.state, AuthorizeAndRun).Some? ==>
        SoundFile(c, After(g, AuthorizeAndRun)) && AuthsKept(f, g) && InStep(f, g, Some(Moved(AuthorizeAndRun)))
  {
    if f.state == Ready { GrantedFile(c, f, capabilities, auth); }
  }

  lemma GrantKeeps(c: Settings, s: System, id: string, a: Approval, capabilities: set<string>, b: Binding)
    requires Inv(c, s)
    ensures Inv(c, s.(store := Granted(c, s.store, id, a, capabilities, b)))
  {
    if id in s.store.tasks && Approved(a) {
      assert SoundTask(c, s.store, id);
      var f := s.store.tasks[id];
      var auth := GrantedAuth(c.hashes, f, b);
      GrantedStep(c, f, capabilities, auth);
      TogetherKeeps(c, s, s.flights, id,
        f.(decisions := f.decisions + [capabilities], auths := f.auths + [auth]), AuthorizeAndRun);
    }
  }

  lemma ConcludeKeeps(c: Settings, s: System, p: nat, outcome: ExecutionOutcome)
    requires Inv(c, s) && p in s.flights
    ensures
      var flight := s.flights[p];
      Inv(c, s.(store := Concluded(s.store, flight.id, flight.request, flight.checked, outcome), flights := s.flights - {p}))
  {
    var flight := s.flights[p];
    assert SoundFlight(c, s.store, flight);
    assert SoundTask(c, s.store, flight.id);
    RecordedStep(c, s.store.tasks[flight.id], flight.request, flight.checked, outcome);
    TogetherKeeps(c, s, s.flights - {p}, flight.id,
      Recorded(s.store.tasks[flight.id], flight.request, flight.checked, outcome), EventFor(outcome));
  }

  lemma RecordedStep(c: Settings, f: TaskFile, request: Request, checked: nat, outcome: ExecutionOutcome)
    requires SoundFile(c, f) && checked < |f.auths| && BoundTo(c.hashes, f.auths[checked], request)
    ensures
      var g, event := Recorded(f, request, checked, outcome), EventFor(outcome);
      NextState(g.state, event).Some? ==> SoundFile(c, After(g, event)) && AuthsKept(f, g) && InStep(f, g, Some(Moved(event)))
  {
    if f.state == Running { RecordedFile(c, f, request, checked, outcome); }
  }

  lemma VerifiedFile(c: Settings, f: TaskFile, verified: bool, more: bool)
    requires SoundFile(c, f) && f.state == Verifying
    ensures SoundFile(c, After(Judged(f, verified), EventAfter(verified, more)))
  {
    SameRecords(c, f, After(Judged(f, verified), EventAfter(verified, more)));
  }

  lemma VerifiedStep(c: Settings, f: TaskFile, verified: bool, more: bool)
    requires SoundFile(c, f)
    ensures
      var g, event := Judged(f, verified), EventAfter(verified, more);
      NextState(g.state, event).Some? ==> SoundFile(c, After(g, event)) && AuthsKept(f, g) && InStep(f, g, Some(Moved(event)))
  {
    if f.state == Verifying { VerifiedFile(c, f, verified, more); }
  }

  lemma VerifyKeeps(c: Settings, s: System, id: string, seen: TaskState, verified: bool, more: bool)
    requires Inv(c, s)
    ensures Inv(c, s.(store := VerifiedIn(s.store, id, seen, verified, more)))
  {
    if id in s.store.tasks {
      assert SoundTask(c, s.store, id);
      VerifiedStep(c, s.store.tasks[id], verified, more);
      TogetherKeeps(c, s, s.flights, id, Judged(s.store.tasks[id], verified), EventAfter(verified, more));
    }
  }

  lemma AttemptingKeeps(c: Settings, s: System, id: string, factor: real)
    requires Inv(c, s) && id in s.store.tasks && CanRetry(c.retry, |s.store.tasks[id].recoveries|)
    requires 0.5 <= factor <= 1.5
    ensures Inv(c, s.(store := Attempting(c, s.store, id, factor)))
  {
    var f := s.store.tasks[id];
    var number := |f.recoveries| + 1;
    DelayIsBounded(c.retry, number, factor);
    assert SoundTask(c, s.store, id);
    var t := s.(store := Attempting(c, s.store, id, factor));
    assert t.store.audit == s.store.audit + [];
    QuietKeeps(c, s, t, id, t.store.tasks[id], None);
  }

  lemma AttemptRecoveryKeeps(c: Settings, s: System, id: string, strategy: Strategy, factor: real, now: int)
    requires Inv(c, s) && 0.5 <= factor <= 1.5
    ensures Inv(c, s.(store := RecoveryBegun(c, s.store, id, strategy, factor, now, true)))
  {
    AdvanceKeeps(c, s, id, SecurityHalt);
    if id in s.store.tasks && CanRetry(c.retry, |s.store.tasks[id].recoveries|) { AttemptingKeeps(c, s, id, factor); }
  }

  lemma MoveToRecoveringKeeps(c: Settings, s: System, id: string)
    requires Inv(c, s) && Unspent(s.store, id)
    ensures Inv(c, s.(store := Advanced(s.store, id, Retry)))
  {
    var f := s.store.tasks[id];
    if CanMove(s.store, id, Retry) {
      assert SoundTask(c, s.store, id);
      SameRecords(c, f, After(f, Retry));
      TouchKeeps(c, s, s.(store := MovedTo(s.store, id, Retry)), id, After(f, Retry), Some(Moved(Retry)));
    } else {
      RejectKeeps(c, s, id, Retry);
    }
  }

  lemma ResolvedFile(c: Settings, f: TaskFile, restored: bool)
    requires SoundFile(c, f) && f.state == Recovering && f.recoveries != []
    ensures SoundFile(c, After(Resolving(f, restored), if restored then Recovered else RecoveryFailed))
  {
    SameRecords(c, f, After(Resolving(f, restored), if restored then Recovered else RecoveryFailed));
  }

  lemma ResolveRecoveryKeeps(c: Settings, s: System, id: string, seen: TaskState, now: int, restored: bool)
    requires Inv(c, s)
    ensures Inv(c, s.(store := RecoveryResolved(c, s.store, id, seen, now, restored)))
  {
    if id in s.store.tasks && s.store.tasks[id].recoveries != [] {
      assert SoundTask(c, s.store, id);
      ResolvedStep(c, s.store.tasks[id], restored);
      TogetherKeeps(c, s, s.flights, id, Resolving(s.store.tasks[id], restored), if restored then Recovered else RecoveryFailed);
    }
  }

  lemma ResolvedStep(c: Settings, f: TaskFile, restored: bool)
    requires SoundFile(c, f) && f.recoveries != []
    ensures
      var g, event := Resolving(f, restored), if restored then Recovered else RecoveryFailed;
      NextState(g.state, event).Some? ==> SoundFile(c, After(g, event)) && AuthsKept(f, g) && InStep(f, g, Some(Moved(event)))
  {
    if f.state == Recovering { ResolvedFile(c, f, restored); }
  }

  lemma CancelKeeps(c: Settings, s: System, id: string)
    requires Inv(c, s)
    ensures Inv(c, s.(store := CancelledIn(s.store, id)))
  {
    if id in s.store.tasks && s.store.tasks[id].state !in UNCANCELLABLE {
      var t := s.(store := CancelledIn(s.store, id));
      assert SoundTask(c, s.store, id);
      assert t.store.audit == s.store.audit + [];
      QuietKeeps(c, s, t, id, t.store.tasks[id], None);
    }
  }

  lemma PlanKeeps(c: Settings, s: System, id: string, plan: Plan)
    requires Inv(c, s) && id in s.store.tasks
    ensures Inv(c, s.(store := WithFile(s.store, id, s.store.tasks[id].(plan := Some(plan)))))
  {
    var t := s.(store := WithFile(s.store, id, s.store.tasks[id].(plan := Some(plan))));
    assert SoundTask(c, s.store, id);
    assert t.store.audit == s.store.audit + [];
    QuietKeeps(c, s, t, id, t.store.tasks[id], None);
  }

  lemma AttachKeeps(c: Settings, s: System, id: string, planId: string)
    requires Inv(c, s) && id in s.store.tasks
    ensures Inv(c, s.(store :=
      Noted(WithFile(s.store, id, s.store.tasks[id].(planId := Some(planId))), id, PlanAttached(planId))))
  {
    var t := s.(store :=
      Noted(WithFile(s.store, id, s.store.tasks[id].(planId := Some(planId))), id, PlanAttached(planId)));
    assert SoundTask(c, s.store, id);
    QuietKeeps(c, s, t, id, t.store.tasks[id], Some(PlanAttached(planId)));
  }

  /** The jitter the random source may yield. */
  predicate Plausible(op: Op) {
    op.AttemptRecovery? ==> 0.5 <= op.factor <= 1.5
  }

  lemma DueDoesNotMatter(c: Settings, s: System, due: multiset<string>)
    requires Inv(c, s)
    ensures Inv(c, s.(due := due))
  {
    var t := s.(due := due);
    forall id | id in t.store.tasks ensures SoundTask(c, t.store, id) { assert SoundTask(c, s.store, id); }
    forall p | p in t.flights ensures SoundFlight(c, t.store, t.flights[p]) { assert SoundFlight(c, s.store, s.flights[p]); }
  }

  lemma AttemptStepKeeps(c: Settings, s: System, op: Op)
    requires Inv(c, s) && op.AttemptRecovery? && Plausible(op)
    ensures Inv(c, Next(c, s, op))
  {
    AttemptRecoveryKeeps(c, s, op.id, op.strategy, op.factor, op.now);
    DueDoesNotMatter(c, s.(store := RecoveryBegun(c, s.store, op.id, op.strategy, op.factor, op.now, true)), Next(c, s, op).due);
  }

  lemma MoveStepKeeps(c: Settings, s: System, op: Op)
    requires Inv(c, s) && Covered(s) && op.MoveToRecovering?
    ensures Inv(c, Next(c, s, op))
  {
    if op.id in s.due {
      assert CoveredTask(s, op.id);
      MoveToRecoveringKeeps(c, s, op.id);
      DueDoesNotMatter(c, s.(store := Advanced(s.store, op.id, Retry)), s.due - multiset{op.id});
    }
  }

  lemma StepKeeps(c: Settings, s: System, op: Op)
    requires Inv(c, s) && Covered(s) && Plausible(op)
    ensures Inv(c, Next(c, s, op))
  {
    match op
    case Create(id) => if id !in s.store.tasks { CreateKeeps(c, s, id); }
    case AttachPlan(id, planId) => if id in s.store.tasks { AttachKeeps(c, s, id, planId); }
    case SavePlan(id, plan) => if id in s.store.tasks { PlanKeeps(c, s, id, plan); }
    case Advance(id, event) => if event !in GUARDED { AdvanceKeeps(c, s, id, event); }
    case Grant(id, a, capabilities, b) => GrantKeeps(c, s, id, a, capabilities, b);
    case Admit(p, id, seen, request, needed, now) =>
      if p !in s.flights && id in s.store.tasks
        && Admission(c.hashes, s.store.tasks[id], seen, request, needed, now).Success?
      {
        AdmissionBinds(c.hashes, s.store.tasks[id], seen, request, needed, now);
      }
    case Conclude(p, outcome) => if p in s.flights { ConcludeKeeps(c, s, p, outcome); }
    case Verify(id, seen, verified, more) => VerifyKeeps(c, s, id, seen, verified, more);
    case AttemptRecovery(_, _, _, _) => AttemptStepKeeps(c, s, op);
    case MoveToRecovering(_) => MoveStepKeeps(c, s, op);
    case ResolveRecovery(id, seen, now, restored) => ResolveRecoveryKeeps(c, s, id, seen, now, restored);
    case ResolveBlockedTask(id, _, _, resume) => AdvanceKeeps(c, s, id, if resume then Unblock else Cancel);
    case ReconcileStranded(id) => StrandedKeeps(c, s, id);
    case CancelTask(id) => CancelKeeps(c, s, id);
    case Crash =>
  }

  lemma StrandedKeeps(c: Settings, s: System, id: string)
    requires Inv(c, s)
    ensures Inv(c, s.(store := Unstranded(s.store, id)))
  {
    AdvanceKeeps(c, s, id, Cancel);
    AdvanceKeeps(c, s, id, ExecutionUnknown);
    AdvanceKeeps(c, s, id, VerificationFailed);
    AdvanceKeeps(c, s, id, RecoveryFailed);
  }

  // ---- Every move to RECOVERING was paid for ----

  /** The moves made and those still due are covered by saved attempts. */
  ghost predicate CoveredTask(s: System, id: string) {
    id in s.store.tasks
    && Count(TraceOf(s.store.audit, id), Retry) + s.due[id] <= |s.store.tasks[id].recoveries|
  }

  ghost predicate Covered(s: System) {
    forall id {:trigger CoveredTask(s, id)} :: id in s.due ==> CoveredTask(s, id)
  }

  /** At most one audit row, and not one of a move to RECOVERING. */
  predicate NoRetryRow(s: Store, t: Store) {
    t.audit == s.audit
    || (|t.audit| == |s.audit| + 1 && t.audit[..|s.audit|] == s.audit && t.audit[|s.audit|].mark != Moved(Retry))
  }

  lemma NoRetryCounts(s: Store, t: Store, id: string)
    requires NoRetryRow(s, t)
    ensures Count(TraceOf(t.audit, id), Retry) == Count(TraceOf(s.audit, id), Retry)
  {
    if t.audit != s.audit {
      var entry := t.audit[|s.audit|];
      assert t.audit == s.audit + [entry];
      TraceGrows(s.audit, entry, id);
      if entry.taskId == id && entry.mark.Moved? {
        CountGrows(TraceOf(s.audit, id), entry.mark.event, Retry);
      } else {
        assert TraceOf(t.audit, id) == TraceOf(s.audit, id);
      }
    }
  }

  lemma AdvancedRow(s: Store, id: string, event: Event)
    requires event != Retry
    ensures NoRetryRow(s, Advanced(s, id, event))
  {}

  lemma TogetherRow(s: Store, prepared: Store, id: string, event: Event)
    requires event != Retry && prepared.audit == s.audit
    ensures NoRetryRow(s, Together(s, prepared, id, event))
  {}

  lemma GrantedRow(c: Settings, s: Store, id: string, a: Approval, capabilities: set<string>, b: Binding)
    ensures NoRetryRow(s, Granted(c, s, id, a, capabilities, b))
  {
    if id in s.tasks {
      TogetherRow(s, Granting(s, id, capabilities, GrantedAuth(c.hashes, s.tasks[id], b)), id, AuthorizeAndRun);
    }
  }

  lemma ConcludedRow(s: Store, flight: Flight, outcome: ExecutionOutcome)
    ensures NoRetryRow(s, Concluded(s, flight.id, flight.request, flight.checked, outcome))
  {
    if flight.id in s.tasks {
      TogetherRow(s, WithFile(s, flight.id, Recorded(s.tasks[flight.id], flight.request, flight.checked, outcome)),
        flight.id, EventFor(outcome));
    }
  }

  lemma VerifiedRow(s: Store, id: string, seen: TaskState, verified: bool, more: bool)
    ensures NoRetryRow(s, VerifiedIn(s, id, seen, verified, more))
  {
    if id in s.tasks { TogetherRow(s, WithFile(s, id, Judged(s.tasks[id], verified)), id, EventAfter(verified, more)); }
  }

  lemma ResolvedRow(c: Settings, s: Store, id: string, seen: TaskState, now: int, restored: bool)
    ensures NoRetryRow(s, RecoveryResolved(c, s, id, seen, now, restored))
  {
    if id in s.tasks && s.tasks[id].recoveries != [] {
      TogetherRow(s, WithFile(s, id, Resolving(s.tasks[id], restored)), id, if restored then Recovered else RecoveryFailed);
    }
  }

  lemma StrandedRow(s: Store, id: string)
    ensures NoRetryRow(s, Unstranded(s, id))
  {
    AdvancedRow(s, id, Cancel);
    AdvancedRow(s, id, ExecutionUnknown);
    AdvancedRow(s, id, VerificationFailed);
    AdvancedRow(s, id, RecoveryFailed);
  }

  lemma AttemptedRow(c: Settings, s: Store, id: string, strategy: Strategy, factor: real, now: int)
    ensures NoRetryRow(s, RecoveryBegun(c, s, id, strategy, factor, now, true))
  {
    AdvancedRow(s, id, SecurityHalt);
  }

  lemma NotedRow(c: Settings, s: System, op: Op)
    requires op.Create? || op.AttachPlan? || op.SavePlan? || op.CancelTask?
    ensures NoRetryRow(s.store, Next(c, s, op).store)
  {}

  lemma StepRow(c: Settings, s: System, op: Op)
    requires !op.MoveToRecovering?
    ensures NoRetryRow(s.store, Next(c, s, op).store)
  {
    match op
    case Advance(id, event) => if event !in GUARDED { AdvancedRow(s.store, id, event); }
    case Grant(id, a, capabilities, b) => GrantedRow(c, s.store, id, a, capabilities, b);
    case Conclude(p, outcome) => if p in s.flights { ConcludedRow(s.store, s.flights[p], outcome); }
    case Verify(id, seen, verified, more) => VerifiedRow(s.store, id, seen, verified, more);
    case AttemptRecovery(id, strategy, factor, now) => AttemptedRow(c, s.store, id, strategy, factor, now);
    case ResolveRecovery(id, seen, now, restored) => ResolvedRow(c, s.store, id, seen, now, restored);
    case ResolveBlockedTask(id, _, _, resume) => AdvancedRow(s.store, id, if resume then Unblock else Cancel);
    case ReconcileStranded(id) => StrandedRow(s.store, id);
    case Admit(_, _, _, _, _, _) =>
    case Crash =>
    case _ => NotedRow(c, s, op);
  }

  lemma QuietStepCovers(c: Settings, s: System, op: Op)
    requires Covered(s) && !op.MoveToRecovering? && Next(c, s, op).due <= s.due
    ensures Covered(Next(c, s, op))
  {
    var t := Next(c, s, op);
    StepRow(c, s, op);
    forall id | id in t.due ensures CoveredTask(t, id) {
      assert CoveredTask(s, id);
      NoRetryCounts(s.store, t.store, id);
      StepGrows(c, s, op, id);
    }
  }

  lemma AttemptCovers(c: Settings, s: System, id: string, factor: real)
    requires Covered(s) && id in s.store.tasks && Accounted(s.store, id)
    ensures Covered(s.(store := Attempting(c, s.store, id, factor), due := s.due + multiset{id}))
  {
    var t := s.(store := Attempting(c, s.store, id, factor), due := s.due + multiset{id});
    forall other | other in t.due ensures CoveredTask(t, other) {
      if other in s.due { assert CoveredTask(s, other); }
    }
  }

  lemma MoveCovers(s: System, id: string)
    requires Covered(s) && id in s.due
    ensures Covered(s.(store := Advanced(s.store, id, Retry), due := s.due - multiset{id}))
  {
    var t := s.(store := Advanced(s.store, id, Retry), due := s.due - multiset{id});
    assert CoveredTask(s, id);
    forall other | other in t.due ensures CoveredTask(t, other) {
      assert CoveredTask(s, other);
      MoveCounts(s.store, id, other);
    }
  }

  lemma MoveCounts(s: Store, id: string, other: string)
    requires id in s.tasks && other in s.tasks
    ensures
      var t := Advanced(s, id, Retry);
      && other in t.tasks && t.tasks[other].recoveries == s.tasks[other].recoveries
      && Count(TraceOf(t.audit, other), Retry) <= Count(TraceOf(s.audit, other), Retry) + if other == id then 1 else 0
  {
    var mark := if CanMove(s, id, Retry) then Moved(Retry) else Rejected(Retry);
    TraceGrows(s.audit, Entry(id, mark), other);
    CountGrows(TraceOf(s.audit, other), Retry, Retry);
    assert TraceOf(s.audit, other) + [] == TraceOf(s.audit, other);
  }

  lemma StepCovers(c: Settings, s: System, op: Op)
    requires Inv(c, s) && Covered(s)
    ensures Covered(Next(c, s, op))
  {
    if op.MoveToRecovering? {
      if op.id in s.due { MoveCovers(s, op.id); }
    } else if op.AttemptRecovery? && RecoveryAllowed(c, s.store, op.id, op.now) && op.strategy == ProceedStrategy {
      AttemptStepCovers(c, s, op);
    } else {
      DueStays(c, s, op);
      QuietStepCovers(c, s, op);
    }
  }

  lemma AttemptStepCovers(c: Settings, s: System, op: Op)
    requires Inv(c, s) && Covered(s) && op.AttemptRecovery?
    requires RecoveryAllowed(c, s.store, op.id, op.now) && op.strategy == ProceedStrategy
    ensures Covered(Next(c, s, op))
  {
    AttemptNext(c, s, op);
    TaskIsAccounted(c, s, op.id);
    AttemptCovers(c, s, op.id, op.factor);
  }

  lemma AttemptNext(c: Settings, s: System, op: Op)
    requires op.AttemptRecovery? && RecoveryAllowed(c, s.store, op.id, op.now) && op.strategy == ProceedStrategy
    ensures Next(c, s, op) == s.(store := Attempting(c, s.store, op.id, op.factor), due := s.due + multiset{op.id})
    ensures op.id in s.store.tasks
  {}

  lemma TaskIsAccounted(c: Settings, s: System, id: string)
    requires Inv(c, s) && id in s.store.tasks
    ensures Accounted(s.store, id)
  {
    assert SoundTask(c, s.store, id);
  }

  lemma DueStays(c: Settings, s: System, op: Op)
    requires !op.MoveToRecovering?
    requires op.AttemptRecovery? ==> !(RecoveryAllowed(c, s.store, op.id, op.now) && op.strategy == ProceedStrategy)
    ensures Next(c, s, op).due <= s.due
  {}

  lemma {:induction false} RunKeeps(c: Settings, s: System, ops: seq<Op>)
    requires Inv(c, s) && Covered(s) && forall op :: op in ops ==> Plausible(op)
    ensures Inv(c, Run(c, s, ops)) && Covered(Run(c, s, ops))
  {
    if ops != [] {
      RunKeeps(c, s, ops[..|ops| - 1]);
      StepKeeps(c, Run(c, s, ops[..|ops| - 1]), ops[|ops| - 1]);
      StepCovers(c, Run(c, s, ops[..|ops| - 1]), ops[|ops| - 1]);
    }
  }

  // ---- Every step but `cancel_task` keeps the trace ----

  lemma AdvancedTraces(s: Store, id: string, event: Event)
    requires Traced(s)
    ensures Traced(Advanced(s, id, event))
  {
    if id in s.tasks {
      var f := s.tasks[id];
      if CanMove(s, id, event) {
        TouchTraces(s, Advanced(s, id, event), id, f.(state := NextState(f.state, event).value), Some(Moved(event)));
      } else {
        assert s.tasks == s.tasks[id := f];
        TouchTraces(s, Advanced(s, id, event), id, f, Some(Rejected(event)));
      }
    }
  }

  lemma TogetherTraces(s: Store, id: string, f: TaskFile, event: Event)
    requires Traced(s) && id in s.tasks && f.state == s.tasks[id].state
    ensures Traced(Together(s, WithFile(s, id, f), id, event))
  {
    TogetherShape(s, id, f, event);
    if NextState(f.state, event).Some? {
      TouchTraces(s, Together(s, WithFile(s, id, f), id, event), id, f.(state := NextState(f.state, event).value), Some(Moved(event)));
    }
  }

  lemma CreatedTraces(s: Store, id: string)
    requires Traced(s) && Known(s) && id !in s.tasks
    ensures Traced(Noted(WithFile(s, id, NEW_TASK), id, TaskCreated))
  {
    var t := Noted(WithFile(s, id, NEW_TASK), id, TaskCreated);
    forall other | other in t.tasks ensures TracedTask(t, other) {
      assert other in s.tasks ==> TracedTask(s, other);
      TraceGrows(s.audit, Entry(id, TaskCreated), other);
      assert TraceOf(t.audit, other) == TraceOf(s.audit, other);
      if other == id { NoTrace(s.audit, id); }
    }
  }

  lemma QuietTraces(s: Store, t: Store, id: string, f: TaskFile, mark: Option<Mark>)
    requires Traced(s) && id in s.tasks && Touches(s, t, id, f, mark) && f.state == s.tasks[id].state
    requires mark.Some? ==> mark.value.PlanAttached?
    ensures Traced(t)
  {
    TouchTraces(s, t, id, f, mark);
  }

  lemma RecoveryTraces(c: Settings, s: Store, id: string, strategy: Strategy, factor: real, now: int, crashes: bool)
    requires Traced(s)
    ensures Traced(RecoveryBegun(c, s, id, strategy, factor, now, crashes))
  {
    AdvancedTraces(s, id, SecurityHalt);
    if id in s.tasks {
      var saved := Attempting(c, s, id, factor);
      assert saved.audit == s.audit + [];
      QuietTraces(s, saved, id, saved.tasks[id], None);
      AdvancedTraces(saved, id, Retry);
    }
  }

  lemma GrantTraces(c: Settings, s: Store, id: string, a: Approval, capabilities: set<string>, b: Binding)
    requires Traced(s)
    ensures Traced(Granted(c, s, id, a, capabilities, b))
  {
    if id in s.tasks {
      TogetherTraces(s, id, Granting(s, id, capabilities, GrantedAuth(c.hashes, s.tasks[id], b)).tasks[id], AuthorizeAndRun);
    }
  }

  lemma ConcludeTraces(s: Store, flight: Flight, outcome: ExecutionOutcome)
    requires Traced(s)
    ensures Traced(Concluded(s, flight.id, flight.request, flight.checked, outcome))
  {
    if flight.id in s.tasks {
      TogetherTraces(s, flight.id, Recorded(s.tasks[flight.id], flight.request, flight.checked, outcome), EventFor(outcome));
    }
  }

  lemma VerifyTraces(s: Store, id: string, seen: TaskState, verified: bool, more: bool)
    requires Traced(s)
    ensures Traced(VerifiedIn(s, id, seen, verified, more))
  {
    if id in s.tasks {
      TogetherTraces(s, id, Judged(s.tasks[id], verified), EventAfter(verified, more));
    }
  }

  lemma ResolveTraces(c: Settings, s: Store, id: string, seen: TaskState, now: int, restored: bool)
    requires Traced(s)
    ensures Traced(RecoveryResolved(c, s, id, seen, now, restored))
  {
    if id in s.tasks && s.tasks[id].recoveries != [] {
      TogetherTraces(s, id, Resolving(s.tasks[id], restored), if restored then Recovered else RecoveryFailed);
    }
  }

  lemma StepTraces(c: Settings, s: System, op: Op)
    requires Traced(s.store) && Known(s.store) && !op.CancelTask?
    ensures Traced(Next(c, s, op).store)
  {
    var store := s.store;
    match op
    case Create(id) => if id !in store.tasks { CreatedTraces(store, id); }
    case AttachPlan(id, planId) => NoteTraces(c, s, op);
    case SavePlan(id, plan) => NoteTraces(c, s, op);
    case Advance(id, event) => AdvancedTraces(store, id, event);
    case Grant(id, a, capabilities, b) => GrantTraces(c, store, id, a, capabilities, b);
    case Conclude(p, outcome) => if p in s.flights { ConcludeTraces(store, s.flights[p], outcome); }
    case Verify(id, seen, verified, more) => VerifyTraces(store, id, seen, verified, more);
    case AttemptRecovery(id, strategy, factor, now) => RecoveryTraces(c, store, id, strategy, factor, now, true);
    case MoveToRecovering(id) => AdvancedTraces(store, id, Retry);
    case ResolveRecovery(id, seen, now, restored) => ResolveTraces(c, store, id, seen, now, restored);
    case ResolveBlockedTask(id, _, _, resume) => AdvancedTraces(store, id, if resume then Unblock else Cancel);
    case ReconcileStranded(id) => StrandedTraces(store, id);
    case Admit(_, _, _, _, _, _) =>
    case Crash =>
  }

  lemma NoteTraces(c: Settings, s: System, op: Op)
    requires Traced(s.store) && (op.AttachPlan? || op.SavePlan?)
    ensures Traced(Next(c, s, op).store)
  {
    var t := Next(c, s, op).store;
    if op.id in s.store.tasks {
      assert op.SavePlan? ==> t.audit == s.store.audit + [];
      QuietTraces(s.store, t, op.id, t.tasks[op.id], if op.SavePlan? then None else Some(PlanAttached(op.planId)));
    }
  }

  lemma StrandedTraces(s: Store, id: string)
    requires Traced(s)
    ensures Traced(Unstranded(s, id))
  {
    AdvancedTraces(s, id, Cancel);
    AdvancedTraces(s, id, ExecutionUnknown);
    AdvancedTraces(s, id, VerificationFailed);
    AdvancedTraces(s, id, RecoveryFailed);
  }

  // ---- Whole runs ----

  const EMPTY := System(Store(map[], []), map[], multiset{})

  ghost predicate Reachable(c: Settings, s: System) {
    exists ops: seq<Op> :: (forall op :: op in ops ==> Plausible(op)) && s == Run(c, EMPTY, ops)
  }

  lemma ReachableIsSound(c: Settings, s: System, id: string)
    requires Reachable(c, s)
    ensures Inv(c, s) && Covered(s) && (id in s.store.tasks ==> SoundTask(c, s.store, id))
  {
    var ops: seq<Op> :| (forall op :: op in ops ==> Plausible(op)) && s == Run(c, EMPTY, ops);
    RunKeeps(c, EMPTY, ops);
  }

  /** What the services call structurally impossible is: a task stored as RUNNING has a decision and
      an unused authorization, one that is VERIFYING has a successful record, one that is RECOVERING
      has an attempt, and one that is COMPLETED was verified. */
  lemma NothingIsMissing(
      c: Settings, s: System, id: string, request: Request, needed: set<string>, now: int)
    requires Reachable(c, s) && id in s.store.tasks
    ensures
      var f := s.store.tasks[id];
      && (f.state == Running ==>
            f.decisions != [] && f.auths != [] && !f.auths[|f.auths| - 1].used
            && Admission(c.hashes, f, f.state, request, needed, now)
               !in {Failure(MissingAuthorization), Failure(AlreadyUsed), Failure(MissingDecision)})
      && (f.state == Verifying ==> LastSucceeded(f))
      && (f.state == Recovering ==> f.recoveries != [])
      && (f.state == Completed ==> LastSucceeded(f) && f.verifications != [] && f.verifications[|f.verifications| - 1])
  {
    ReachableIsSound(c, s, id);
  }

  /** What an authorization row may become: the same grant, perhaps used. */
  predicate SameGrant(a: Auth, b: Auth) {
    b == a || b == a.(used := true)
  }

  /** And an attempt row: the same attempt, perhaps resolved. */
  predicate SameAttempt(a: RecoveryRow, b: RecoveryRow) {
    b.number == a.number && b.delay == a.delay
  }

  /** Rows are only ever added; of the old ones only two marks may change. */
  ghost predicate Grows(f: TaskFile, g: TaskFile) {
    && f.decisions <= g.decisions && f.records <= g.records && f.verifications <= g.verifications
    && |f.auths| <= |g.auths| && |f.recoveries| <= |g.recoveries|
    && (forall i :: 0 <= i < |f.auths| ==> SameGrant(f.auths[i], g.auths[i]))
    && (forall i :: 0 <= i < |f.recoveries| ==> SameAttempt(f.recoveries[i], g.recoveries[i]))
  }

  lemma GrowsThrough(f: TaskFile, g: TaskFile, h: TaskFile)
    requires Grows(f, g) && Grows(g, h)
    ensures Grows(f, h)
  {
    forall i | 0 <= i < |f.auths| ensures SameGrant(f.auths[i], h.auths[i]) {
      assert SameGrant(f.auths[i], g.auths[i]) && SameGrant(g.auths[i], h.auths[i]);
    }
    forall i | 0 <= i < |f.recoveries| ensures SameAttempt(f.recoveries[i], h.recoveries[i]) {
      assert SameAttempt(f.recoveries[i], g.recoveries[i]) && SameAttempt(g.recoveries[i], h.recoveries[i]);
    }
  }

  ghost predicate TaskGrows(s: Store, t: Store, id: string) {
    id in s.tasks ==> id in t.tasks && Grows(s.tasks[id], t.tasks[id])
  }

  lemma StepGrows(c: Settings, s: System, op: Op, id: string)
    ensures TaskGrows(s.store, Next(c, s, op).store, id)
  {
    match op
    case Grant(other, a, capabilities, b) => GrantGrows(c, s.store, id, op);
    case Conclude(p, outcome) => if p in s.flights { ConcludeGrows(s.store, s.flights[p], outcome, id); }
    case AttemptRecovery(_, _, _, _) => RecoveryGrows(c, s.store, id, op);
    case MoveToRecovering(other) => AdvancedGrows(s.store, other, Retry, id);
    case ReconcileStranded(other) => StrandedGrows(s.store, other, id);
    case Advance(other, event) => AdvancedGrows(s.store, other, event, id);
    case ResolveBlockedTask(other, _, _, resume) => AdvancedGrows(s.store, other, if resume then Unblock else Cancel, id);
    case ResolveRecovery(_, _, _, _) => RecoveryGrows(c, s.store, id, op);
    case Verify(other, seen, verified, more) => VerifyGrows(s.store, other, seen, verified, more, id);
    case CancelTask(other) => CancelGrows(s.store, other, id);
    case Create(_) => NoteGrows(c, s, op, id);
    case AttachPlan(_, _) => NoteGrows(c, s, op, id);
    case SavePlan(_, _) => NoteGrows(c, s, op, id);
    case Admit(_, _, _, _, _, _) => SameGrows(s.store, id);
    case Crash => SameGrows(s.store, id);
  }

  lemma SameGrows(s: Store, id: string)
    ensures TaskGrows(s, s, id)
  {}

  lemma NoteGrows(c: Settings, s: System, op: Op, id: string)
    requires op.Create? || op.AttachPlan? || op.SavePlan?
    ensures TaskGrows(s.store, Next(c, s, op).store, id)
  {}

  lemma CancelGrows(s: Store, other: string, id: string)
    ensures TaskGrows(s, CancelledIn(s, other), id)
  {}

  lemma AdvancedGrows(s: Store, other: string, event: Event, id: string)
    ensures TaskGrows(s, Advanced(s, other, event), id)
  {}

  lemma VerifyGrows(s: Store, other: string, seen: TaskState, verified: bool, more: bool, id: string)
    ensures
      var t := VerifiedIn(s, other, seen, verified, more);
      TaskGrows(s, t, id)
  {}

  lemma GrantGrows(c: Settings, s: Store, id: string, op: Op)
    requires op.Grant?
    ensures
      var t := Granted(c, s, op.id, op.approval, op.capabilities, op.binding);
      TaskGrows(s, t, id)
  {}

  lemma ConcludeGrows(s: Store, flight: Flight, outcome: ExecutionOutcome, id: string)
    ensures
      var t := Concluded(s, flight.id, flight.request, flight.checked, outcome);
      TaskGrows(s, t, id)
  {}

  lemma StrandedGrows(s: Store, other: string, id: string)
    ensures TaskGrows(s, Unstranded(s, other), id)
  {
    SameGrows(s, id);
    AdvancedGrows(s, other, Cancel, id);
    AdvancedGrows(s, other, ExecutionUnknown, id);
    AdvancedGrows(s, other, VerificationFailed, id);
    AdvancedGrows(s, other, RecoveryFailed, id);
  }

  lemma RecoveryGrows(c: Settings, s: Store, id: string, op: Op)
    requires (op.AttemptRecovery? || op.ResolveRecovery?)
    ensures
      var t := if op.AttemptRecovery? then RecoveryBegun(c, s, op.id, op.strategy, op.factor, op.now, true)
               else RecoveryResolved(c, s, op.id, op.seen, op.now, op.restored);
      TaskGrows(s, t, id)
  {}

  lemma {:induction false} RowsOnlyGrow(c: Settings, s: System, ops: seq<Op>, id: string)
    requires id in s.store.tasks
    ensures id in Run(c, s, ops).store.tasks && Grows(s.store.tasks[id], Run(c, s, ops).store.tasks[id])
  {
    if ops != [] {
      var init := ops[..|ops| - 1];
      RowsOnlyGrow(c, s, init, id);
      StepGrows(c, Run(c, s, init), ops[|ops| - 1], id);
      GrowsThrough(s.store.tasks[id], Run(c, s, init).store.tasks[id], Run(c, s, ops).store.tasks[id]);
    }
  }

  /** Nor is anything missing for a caller whose task object was read earlier: whatever ran since. */
  lemma StaleCallersMissNothing(
      c: Settings, s: System, ops: seq<Op>, id: string, request: Request, needed: set<string>, now: int)
    requires Reachable(c, s) && id in s.store.tasks
    ensures
      var f, g := s.store.tasks[id], Run(c, s, ops).store.tasks;
      && id in g
      && (f.state == Running ==>
            Admission(c.hashes, g[id], f.state, request, needed, now)
            !in {Failure(MissingAuthorization), Failure(MissingDecision)})
      && (f.state == Verifying ==> g[id].records != [])
      && (f.state == Recovering ==> g[id].recoveries != [])
  {
    ReachableIsSound(c, s, id);
    RowsOnlyGrow(c, s, ops, id);
  }

  lemma {:induction false} AscendingIsSpread(records: seq<Record>, k: nat)
    requires Ascending(records) && k < |records|
    ensures records[k].under >= k
  {
    if k > 0 {
      AscendingIsSpread(records, k - 1);
      assert records[k - 1].under < records[k].under;
    }
  }

  /** Every execution record was saved under an authorization of its own, so there are no more
      records than authorizations; an authorization with a nonce is used exactly when a success was
      recorded under it, and that is at most once; and every entry into RUNNING was paid for. */
  lemma RecordsInjectIntoGrants(c: Settings, s: System, id: string)
    requires Reachable(c, s) && id in s.store.tasks
    ensures
      var f := s.store.tasks[id];
      && (forall k :: 0 <= k < |f.records| ==> f.records[k].under < |f.auths|)
      && (forall j, k :: 0 <= j < |f.records| && 0 <= k < |f.records| && f.records[j].under == f.records[k].under ==> j == k)
      && |f.records| <= |f.auths|
      && (forall i :: 0 <= i < |f.auths| ==> (f.auths[i].used <==> f.auths[i].nonce.Some? && SucceededUnder(f, i)))
      && Count(TraceOf(s.store.audit, id), AuthorizeAndRun) == |f.auths|
  {
    ReachableIsSound(c, s, id);
    var f := s.store.tasks[id];
    forall k | 0 <= k < |f.records| ensures f.records[k].under < |f.auths| {
      assert SoundRecord(c.hashes, f, f.records[k]);
    }
    forall i | 0 <= i < |f.auths| ensures f.auths[i].used <==> f.auths[i].nonce.Some? && SucceededUnder(f, i) {
      assert SoundAuth(f, i);
    }
    if f.records != [] { AscendingIsSpread(f.records, |f.records| - 1); }
  }

  ghost predicate InjectiveHashes(h: Hashes) {
    && (forall a, b :: h.step(a) == h.step(b) ==> a == b)
    && (forall a, b :: h.arguments(a) == h.arguments(b) ==> a == b)
  }

  /** What ran is what was granted: the tool of the authorised step, with the authorised arguments. */
  lemma RecordsAreBound(c: Settings, s: System, id: string, k: nat, step: PlanStep, arguments: string)
    requires Reachable(c, s) && id in s.store.tasks && k < |s.store.tasks[id].records| && InjectiveHashes(c.hashes)
    ensures
      var f := s.store.tasks[id];
      var r := f.records[k];
      && r.checked < |f.auths|
      && (f.auths[r.checked].stepHash == Some(c.hashes.step(step)) ==> r.request.tool == step.tool)
      && (f.auths[r.checked].argumentsHash == Some(c.hashes.arguments(arguments)) ==> r.request.arguments == arguments)
  {
    ReachableIsSound(c, s, id);
    var f := s.store.tasks[id];
    assert SoundRecord(c.hashes, f, f.records[k]);
  }

  /** A record is saved under the authorization its request was checked against exactly when none was
      granted in between; otherwise the later one is consumed. */
  lemma OvertakenExactlyIfRegranted(c: Settings, s: System, p: nat, outcome: ExecutionOutcome)
    requires Reachable(c, s) && p in s.flights && s.flights[p].id in s.store.tasks
    requires s.store.tasks[s.flights[p].id].state == Running
    ensures
      var flight := s.flights[p];
      var f, after := s.store.tasks[flight.id], Next(c, s, Conclude(p, outcome)).store.tasks[flight.id];
      && |after.records| == |f.records| + 1
      && var r := after.records[|f.records|];
      && r.checked == flight.checked && (r.under == r.checked <==> |f.auths| == flight.checked + 1)
  {
    var flight := s.flights[p];
    ReachableIsSound(c, s, flight.id);
    assert SoundFlight(c, s.store, flight);
    TogetherShape(s.store, flight.id,
      Recorded(s.store.tasks[flight.id], flight.request, flight.checked, outcome), EventFor(outcome));
  }

  lemma RunOne(c: Settings, s: System, ops: seq<Op>, op: Op)
    ensures Run(c, s, ops + [op]) == Next(c, Run(c, s, ops), op)
  {
    assert (ops + [op])[..|ops|] == ops;
  }

  /** A run that has come to store one task. */
  ghost predicate Shows(c: Settings, ops: seq<Op>, f: TaskFile, flights: map<nat, Flight>) {
    && (forall op :: op in ops ==> Plausible(op))
    && Run(c, EMPTY, ops).store.tasks == map["t" := f] && Run(c, EMPTY, ops).flights == flights
  }

  lemma MoveOn(c: Settings, ops: seq<Op>, f: TaskFile, flights: map<nat, Flight>, event: Event)
    requires Shows(c, ops, f, flights) && event !in GUARDED && NextState(f.state, event).Some?
    ensures Shows(c, ops + [Advance("t", event)], After(f, event), flights)
  {
    RunOne(c, EMPTY, ops, Advance("t", event));
  }

  const BARE_PLAN := Plan("p", "", [])

  /** The grant for a stored plan without steps: it has a nonce and is bound to the plan alone. */
  function BareAuth(c: Settings): Auth {
    Auth(Some("n"), false, HOUR, Some(c.hashes.plan(BARE_PLAN)), None, None)
  }

  const BARE_GRANT :=
    Grant("t", Approval(Allowed, false, false, true), {}, Binding(Some(BARE_PLAN), None, None, "n", 0))

  lemma BareGranted(c: Settings, s: Store, f: TaskFile)
    requires s.tasks == map["t" := f] && f.state == Ready
    ensures Granted(c, s, "t", BARE_GRANT.approval, {}, BARE_GRANT.binding).tasks ==
      map["t" := f.(state := Running, decisions := f.decisions + [{}], auths := f.auths + [BareAuth(c)])]
  {}

  lemma GrantOn(c: Settings, ops: seq<Op>, f: TaskFile, flights: map<nat, Flight>)
    requires Shows(c, ops, f, flights) && f.state == Ready
    ensures Shows(c, ops + [BARE_GRANT],
      f.(state := Running, decisions := f.decisions + [{}], auths := f.auths + [BareAuth(c)]), flights)
  {
    RunOne(c, EMPTY, ops, BARE_GRANT);
    BareGranted(c, Run(c, EMPTY, ops).store, f);
  }

  lemma PlanOn(c: Settings, ops: seq<Op>, f: TaskFile)
    requires Shows(c, ops, f, map[])
    ensures Shows(c, ops + [SavePlan("t", BARE_PLAN)], f.(plan := Some(BARE_PLAN)), map[])
  {
    RunOne(c, EMPTY, ops, SavePlan("t", BARE_PLAN));
  }

  lemma AdmitOn(c: Settings, ops: seq<Op>, f: TaskFile, request: Request)
    requires Shows(c, ops, f, map[]) && f.plan == Some(BARE_PLAN)
    requires f.auths == [BareAuth(c)] && f.decisions == [{}] && f.records == []
    ensures Shows(c, ops + [Admit(0, "t", Running, request, {}, 0)], f, map[0 := Flight("t", request, 0)])
  {
    RunOne(c, EMPTY, ops, Admit(0, "t", Running, request, {}, 0));
    assert Admission(c.hashes, f, Running, request, {}, 0) == Success(0);
  }

  lemma ConcludeOn(c: Settings, ops: seq<Op>, f: TaskFile, request: Request)
    requires Shows(c, ops, f, map[0 := Flight("t", request, 0)]) && f.state == Running
    ensures Shows(c, ops + [Conclude(0, ExecSucceeded)],
      Recorded(f, request, 0, ExecSucceeded).(state := Verifying), map[])
  {
    RunOne(c, EMPTY, ops, Conclude(0, ExecSucceeded));
    assert map[0 := Flight("t", request, 0)] - {0} == map[];
  }

  lemma ReachCreated(c: Settings)
    ensures Shows(c, [] + [Create("t")], NEW_TASK, map[])
  {
    RunOne(c, EMPTY, [], Create("t"));
  }

  const PLANNED := NEW_TASK.(plan := Some(BARE_PLAN))

  lemma ReachPlanned(c: Settings) returns (ops: seq<Op>)
    ensures Shows(c, ops, PLANNED, map[])
  {
    ReachCreated(c);
    PlanOn(c, [] + [Create("t")], NEW_TASK);
    ops := [] + [Create("t")] + [SavePlan("t", BARE_PLAN)];
  }

  lemma ReachReady(c: Settings) returns (ops: seq<Op>)
    ensures Shows(c, ops, PLANNED.(state := Ready), map[])
  {
    ops := ReachPlanned(c);
    MoveOn(c, ops, PLANNED, map[], StartPlanning);
    ops := ops + [Advance("t", StartPlanning)];
    MoveOn(c, ops, PLANNED.(state := Planning), map[], PlanReady);
    ops := ops + [Advance("t", PlanReady)];
  }

  lemma ReachAdmitted(c: Settings, request: Request) returns (ops: seq<Op>, f: TaskFile)
    ensures Shows(c, ops, f, map[0 := Flight("t", request, 0)])
    ensures f == PLANNED.(state := Running, decisions := [{}], auths := [BareAuth(c)])
  {
    ops := ReachReady(c);
    GrantOn(c, ops, PLANNED.(state := Ready), map[]);
    ops, f := ops + [BARE_GRANT], PLANNED.(state := Running, decisions := [{}], auths := [BareAuth(c)]);
    assert PLANNED.decisions + [{}] == [{}] && PLANNED.auths + [BareAuth(c)] == [BareAuth(c)];
    AdmitOn(c, ops, f, request);
    ops := ops + [Admit(0, "t", Running, request, {}, 0)];
  }

  lemma BackToReady(c: Settings, ops: seq<Op>, f: TaskFile, flights: map<nat, Flight>) returns (more: seq<Op>)
    requires Shows(c, ops, f, flights) && f.state == Running
    ensures Shows(c, more, f.(state := Ready), flights)
  {
    MoveOn(c, ops, f, flights, ExecutionUnknown);
    more := ops + [Advance("t", ExecutionUnknown)];
    MoveOn(c, more, f.(state := Blocked), flights, Unblock);
    more := more + [Advance("t", Unblock)];
  }

  lemma ReachOvertaken(c: Settings, request: Request) returns (ops: seq<Op>, f: TaskFile)
    ensures Shows(c, ops, f, map[0 := Flight("t", request, 0)]) && f.state == Running && f.records == []
    ensures f.auths == [BareAuth(c), BareAuth(c)]
  {
    ops, f := ReachAdmitted(c, request);
    var flights := map[0 := Flight("t", request, 0)];
    ops := BackToReady(c, ops, f, flights);
    GrantOn(c, ops, f.(state := Ready), flights);
    ops, f := ops + [BARE_GRANT], f.(state := Running, decisions := f.decisions + [{}], auths := f.auths + [BareAuth(c)]);
  }

  /** It does happen: an execution is admitted, the task is put back and granted again, and the first
      execution succeeds under the second authorization, which it uses up; the one it was checked
      against stays unused. */
  lemma OvertakingHappens(c: Settings, request: Request) returns (ops: seq<Op>, f: TaskFile)
    ensures Shows(c, ops, f, map[]) && f.records == [Record(request, ExecSucceeded, 0, 1)]
    ensures |f.auths| == 2 && !f.auths[0].used && f.auths[1].used
  {
    var g;
    ops, g := ReachOvertaken(c, request);
    ConcludeOn(c, ops, g, request);
    ops, f := ops + [Conclude(0, ExecSucceeded)], Recorded(g, request, 0, ExecSucceeded).(state := Verifying);
  }

  /** Attempts are numbered 1, 2, ... within the budget; no wait exceeds the cap; and the moves to
      RECOVERING, with those that processes in between their two commits still owe, are no more than
      the attempts. */
  lemma RecoveryStaysInBudget(c: Settings, s: System, id: string)
    requires Reachable(c, s) && id in s.store.tasks
    ensures
      var rows := s.store.tasks[id].recoveries;
      && (forall i :: 0 <= i < |rows| ==>
            rows[i].number == i + 1 && rows[i].delay <= c.retry.maxDelay
            && (c.retry.initialDelay >= 0.0 && c.retry.maxDelay >= 0.0 ==> rows[i].delay >= 0.0))
      && (rows != [] ==> |rows| <= c.retry.maxAttempts)
      && Count(TraceOf(s.store.audit, id), Retry) + s.due[id] <= |rows|
  {
    ReachableIsSound(c, s, id);
    if id in s.due { assert CoveredTask(s, id); }
  }

  /** So a task never waits longer in all than the cap for every attempt of the budget. */
  lemma WaitIsBounded(c: Settings, s: System, id: string)
    requires Reachable(c, s) && id in s.store.tasks
    requires c.retry.maxDelay >= 0.0 && c.retry.maxAttempts >= 0
    ensures WaitsAtMost(s.store.tasks[id].recoveries, c.retry.maxAttempts, c.retry.maxDelay)
  {
    RecoveryStaysInBudget(c, s, id);
    RowsWaitAtMost(s.store.tasks[id].recoveries, c.retry.maxAttempts, c.retry.maxDelay);
  }

  predicate WaitsAtMost(rows: seq<RecoveryRow>, budget: nat, cap: real) {
    Total(Delays(rows)) <= budget as real * cap
  }

  lemma RowsWaitAtMost(rows: seq<RecoveryRow>, budget: nat, cap: real)
    requires cap >= 0.0 && |rows| <= budget && forall i :: 0 <= i < |rows| ==> rows[i].delay <= cap
    ensures WaitsAtMost(rows, budget, cap)
  {
    TotalIsBounded(Delays(rows), cap, budget);
  }

  function Delays(rows: seq<RecoveryRow>): seq<real> {
    seq(|rows|, i requires 0 <= i < |rows| => rows[i].delay)
  }

  // ---- The trace of a task ----

  lemma {:induction false} TraceAlongRun(c: Settings, ops: seq<Op>)
    requires forall op :: op in ops ==> Plausible(op) && !op.CancelTask?
    ensures Traced(Run(c, EMPTY, ops).store)
  {
    if ops != [] {
      var init := ops[..|ops| - 1];
      TraceAlongRun(c, init);
      RunKeeps(c, EMPTY, init);
      StepTraces(c, Run(c, EMPTY, init), ops[|ops| - 1]);
    }
  }

  /** Without `cancel_task`, the audited moves of a task lead from CREATED to its stored state, and a
      completed task was last authorised, executed and verified, in that order. */
  lemma AuditTellsTheState(c: Settings, ops: seq<Op>, id: string)
    requires forall op :: op in ops ==> Plausible(op) && !op.CancelTask?
    requires id in Run(c, EMPTY, ops).store.tasks
    ensures
      var s := Run(c, EMPTY, ops).store;
      var trace := TraceOf(s.audit, id);
      && Fold(Created, trace) == Some(s.tasks[id].state)
      && (s.tasks[id].state == Completed ==>
            |trace| >= 3 && trace[|trace| - 3..] == [AuthorizeAndRun, ExecutionComplete, Verified])
  {
    TraceAlongRun(c, ops);
    var s := Run(c, EMPTY, ops).store;
    assert TracedTask(s, id);
    if s.tasks[id].state == Completed { CompletionIsEarned(TraceOf(s.audit, id)); }
  }

  /** `cancel_task` keeps the audit in step exactly when it does nothing. */
  lemma CancelTaskGoesUnaudited(s: Store, id: string)
    requires Traced(s) && id in s.tasks
    ensures Traced(CancelledIn(s, id)) <==> s.tasks[id].state in UNCANCELLABLE
  {
    var t := CancelledIn(s, id);
    assert t.audit == s.audit && TracedTask(s, id);
    assert Traced(t) ==> TracedTask(t, id);
  }

  /** A rejected move is on record when `advance` is called on its own, and lost with the transaction
      when it is the end of one. */
  lemma RejectionIsLostInside(before: Store, prepared: Store, id: string, event: Event)
    requires id in prepared.tasks && !CanMove(prepared, id, event)
    ensures Advanced(prepared, id, event) == Noted(prepared, id, Rejected(event))
    ensures Together(before, prepared, id, event) == before
  {}

  /** So none of the services that end in a move leaves a trace of a move that was not legal. */
  lemma RejectedGrantsLeaveNothing(
      c: Settings, s: Store, id: string, a: Approval, capabilities: set<string>, b: Binding, request: Request,
      checked: nat, outcome: ExecutionOutcome)
    requires id in s.tasks
    ensures s.tasks[id].state != Ready ==> Granted(c, s, id, a, capabilities, b) == s
    ensures s.tasks[id].state != Running ==> Concluded(s, id, request, checked, outcome) == s
  {}

  lemma RejectedVerdictsLeaveNothing(
      c: Settings, s: Store, id: string, seen: TaskState, verified: bool, more: bool, now: int, restored: bool)
    requires id in s.tasks
    ensures s.tasks[id].state != Verifying ==> VerifiedIn(s, id, seen, verified, more) == s
    ensures s.tasks[id].state != Recovering ==> RecoveryResolved(c, s, id, seen, now, restored) == s
  {}

  /** The recovery service's request for a security halt is never granted: from FAILED the table
      has no such move. Whenever the guards let it through it is rejected on record, and the task
      stays FAILED. */
  lemma HaltFromFailedIsRejected(c: Settings, s: Store, id: string, factor: real, now: int, crashes: bool)
    ensures RecoveryBegun(c, s, id, HaltStrategy, factor, now, crashes) ==
      if id in s.tasks && s.tasks[id].state == Failed && s.tasks[id].records != []
        && MayRecover(c, s.tasks[id], RetryOperation, now, |s.tasks[id].recoveries|)
        && CanRetry(c.retry, |s.tasks[id].recoveries|)
      then Noted(s, id, Rejected(SecurityHalt)) else s
  {}

  /** One call of `begin_recovery` that lives is its two steps, one after the other; one that dies
      between them, or is refused, is the first alone. */
  lemma BeginRecoveryIsTwoSteps(
      c: Settings, s: System, id: string, strategy: Strategy, factor: real, now: int)
    ensures
      var attempted := Next(c, s, AttemptRecovery(id, strategy, factor, now));
      && attempted.store == RecoveryBegun(c, s.store, id, strategy, factor, now, true)
      && RecoveryBegun(c, s.store, id, strategy, factor, now, false) ==
         if attempted.due == s.due then attempted.store else Next(c, attempted, MoveToRecovering(id)).store
  {
    var due := s.due + multiset{id};
    assert due[id] == s.due[id] + 1;
  }
}
