/** Deciding what a crashed execution did by looking at the outside world, never by acting on it. */
module Reconcile {
  import opened Wrappers
  import opened AppContracts

  datatype StuckReason = ReceiptWithoutAttempt | AttemptInvokedNotFinalized | AttemptCreatedNotInvoked
    | ReceiptAttempting

  function ClassifyStuckAttempt(receipt: Receipt, attempt: Option<Attempt>): Option<StuckReason> {
    if receipt.state == ReceiptFinalized then None
    else if attempt.None? then Some(ReceiptWithoutAttempt)
    else if attempt.value.state == Invoked then Some(AttemptInvokedNotFinalized)
    else if attempt.value.state == AttemptCreated && receipt.state == Attempting then
      Some(AttemptCreatedNotInvoked)
    else if receipt.state == Attempting then Some(ReceiptAttempting)
    else None
  }

  /** What can be probed: which paths exist and are files, which processes live, and how `int`
      reads a string. */
  datatype World = World(existing: set<string>, files: set<string>, alive: set<int>, numerals: map<string, int>)

  datatype Observation = Observation(outcome: AppOutcome, evidence: Payload, sideEffectDetected: bool)

  datatype Reconciler = Filesystem | Process | Network | Application | DefaultReconciler

  predicate StartsWith(s: string, prefix: string) {
    prefix <= s
  }

  predicate OccursAt(s: string, sub: string, i: nat) {
    i + |sub| <= |s| && s[i..i + |sub|] == sub
  }

  predicate Contains(s: string, sub: string) {
    exists i :: 0 <= i <= |s| && OccursAt(s, sub, i)
  }

  predicate Supports(r: Reconciler, receipt: Receipt) {
    match r
    case Filesystem => StartsWith(receipt.operation, "filesystem.") || StartsWith(receipt.capability, "filesystem.")
    case Process => StartsWith(receipt.operation, "process.") || StartsWith(receipt.capability, "process.")
    case Network =>
      || StartsWith(receipt.operation, "network.") || StartsWith(receipt.operation, "http.")
      || StartsWith(receipt.operation, "browser.") || StartsWith(receipt.capability, "network.")
    case Application => StartsWith(receipt.operation, "application.") || StartsWith(receipt.operation, "app.")
    case DefaultReconciler => true
  }

  /** An invocation whose end was lost may have happened; anything else is known not to have. */
  function Fallback(reason: StuckReason): AppOutcome {
    if reason == AttemptInvokedNotFinalized then Unknown else Failed
  }

  function EvidenceOf(attempt: Option<Attempt>): Payload {
    if attempt.Some? then attempt.value.evidence else map[]
  }

  function PathIn(source: Payload): Option<string> {
    var raw := if Get(source, "path").Truthy() then Get(source, "path") else Get(source, "target_path");
    if raw.JStr? && raw.s != "" then Some(raw.s) else None
  }

  function PathFrom(receipt: Receipt, attempt: Option<Attempt>): Option<string> {
    if PathIn(EvidenceOf(attempt)).Some? then PathIn(EvidenceOf(attempt))
    else if PathIn(receipt.metadata).Some? then PathIn(receipt.metadata)
    else
      var args := Get(receipt.metadata, "arguments");
      if args.JObject? && Get(args.fields, "path").JStr? && Get(args.fields, "path").s != "" then
        Some(Get(args.fields, "path").s)
      else None
  }

  predicate IsWrite(op: string) { Contains(op, "write") || Contains(op, "create") }

  predicate IsDelete(op: string) { Contains(op, "delete") || Contains(op, "unlink") }

  function Probe(path: string, isThere: bool): Payload {
    map["path" := JStr(path), "exists" := JBool(isThere)]
  }

  function ObserveFilesystem(world: World, receipt: Receipt, attempt: Option<Attempt>, reason: StuckReason): Observation {
    match PathFrom(receipt, attempt)
    case None => Observation(Unknown, map[], false)
    case Some(path) =>
      var isThere := path in world.existing;
      if IsWrite(receipt.operation) then
        if isThere && path in world.files then Observation(Succeeded, Probe(path, true), true)
        else Observation(Fallback(reason), Probe(path, false), false)
      else if IsDelete(receipt.operation) then
        if !isThere then Observation(Succeeded, Probe(path, false), true)
        else Observation(Fallback(reason), Probe(path, true), false)
      else if Contains(receipt.operation, "read") then
        Observation(Fallback(reason),
          if reason == AttemptInvokedNotFinalized then Probe(path, isThere) else map["path" := JStr(path)], false)
      else Observation(Unknown, map["path" := JStr(path)], false)
  }

  /** `int(raw)` of a value that is not None. */
  function ParsePid(world: World, raw: Json): Option<int> {
    match raw
    case JInt(n) => Some(n)
    case JBool(b) => Some(if b then 1 else 0)
    case JStr(s) => if s in world.numerals then Some(world.numerals[s]) else None
    case _ => None
  }

  predicate PidAlive(world: World, pid: int) { pid > 0 && pid in world.alive }

  function RawPid(receipt: Receipt, attempt: Option<Attempt>): Json {
    if Get(EvidenceOf(attempt), "pid").Truthy() then Get(EvidenceOf(attempt), "pid") else Get(receipt.metadata, "pid")
  }

  predicate IsTermination(op: string) { Contains(op, "terminate") || Contains(op, "kill") }

  function ObserveProcess(world: World, receipt: Receipt, attempt: Option<Attempt>, reason: StuckReason): Observation {
    var raw := RawPid(receipt, attempt);
    if raw == JNull then Observation(Fallback(reason), map[], false)
    else match ParsePid(world, raw)
    case None => Observation(Unknown, map[], false)
    case Some(pid) =>
      var alive := PidAlive(world, pid);
      var evidence := map["pid" := JInt(pid), "alive" := JBool(alive)];
      if alive != IsTermination(receipt.operation) then Observation(Succeeded, evidence, true)
      else Observation(Fallback(reason), evidence, false)
  }

  function ObserveNetwork(attempt: Option<Attempt>, reason: StuckReason): Observation {
    var evidence := EvidenceOf(attempt);
    if "status_code" in evidence || Get(evidence, "postcondition") == JStr("response_received") then
      Observation(Succeeded, evidence, true)
    else Observation(Fallback(reason), evidence, false)
  }

  function ObserveApplication(attempt: Option<Attempt>, reason: StuckReason): Observation {
    var evidence := EvidenceOf(attempt);
    if Get(evidence, "launched") == JBool(true) || Get(evidence, "terminated") == JBool(true) then
      Observation(Succeeded, evidence, true)
    else Observation(Fallback(reason), evidence, false)
  }

  function ObserveWith(r: Reconciler, world: World, receipt: Receipt, attempt: Option<Attempt>, reason: StuckReason): Observation {
    match r
    case Filesystem => ObserveFilesystem(world, receipt, attempt, reason)
    case Process => ObserveProcess(world, receipt, attempt, reason)
    case Network => ObserveNetwork(attempt, reason)
    case Application => ObserveApplication(attempt, reason)
    case DefaultReconciler => Observation(Fallback(reason), map[], false)
  }

  function Select(reconcilers: seq<Reconciler>, receipt: Receipt): Reconciler {
    if reconcilers == [] then DefaultReconciler
    else if Supports(reconcilers[0], receipt) then reconcilers[0]
    else Select(reconcilers[1..], receipt)
  }

  function Observe(reconcilers: seq<Reconciler>, world: World, receipt: Receipt, attempt: Option<Attempt>, reason: StuckReason): Observation {
    ObserveWith(Select(reconcilers, receipt), world, receipt, attempt, reason)
  }

  const DEFAULTS := [Filesystem, Process, Network, Application]

  /** Whatever reconcilers are registered in whatever order, an invocation whose end was lost is
      never reported as a failure. */
  lemma LostInvocationIsNeverAFailure(
      reconcilers: seq<Reconciler>, world: World, receipt: Receipt, attempt: Option<Attempt>)
    ensures Observe(reconcilers, world, receipt, attempt, AttemptInvokedNotFinalized).outcome in {Succeeded, Unknown}
  {
    var r := Select(reconcilers, receipt);
    match r
    case Filesystem =>
    case Process =>
    case Network =>
    case Application =>
    case DefaultReconciler =>
  }

  lemma {:induction false} SelectSupports(reconcilers: seq<Reconciler>, receipt: Receipt)
    ensures Supports(Select(reconcilers, receipt), receipt)
  {
    if reconcilers != [] { SelectSupports(reconcilers[1..], receipt); }
  }

  /** The outside already looks as if the operation had run. */
  predicate LooksDone(world: World, receipt: Receipt) {
    match Select(DEFAULTS, receipt)
    case Filesystem =>
      var path := PathFrom(receipt, None);
      path.Some?
      && (if IsWrite(receipt.operation) then path.value in world.existing && path.value in world.files
          else IsDelete(receipt.operation) && path.value !in world.existing)
    case Process =>
      var pid := ParsePid(world, RawPid(receipt, None));
      pid.Some? && PidAlive(world, pid.value) != IsTermination(receipt.operation)
    case _ => false
  }

  /** A crash before the invocation: nothing ran, yet the sweep reports success exactly when the
      outside happens to look done already. */
  lemma UninvokedReportedSucceeded(world: World, receipt: Receipt, attempt: Attempt)
    requires attempt.evidence == map[]
    ensures Observe(DEFAULTS, world, receipt, Some(attempt), AttemptCreatedNotInvoked).outcome == Succeeded
      <==> LooksDone(world, receipt)
  {
    assert EvidenceOf(Some(attempt)) == EvidenceOf(None);
    assert PathFrom(receipt, Some(attempt)) == PathFrom(receipt, None);
    assert RawPid(receipt, Some(attempt)) == RawPid(receipt, None);
    SelectSupports(DEFAULTS, receipt);
  }

  /** Such an input exists: a write that never started, to a file that was there before. */
  lemma PhantomSuccess() returns (world: World, receipt: Receipt, attempt: Attempt)
    ensures attempt.state == AttemptCreated && attempt.evidence == map[]
    ensures ClassifyStuckAttempt(receipt, Some(attempt)) == Some(AttemptCreatedNotInvoked)
    ensures Observe(DEFAULTS, world, receipt, Some(attempt), AttemptCreatedNotInvoked).outcome == Succeeded
  {
    world := World({"f"}, {"f"}, {}, map[]);
    receipt := Receipt("r", "c", "a", "filesystem.write", "filesystem.write", "f", Attempting, None,
      map["path" := JStr("f")]);
    attempt := Attempt("t", "r", 1, AttemptCreated, None, map[]);
    assert OccursAt(receipt.operation, "write", 11);
    assert PathIn(map[]) == None && PathIn(receipt.metadata) == Some("f");
    assert Supports(Filesystem, receipt);
  }
}
