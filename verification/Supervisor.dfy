/** The single entry for privileged work: a write-ahead protocol of at most four commits around
    one adapter call, and the sweep that settles what a crash left behind. */
module Supervisor {
  import opened Wrappers
  import opened AppContracts
  import opened AppTables
  import opened Reconcile
  import opened Transactions
  import opened VerifyEngine

  datatype Adapter = Adapter(name: string, supports: Contract -> bool)

  /** How an invocation ends; `Killed` is the process dying inside the adapter. */
  datatype Reply = Returned(result: AdapterResult) | RaisedNoEffect(exceptionType: string)
    | RaisedOther(exceptionType: string) | Killed

  /** What the outside answers in the course of one execution. */
  datatype Surroundings = Surroundings(
    expired: bool, identityHolds: bool, identityStillHolds: bool, reply: Reply)

  /** The verification policy and the evidence kind of every operation. */
  datatype Rules = Rules(policies: string -> Policy, kinds: string -> string)

  datatype Ids = Ids(receipt: string, attempt: string)

  datatype Refusal = InvalidContract | NoAdapter | KeyTaken

  datatype Ending = Refused(why: Refusal) | IdentityMismatch | Abandoned | Died | Finished(outcome: AppOutcome)

  /** An invocation as the outside saw it: for which receipt, and what was durable at that moment. */
  datatype Call = Call(receiptId: string, durable: AppDb)

  const EFFECT_FREE := {"filesystem.read", "filesystem.inspect", "application.inspect"}

  predicate Complete(c: Contract) {
    c.contractId != "" && c.authorizationId != "" && c.capability != "" && c.operation != "" && c.target != ""
  }

  function FirstSupporting(adapters: seq<Adapter>, c: Contract, name: Option<string>): Option<Adapter> {
    if adapters == [] then None
    else if adapters[0].supports(c) && (name.None? || adapters[0].name == name.value) then Some(adapters[0])
    else FirstSupporting(adapters[1..], c, name)
  }

  /** The preferred backend when it is registered and supports the contract, else the first that does. */
  function Selected(adapters: seq<Adapter>, c: Contract): Option<Adapter> {
    var preferred := Get(c.metadata, "execution_backend");
    var byName := if preferred.JStr? then FirstSupporting(adapters, c, Some(preferred.s)) else None;
    if byName.Some? then byName else FirstSupporting(adapters, c, None)
  }

  function ExceptionEvidence(ids: Ids, adapter: string, effectPossible: bool, exceptionType: string): Payload {
    map["receipt_id" := JStr(ids.receipt), "attempt_id" := JStr(ids.attempt), "adapter" := JStr(adapter),
        "side_effect_possible" := JBool(effectPossible), "exception_type" := JStr(exceptionType)]
  }

  /** An exception proves that nothing happened only by its type or by the operation. */
  function ResultOf(c: Contract, ids: Ids, adapter: string, reply: Reply): AdapterResult
    requires !reply.Killed?
  {
    match reply
    case Returned(result) => result
    case RaisedNoEffect(e) => AdapterResult(Failed, ExceptionEvidence(ids, adapter, false, e))
    case RaisedOther(e) =>
      var effectFree := c.operation in EFFECT_FREE;
      AdapterResult(if effectFree then Failed else Unknown, ExceptionEvidence(ids, adapter, !effectFree, e))
  }

  function Stamps(result: AdapterResult): Payload {
    map["outcome" := JStr(match result.outcome
      case Succeeded => "SUCCESS" case Failed => "FAILURE" case Unknown => "UNKNOWN" case Cancelled => "CANCELLED")]
  }

  function EvidenceFor(rules: Rules, c: Contract, result: AdapterResult): Evidence {
    EvidenceFromAdapter(rules.kinds(c.operation), result, Stamps(result))
  }

  function FinalOutcome(rules: Rules, c: Contract, result: AdapterResult): AppOutcome {
    Verdict(rules.policies(c.operation), result.outcome, EvidenceFor(rules, c, result))
  }

  /** The checks that come before any identity is resolved. A key is refused in whatever state it is. */
  function Accepted(adapters: seq<Adapter>, db: AppDb, c: Contract, expired: bool): Result<Adapter, Refusal> {
    if !Complete(c) || expired then Failure(InvalidContract)
    else if Selected(adapters, c).None? then Failure(NoAdapter)
    else if c.idempotencyKey.Some? && c.idempotencyKey.value in db.keys then Failure(KeyTaken)
    else Success(Selected(adapters, c).value)
  }

  function EndingOnceAccepted(rules: Rules, c: Contract, ids: Ids, adapter: string, s: Surroundings): Ending {
    if !s.identityHolds then IdentityMismatch
    else if !s.identityStillHolds then Abandoned
    else if s.reply.Killed? then Died
    else Finished(FinalOutcome(rules, c, ResultOf(c, ids, adapter, s.reply)))
  }

  /** Where an execution ends, as a function of what it finds. */
  function EndingOf(
      adapters: seq<Adapter>, rules: Rules, db: AppDb, c: Contract, ids: Ids, s: Surroundings): Ending {
    match Accepted(adapters, db, c, s.expired)
    case Failure(why) => Refused(why)
    case Success(adapter) => EndingOnceAccepted(rules, c, ids, adapter.name, s)
  }

  /** The states an execution with a given ending makes durable, in order. A crash leaves one of them. */
  function CommitsOf(db: AppDb, c: Contract, ids: Ids, ending: Ending, evidence: Payload): seq<AppDb> {
    if ending.Refused? then []
    else
      (if c.idempotencyKey.Some? then [Reserved(db, c.idempotencyKey)] else [])
      + CommitsOnceReserved(Reserved(db, c.idempotencyKey), c, ids, ending, evidence)
  }

  function CommitsOnceReserved(db: AppDb, c: Contract, ids: Ids, ending: Ending, evidence: Payload): seq<AppDb> {
    var begun := Opened(db, c, ids.receipt, ids.attempt);
    var marked := Marked(begun, ids.receipt, ids.attempt);
    match ending
    case Abandoned => [begun]
    case Died => [begun, marked]
    case Finished(outcome) => [begun, marked, Finalized(marked, c, ids.receipt, ids.attempt, outcome, evidence)]
    case _ => []
  }

  function LastOf(db: AppDb, commits: seq<AppDb>): AppDb {
    if commits == [] then db else commits[|commits| - 1]
  }

  lemma CommitsCompose(before: seq<AppDb>, db: AppDb, c: Contract, ids: Ids, ending: Ending, evidence: Payload)
    requires !ending.Refused?
    ensures
      var reserved := Reserved(db, c.idempotencyKey);
      var reserving := if c.idempotencyKey.Some? then [reserved] else [];
      var rest := CommitsOnceReserved(reserved, c, ids, ending, evidence);
      && before + CommitsOf(db, c, ids, ending, evidence) == before + reserving + rest
      && LastOf(db, CommitsOf(db, c, ids, ending, evidence)) == LastOf(reserved, rest)
  {}

  /** What the outside saw of it: one call, after the second or third commit, or none. */
  function CallsOf(db: AppDb, c: Contract, ids: Ids, ending: Ending): seq<Call> {
    if ending.Died? || ending.Finished? then
      [Call(ids.receipt, Marked(Opened(db, c, ids.receipt, ids.attempt), ids.receipt, ids.attempt))]
    else []
  }

  class ExecutionSupervisor {
    var adapters: seq<Adapter>
    const rules: Rules
    const reconcilers: seq<Reconciler>
    const uow: UnitOfWork<AppDb>
    ghost var calls: seq<Call>

    constructor (adapters: seq<Adapter>, rules: Rules, reconcilers: seq<Reconciler>, uow: UnitOfWork<AppDb>)
      ensures this.adapters == adapters && this.rules == rules && this.reconcilers == reconcilers
      ensures this.uow == uow && calls == []
    {
      this.adapters, this.rules, this.reconcilers, this.uow, this.calls := adapters, rules, reconcilers, uow, [];
    }

    /** Replaces the adapter of that name in its place, or registers a new one last. */
    method EnsureAdapter(adapter: Adapter)
      modifies this`adapters
      ensures old(forall i :: 0 <= i < |adapters| ==> adapters[i].name != adapter.name) ==>
        adapters == old(adapters) + [adapter]
      ensures forall i :: 0 <= i < |old(adapters)| ==>
        old(adapters)[i].name == adapter.name ==>
        (forall j :: 0 <= j < i ==> old(adapters)[j].name != adapter.name) ==>
        adapters == old(adapters)[i := adapter]
    {
      for i := 0 to |adapters|
        invariant adapters == old(adapters)
        invariant forall j :: 0 <= j < i ==> adapters[j].name != adapter.name
      {
        if adapters[i].name == adapter.name {
          adapters := adapters[i := adapter];
          return;
        }
      }
      adapters := adapters + [adapter];
    }

    method SelectAdapter(c: Contract) returns (adapter: Option<Adapter>)
      ensures adapter == Selected(adapters, c)
    {
      var preferred := Get(c.metadata, "execution_backend");
      if preferred.JStr? {
        for i := 0 to |adapters|
          invariant FirstSupporting(adapters, c, Some(preferred.s)) == FirstSupporting(adapters[i..], c, Some(preferred.s))
        {
          if adapters[i].name == preferred.s && adapters[i].supports(c) { return Some(adapters[i]); }
        }
      }
      for i := 0 to |adapters|
        invariant FirstSupporting(adapters, c, None) == FirstSupporting(adapters[i..], c, None)
      {
        if adapters[i].supports(c) { return Some(adapters[i]); }
      }
      return None;
    }

    /** The lookup refuses three of the six key states; the unique key refuses the others. */
    method ReserveIdempotency(key: string) returns (ok: bool)
      requires uow.depth == 0 && uow.working == uow.durable
      modifies uow
      ensures ok <==> key !in old(uow.durable).keys
      ensures ok ==> uow.durable == Reserved(old(uow.durable), Some(key)) && uow.commits == old(uow.commits) + [uow.durable]
      ensures !ok ==> uow.durable == old(uow.durable) && uow.commits == old(uow.commits)
      ensures uow.depth == 0 && uow.working == uow.durable
    {
      if key in uow.working.keys && uow.working.keys[key].state in {KeyCompleted, InProgress, Conflict} {
        return false;
      }
      uow.Enter();
      if key in uow.working.keys {
        uow.Exit(false);
        return false;
      }
      uow.Write(uow.working.SaveKey(key, KeyRow(None, InProgress, None)));
      uow.Exit(true);
      return true;
    }

    method Accept(c: Contract, expired: bool) returns (adapter: Result<Adapter, Refusal>)
      requires uow.depth == 0 && uow.working == uow.durable
      modifies uow
      ensures uow.depth == 0 && uow.working == uow.durable
      ensures adapter == Accepted(adapters, old(uow.durable), c, expired)
      ensures uow.durable == if adapter.Success? then Reserved(old(uow.durable), c.idempotencyKey) else old(uow.durable)
      ensures uow.commits == old(uow.commits)
        + if adapter.Success? && c.idempotencyKey.Some? then [uow.durable] else []
    {
      if !Complete(c) || expired { return Failure(InvalidContract); }
      var selected := SelectAdapter(c);
      if selected.None? { return Failure(NoAdapter); }
      if c.idempotencyKey.Some? {
        var ok := ReserveIdempotency(c.idempotencyKey.value);
        if !ok { return Failure(KeyTaken); }
      }
      return Success(selected.value);
    }

    /** Runs a contract; `ids` are what the id generator yields. */
    method Execute(c: Contract, ids: Ids, s: Surroundings) returns (ending: Ending, ghost evidence: Payload)
      requires uow.depth == 0 && uow.working == uow.durable
      modifies uow, this`calls
      ensures uow.depth == 0 && uow.working == uow.durable
      ensures ending == EndingOf(adapters, rules, old(uow.durable), c, ids, s)
      ensures ending.Finished? ==>
        evidence == ResultOf(c, ids, Selected(adapters, c).value.name, s.reply).evidence
      ensures uow.commits == old(uow.commits) + CommitsOf(old(uow.durable), c, ids, ending, evidence)
      ensures uow.durable == LastOf(old(uow.durable), CommitsOf(old(uow.durable), c, ids, ending, evidence))
      ensures calls == old(calls) + CallsOf(Reserved(old(uow.durable), c.idempotencyKey), c, ids, ending)
    {
      evidence := map[];
      var adapter := Accept(c, s.expired);
      if adapter.Failure? { return Refused(adapter.error), evidence; }
      ending, evidence := Proceed(c, ids, adapter.value.name, s);
      CommitsCompose(old(uow.commits), old(uow.durable), c, ids, ending, evidence);
    }

    /** Everything after the reservation. */
    method Proceed(c: Contract, ids: Ids, adapter: string, s: Surroundings)
      returns (ending: Ending, ghost evidence: Payload)
      requires uow.depth == 0 && uow.working == uow.durable
      modifies uow, this`calls
      ensures uow.depth == 0 && uow.working == uow.durable
      ensures ending == EndingOnceAccepted(rules, c, ids, adapter, s)
      ensures ending.Finished? ==> evidence == ResultOf(c, ids, adapter, s.reply).evidence
      ensures
        var commits := CommitsOnceReserved(old(uow.durable), c, ids, ending, evidence);
        && uow.commits == old(uow.commits) + commits && uow.durable == LastOf(old(uow.durable), commits)
      ensures calls == old(calls) + CallsOf(old(uow.durable), c, ids, ending)
    {
      evidence := map[];
      if !s.identityHolds { return IdentityMismatch, evidence; }
      Open(c, ids);
      assert ids.receipt in uow.working.receipts;
      if !s.identityStillHolds { return Abandoned, evidence; }
      ending, evidence := Invoke(c, ids, adapter, s.reply);
    }

    /** Makes the attempt durably INVOKED, and only then calls the adapter. */
    method Invoke(c: Contract, ids: Ids, adapter: string, reply: Reply)
      returns (ending: Ending, ghost evidence: Payload)
      requires uow.depth == 0 && uow.working == uow.durable
      modifies uow, this`calls
      ensures uow.depth == 0 && uow.working == uow.durable
      ensures
        var marked := Marked(old(uow.durable), ids.receipt, ids.attempt);
        && calls == old(calls) + [Call(ids.receipt, marked)]
        && (reply.Killed? ==> ending == Died && uow.durable == marked && uow.commits == old(uow.commits) + [marked])
        && (!reply.Killed? ==>
              var result := ResultOf(c, ids, adapter, reply);
              && ending == Finished(FinalOutcome(rules, c, result)) && evidence == result.evidence
              && uow.durable == Finalized(marked, c, ids.receipt, ids.attempt, ending.outcome, evidence)
              && uow.commits == old(uow.commits) + [marked, uow.durable])
    {
      evidence := map[];
      uow.Enter();
      uow.Write(uow.working.SaveAttempt(NewAttempt(ids.receipt, ids.attempt).(state := Invoked)));
      uow.Exit(true);
      calls := calls + [Call(ids.receipt, uow.durable)];
      if reply.Killed? { return Died, evidence; }
      var result := ResultOf(c, ids, adapter, reply);
      var verification := EvaluateVerification(rules.policies(c.operation), result.outcome, EvidenceFor(rules, c, result));
      evidence := result.evidence;
      Finish(c, ids, verification.result, result.evidence);
      ending := Finished(verification.result);
    }

    method Open(c: Contract, ids: Ids)
      requires uow.depth == 0 && uow.working == uow.durable
      modifies uow
      ensures uow.depth == 0 && uow.working == uow.durable && uow.commits == old(uow.commits) + [uow.durable]
      ensures uow.durable == Opened(old(uow.durable), c, ids.receipt, ids.attempt)
      ensures ids.receipt in uow.durable.receipts
    {
      var receipt := NewReceipt(c, ids.receipt);
      uow.Enter();
      uow.Write(uow.working.SaveReceipt(receipt));
      receipt := receipt.(state := Attempting);
      uow.Write(uow.working.SaveReceipt(receipt));
      uow.Write(uow.working.SaveAttempt(NewAttempt(ids.receipt, ids.attempt)));
      if c.idempotencyKey.Some? {
        uow.Write(Bound(uow.working, c.idempotencyKey.value, ids.receipt));
      }
      uow.Exit(true);
    }

    method Finish(c: Contract, ids: Ids, outcome: AppOutcome, evidence: Payload)
      requires uow.depth == 0 && uow.working == uow.durable
      modifies uow
      ensures uow.depth == 0 && uow.working == uow.durable && uow.commits == old(uow.commits) + [uow.durable]
      ensures uow.durable == Finalized(old(uow.durable), c, ids.receipt, ids.attempt, outcome, evidence)
    {
      uow.Enter();
      uow.Write(uow.working.SaveAttempt(
        Attempt(ids.attempt, ids.receipt, 1, AttemptFinalized, Some(outcome), evidence)));
      uow.Write(uow.working.SaveReceipt(
        NewReceipt(c, ids.receipt).(state := ReceiptFinalized, outcome := Some(outcome))));
      uow.Write(uow.working.(verifications :=
        uow.working.verifications + [AppVerification(ids.receipt, ids.attempt, outcome)]));
      if c.idempotencyKey.Some? {
        uow.Write(uow.working.SaveKey(c.idempotencyKey.value,
          KeyRow(Some(ids.receipt), KeyStateFor(outcome), Some(outcome))));
      }
      uow.Exit(true);
    }

    /** Settles one receipt from what the outside shows. It holds no adapter and calls none: it may
        write nothing but the database. */
    method ReconcileReceipt(receiptId: string, world: World) returns (known: bool)
      requires uow.depth == 0 && uow.working == uow.durable
      modifies uow
      ensures uow.depth == 0 && uow.working == uow.durable
      ensures known <==> receiptId in old(uow.durable).receipts
      ensures uow.durable == if known then Reconciled(old(uow.durable), reconcilers, world, receiptId) else old(uow.durable)
      ensures uow.commits == old(uow.commits) || uow.commits == old(uow.commits) + [uow.durable]
    {
      if receiptId !in uow.working.receipts { return false; }
      var receipt, attempt := uow.working.receipts[receiptId], uow.working.LatestAttempt(receiptId);
      var reason := ClassifyStuckAttempt(receipt, attempt);
      if reason.None? { return true; }
      var o := Observe(reconcilers, world, receipt, attempt, reason.value);
      if attempt.Some? && attempt.value.state != AttemptFinalized {
        attempt := Some(attempt.value.(
          state := AttemptFinalized, outcome := Some(o.outcome), evidence := MergedEvidence(attempt.value, o)));
      }
      receipt := receipt.(state := ReceiptFinalized, outcome := Some(o.outcome));
      var incident := Incident(receipt.id, if attempt.Some? then Some(attempt.value.id) else None,
        o.outcome == Unknown, reason.value);
      uow.Enter();
      if attempt.Some? { uow.Write(uow.working.SaveAttempt(attempt.value)); }
      uow.Write(uow.working.SaveReceipt(receipt));
      uow.Write(uow.working.(incidents := uow.working.incidents + [incident]));
      uow.Exit(true);
      return true;
    }

    /** The startup sweep, one commit for each unfinished receipt. */
    method ReconcileStuck(worlds: nat -> World)
      requires uow.depth == 0 && uow.working == uow.durable
      requires forall id :: id in uow.durable.receiptOrder ==> id in uow.durable.receipts
      modifies uow
      ensures uow.depth == 0 && uow.working == uow.durable
      ensures uow.durable == Swept(old(uow.durable), reconcilers, worlds, old(uow.durable).ListUnfinalized())
      ensures SoundDb(old(uow.durable)) ==> SoundDb(uow.durable) && uow.durable.ListUnfinalized() == []
    {
      ghost var start := uow.durable;
      var ids := uow.working.ListUnfinalized();
      for i := 0 to |ids|
        invariant uow.depth == 0 && uow.working == uow.durable
        invariant uow.durable == Swept(start, reconcilers, worlds, ids[..i])
      {
        var known := ReconcileReceipt(ids[i], worlds(i));
        assert ids[..i + 1][..i] == ids[..i];
      }
      assert ids[..|ids|] == ids;
      if SoundDb(start) { SweepSettlesEverything(start, reconcilers, worlds); }
    }
  }
}
