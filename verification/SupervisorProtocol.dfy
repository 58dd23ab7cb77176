/** Any number of executions at once, with a crash, an exception or the settling of a stuck receipt
    possible between any two commits. */
module SupervisorProtocol {
  import opened Wrappers
  import opened AppContracts
  import opened AppTables
  import opened Reconcile
  import opened Supervisor

  /** How far an execution has come; `Replied` is the invocation done and not yet finalised. */
  datatype Phase = Started | Keyed | Begun | Marking | Replied(adapter: string, reply: Reply)

  datatype Flight = Flight(c: Contract, ids: Ids, phase: Phase)

  /** An adapter invocation, with the reply it is going to give. */
  datatype Invocation = Invocation(c: Contract, ids: Ids, adapter: string, reply: Reply)

  datatype System = System(db: AppDb, flights: map<nat, Flight>, calls: seq<Invocation>)

  datatype Step =
    | Start(p: nat, c: Contract, ids: Ids)
    | Reserve(p: nat)
    | Open(p: nat)
    | Mark(p: nat)
    | Invoke(p: nat, adapter: string, reply: Reply)
    | Finish(p: nat)
    | Abort(p: nat)
    | Crash
    | Settle(id: string, reconcilers: seq<Reconciler>, world: World)

  predicate At(s: System, p: nat, phase: Phase) {
    p in s.flights && s.flights[p].phase == phase
  }

  predicate FreshId(s: System, id: string) {
    && id !in s.db.receipts && id !in s.db.attempts
    && forall q :: q in s.flights ==> s.flights[q].ids.receipt != id
  }

  function Advanced(s: System, p: nat, phase: Phase): System
    requires p in s.flights
  {
    s.(flights := s.flights[p := s.flights[p].(phase := phase)])
  }

  function Outcome(rules: Rules, c: Contract, ids: Ids, adapter: string, reply: Reply): AppOutcome
    requires !reply.Killed?
  {
    FinalOutcome(rules, c, ResultOf(c, ids, adapter, reply))
  }

  /** A step that does not apply changes nothing. */
  function Next(rules: Rules, s: System, step: Step): System {
    match step
    case Start(p, c, ids) =>
      if p !in s.flights && FreshId(s, ids.receipt) then s.(flights := s.flights[p := Flight(c, ids, Started)]) else s
    case Reserve(p) =>
      if !At(s, p, Started) then s
      else
        var key := s.flights[p].c.idempotencyKey;
        if key.Some? && key.value in s.db.keys then s.(flights := s.flights - {p})
        else Advanced(s.(db := Reserved(s.db, key)), p, Keyed)
    case Open(p) =>
      if !At(s, p, Keyed) then s
      else
        var f := s.flights[p];
        Advanced(s.(db := Opened(s.db, f.c, f.ids.receipt, f.ids.attempt)), p, Begun)
    case Mark(p) =>
      if !At(s, p, Begun) then s
      else Advanced(s.(db := Marked(s.db, s.flights[p].ids.receipt, s.flights[p].ids.attempt)), p, Marking)
    case Invoke(p, adapter, reply) =>
      if !At(s, p, Marking) then s
      else
        var f := s.flights[p];
        Advanced(s.(calls := s.calls + [Invocation(f.c, f.ids, adapter, reply)]), p, Replied(adapter, reply))
    case Finish(p) =>
      if p in s.flights && s.flights[p].phase.Replied? && !s.flights[p].phase.reply.Killed? then
        var f := s.flights[p];
        var result := ResultOf(f.c, f.ids, f.phase.adapter, f.phase.reply);
        s.(db := Finalized(s.db, f.c, f.ids.receipt, f.ids.attempt, FinalOutcome(rules, f.c, result), result.evidence),
           flights := s.flights - {p})
      else s
    case Abort(p) => s.(flights := s.flights - {p})
    case Crash => s.(flights := map[])
    case Settle(id, reconcilers, world) =>
      if id in s.db.receipts then s.(db := Reconciled(s.db, reconcilers, world, id)) else s
  }

  function Run(rules: Rules, s: System, steps: seq<Step>): System {
    if steps == [] then s
    else Next(rules, Run(rules, s, steps[..|steps| - 1]), steps[|steps| - 1])
  }

  // ---- Who may share what ----

  predicate Holds(db: AppDb, key: Option<string>) {
    key.Some? ==> key.value in db.keys
  }

  /** From its opening commit on an execution's receipt is stored, from its reservation on its key. */
  predicate Backed(db: AppDb, f: Flight) {
    && (!f.phase.Started? ==> Holds(db, f.c.idempotencyKey))
    && (f.phase.Begun? || f.phase.Marking? || f.phase.Replied? ==> f.ids.receipt in db.receipts)
  }

  predicate BackedCall(db: AppDb, call: Invocation) {
    call.ids.receipt in db.receipts && Holds(db, call.c.idempotencyKey)
  }

  /** No other execution shares the receipt, nor, once reserved, the key. */
  predicate Apart(f: Flight, g: Flight) {
    && f.ids.receipt != g.ids.receipt
    && (!f.phase.Started? && !g.phase.Started? && f.c.idempotencyKey.Some? ==> f.c.idempotencyKey != g.c.idempotencyKey)
  }

  /** An execution that has not invoked yet shares neither receipt nor key with any invocation. */
  ghost predicate Uncalled(f: Flight, call: Invocation) {
    if f.phase.Replied? then
      f.ids.receipt == call.ids.receipt ==> f.c == call.c && f.ids == call.ids && f.phase == Replied(call.adapter, call.reply)
    else
      && f.ids.receipt != call.ids.receipt
      && (!f.phase.Started? && f.c.idempotencyKey.Some? ==> f.c.idempotencyKey != call.c.idempotencyKey)
  }

  predicate Distinct(a: Invocation, b: Invocation) {
    && a.ids.receipt != b.ids.receipt
    && (a.c.idempotencyKey.Some? ==> a.c.idempotencyKey != b.c.idempotencyKey)
  }

  ghost predicate Disjoint(s: System) {
    && (forall p {:trigger Backed(s.db, s.flights[p])} :: p in s.flights ==> Backed(s.db, s.flights[p]))
    && (forall p, q {:trigger Apart(s.flights[p], s.flights[q])} ::
          p in s.flights && q in s.flights && p != q ==> Apart(s.flights[p], s.flights[q]))
    && (forall i {:trigger BackedCall(s.db, s.calls[i])} :: 0 <= i < |s.calls| ==> BackedCall(s.db, s.calls[i]))
    && (forall p, i {:trigger Uncalled(s.flights[p], s.calls[i])} ::
          p in s.flights && 0 <= i < |s.calls| ==> Uncalled(s.flights[p], s.calls[i]))
    && (forall i, j {:trigger Distinct(s.calls[i], s.calls[j])} ::
          0 <= i < j < |s.calls| ==> Distinct(s.calls[i], s.calls[j]))
  }

  /** Receipts and keys are only ever added. */
  predicate Grown(before: AppDb, after: AppDb) {
    before.receipts.Keys <= after.receipts.Keys && before.keys.Keys <= after.keys.Keys
  }

  lemma OpenedGrows(db: AppDb, c: Contract, ids: Ids)
    ensures Grown(db, Opened(db, c, ids.receipt, ids.attempt))
  {}

  lemma MarkedGrows(db: AppDb, ids: Ids)
    ensures Grown(db, Marked(db, ids.receipt, ids.attempt))
  {}

  lemma FinalizedGrows(db: AppDb, c: Contract, ids: Ids, outcome: AppOutcome, evidence: Payload)
    ensures Grown(db, Finalized(db, c, ids.receipt, ids.attempt, outcome, evidence))
  {}

  lemma SettlingGrows(db: AppDb, reconcilers: seq<Reconciler>, world: World, id: string)
    requires id in db.receipts
    ensures Grown(db, Reconciled(db, reconcilers, world, id))
  {}

  lemma ReserveGrows(rules: Rules, s: System, p: nat)
    ensures Grown(s.db, Next(rules, s, Reserve(p)).db)
  {}

  lemma OpenGrows(rules: Rules, s: System, p: nat)
    ensures Grown(s.db, Next(rules, s, Open(p)).db)
  {
    if At(s, p, Keyed) { OpenedGrows(s.db, s.flights[p].c, s.flights[p].ids); }
  }

  lemma MarkGrows(rules: Rules, s: System, p: nat)
    ensures Grown(s.db, Next(rules, s, Mark(p)).db)
  {
    if At(s, p, Begun) { MarkedGrows(s.db, s.flights[p].ids); }
  }

  lemma FinishGrows(rules: Rules, s: System, p: nat)
    ensures Grown(s.db, Next(rules, s, Finish(p)).db)
  {
    if p in s.flights && s.flights[p].phase.Replied? && !s.flights[p].phase.reply.Killed? {
      var f := s.flights[p];
      var result := ResultOf(f.c, f.ids, f.phase.adapter, f.phase.reply);
      FinalizedGrows(s.db, f.c, f.ids, FinalOutcome(rules, f.c, result), result.evidence);
    }
  }

  lemma StepGrows(rules: Rules, s: System, step: Step)
    ensures Grown(s.db, Next(rules, s, step).db)
  {
    match step
    case Settle(id, reconcilers, world) => if id in s.db.receipts { SettlingGrows(s.db, reconcilers, world, id); }
    case Reserve(p) => ReserveGrows(rules, s, p);
    case Open(p) => OpenGrows(rules, s, p);
    case Mark(p) => MarkGrows(rules, s, p);
    case Finish(p) => FinishGrows(rules, s, p);
    case Start(_, _, _) =>
    case Invoke(_, _, _) =>
    case Abort(_) =>
    case Crash =>
  }

  /** Executions may leave and the tables may grow. */
  lemma LeavingKeepsDisjoint(s: System, t: System)
    requires Disjoint(s) && t.calls == s.calls && Grown(s.db, t.db)
    requires t.flights.Keys <= s.flights.Keys && forall p :: p in t.flights ==> t.flights[p] == s.flights[p]
    ensures Disjoint(t)
  {
    forall p | p in t.flights ensures Backed(t.db, t.flights[p]) { assert Backed(s.db, s.flights[p]); }
    forall p, q | p in t.flights && q in t.flights && p != q ensures Apart(t.flights[p], t.flights[q]) {
      assert Apart(s.flights[p], s.flights[q]);
    }
    forall i | 0 <= i < |t.calls| ensures BackedCall(t.db, t.calls[i]) { assert BackedCall(s.db, s.calls[i]); }
    forall p, i | p in t.flights && 0 <= i < |t.calls| ensures Uncalled(t.flights[p], t.calls[i]) {
      assert Uncalled(s.flights[p], s.calls[i]);
    }
    forall i, j | 0 <= i < j < |t.calls| ensures Distinct(t.calls[i], t.calls[j]) {
      assert Distinct(s.calls[i], s.calls[j]);
    }
  }

  /** One execution arrives or moves on. */
  lemma MovingKeepsDisjoint(s: System, t: System, p: nat, f: Flight)
    requires Disjoint(s) && t.calls == s.calls && Grown(s.db, t.db) && t.flights == s.flights[p := f]
    requires Backed(t.db, f)
    requires forall q :: q in s.flights && q != p ==> Apart(f, s.flights[q]) && Apart(s.flights[q], f)
    requires forall i :: 0 <= i < |s.calls| ==> Uncalled(f, s.calls[i])
    ensures Disjoint(t)
  {
    forall q | q in t.flights ensures Backed(t.db, t.flights[q]) {
      if q != p { assert Backed(s.db, s.flights[q]); }
    }
    forall q, r | q in t.flights && r in t.flights && q != r ensures Apart(t.flights[q], t.flights[r]) {
      if q != p && r != p { assert Apart(s.flights[q], s.flights[r]); }
    }
    forall i | 0 <= i < |t.calls| ensures BackedCall(t.db, t.calls[i]) { assert BackedCall(s.db, s.calls[i]); }
    forall q, i | q in t.flights && 0 <= i < |t.calls| ensures Uncalled(t.flights[q], t.calls[i]) {
      if q != p { assert Uncalled(s.flights[q], s.calls[i]); }
    }
    forall i, j | 0 <= i < j < |t.calls| ensures Distinct(t.calls[i], t.calls[j]) {
      assert Distinct(s.calls[i], s.calls[j]);
    }
  }

  lemma StartKeepsDisjoint(s: System, t: System, p: nat, c: Contract, ids: Ids)
    requires Disjoint(s) && p !in s.flights && FreshId(s, ids.receipt)
    requires t == s.(flights := s.flights[p := Flight(c, ids, Started)])
    ensures Disjoint(t)
  {
    forall i | 0 <= i < |s.calls| ensures Uncalled(Flight(c, ids, Started), s.calls[i]) {
      assert BackedCall(s.db, s.calls[i]);
    }
    MovingKeepsDisjoint(s, t, p, Flight(c, ids, Started));
  }

  /** A key is reserved only while no row holds it, so while no one else has it. */
  lemma ReserveKeepsDisjoint(s: System, t: System, p: nat)
    requires Disjoint(s) && At(s, p, Started)
    requires s.flights[p].c.idempotencyKey.Some? ==> s.flights[p].c.idempotencyKey.value !in s.db.keys
    requires t == Advanced(s.(db := Reserved(s.db, s.flights[p].c.idempotencyKey)), p, Keyed)
    ensures Disjoint(t)
  {
    var f := s.flights[p].(phase := Keyed);
    forall q | q in s.flights && q != p ensures Apart(f, s.flights[q]) && Apart(s.flights[q], f) {
      assert Apart(s.flights[p], s.flights[q]) && Backed(s.db, s.flights[q]);
    }
    forall i | 0 <= i < |s.calls| ensures Uncalled(f, s.calls[i]) {
      assert Uncalled(s.flights[p], s.calls[i]) && BackedCall(s.db, s.calls[i]);
    }
    MovingKeepsDisjoint(s, t, p, f);
  }

  lemma PhaseKeepsDisjoint(s: System, t: System, p: nat, phase: Phase)
    requires Disjoint(s) && p in s.flights && t.calls == s.calls && Grown(s.db, t.db)
    requires s.flights[p].phase in {Keyed, Begun} && phase in {Begun, Marking}
    requires t.flights == s.flights[p := s.flights[p].(phase := phase)] && s.flights[p].ids.receipt in t.db.receipts
    ensures Disjoint(t)
  {
    var f := s.flights[p].(phase := phase);
    assert Backed(s.db, s.flights[p]);
    forall q | q in s.flights && q != p ensures Apart(f, s.flights[q]) && Apart(s.flights[q], f) {
      assert Apart(s.flights[p], s.flights[q]) && Apart(s.flights[q], s.flights[p]);
    }
    forall i | 0 <= i < |s.calls| ensures Uncalled(f, s.calls[i]) {
      assert Uncalled(s.flights[p], s.calls[i]);
    }
    MovingKeepsDisjoint(s, t, p, f);
  }

  /** Before its own call an execution is apart from every call; afterwards from every other one. */
  lemma CallerStaysApart(f: Flight, g: Flight, own: Invocation, call: Invocation)
    requires f.phase.Marking? && own.c == f.c && own.ids == f.ids && g == f.(phase := Replied(own.adapter, own.reply))
    requires Uncalled(f, call)
    ensures Uncalled(g, call) && Distinct(call, own)
  {}

  lemma OthersStayApart(f: Flight, g: Flight, own: Invocation, other: Flight)
    requires f.phase.Marking? && own.c == f.c && own.ids == f.ids && g == f.(phase := Replied(own.adapter, own.reply))
    requires Apart(other, f) && Apart(f, other)
    ensures Apart(other, g) && Apart(g, other) && Uncalled(other, own)
  {}

  lemma InvokeKeepsDisjoint(s: System, t: System, p: nat, adapter: string, reply: Reply)
    requires Disjoint(s) && At(s, p, Marking)
    requires
      var f := s.flights[p];
      t == Advanced(s.(calls := s.calls + [Invocation(f.c, f.ids, adapter, reply)]), p, Replied(adapter, reply))
    ensures Disjoint(t)
  {
    var f := s.flights[p];
    var g := f.(phase := Replied(adapter, reply));
    var own := Invocation(f.c, f.ids, adapter, reply);
    assert Backed(s.db, f);
    forall q | q in t.flights && q != p ensures Backed(t.db, t.flights[q]) && Uncalled(t.flights[q], own)
      && Apart(g, t.flights[q]) && Apart(t.flights[q], g)
    {
      assert Backed(s.db, s.flights[q]) && Apart(s.flights[q], f) && Apart(f, s.flights[q]);
      OthersStayApart(f, g, own, s.flights[q]);
    }
    forall i | 0 <= i < |s.calls| ensures BackedCall(t.db, t.calls[i]) && Uncalled(g, t.calls[i]) && Distinct(t.calls[i], own) {
      assert BackedCall(s.db, s.calls[i]) && Uncalled(f, s.calls[i]);
      CallerStaysApart(f, g, own, s.calls[i]);
    }
    forall q, r | q in t.flights && r in t.flights && q != r ensures Apart(t.flights[q], t.flights[r]) {
      if q != p && r != p { assert Apart(s.flights[q], s.flights[r]); }
    }
    forall q, i | q in t.flights && 0 <= i < |t.calls| ensures Uncalled(t.flights[q], t.calls[i]) {
      if q != p && i < |s.calls| { assert Uncalled(s.flights[q], s.calls[i]); }
    }
    forall i, j | 0 <= i < j < |t.calls| ensures Distinct(t.calls[i], t.calls[j]) {
      if j < |s.calls| { assert Distinct(s.calls[i], s.calls[j]); }
    }
  }

  /** Every step whatever keeps executions and invocations apart: a sweep may run at any time. */
  lemma StepKeepsDisjoint(rules: Rules, s: System, step: Step)
    requires Disjoint(s)
    ensures Disjoint(Next(rules, s, step))
  {
    var t := Next(rules, s, step);
    StepGrows(rules, s, step);
    match step
    case Start(p, c, ids) => if p !in s.flights && FreshId(s, ids.receipt) { StartKeepsDisjoint(s, t, p, c, ids); }
    case Reserve(p) =>
      if At(s, p, Started) {
        var key := s.flights[p].c.idempotencyKey;
        if key.Some? && key.value in s.db.keys { LeavingKeepsDisjoint(s, t); } else { ReserveKeepsDisjoint(s, t, p); }
      }
    case Open(p) => if At(s, p, Keyed) { PhaseKeepsDisjoint(s, t, p, Begun); }
    case Mark(p) => if At(s, p, Begun) { assert Backed(s.db, s.flights[p]); PhaseKeepsDisjoint(s, t, p, Marking); }
    case Invoke(p, adapter, reply) => if At(s, p, Marking) { InvokeKeepsDisjoint(s, t, p, adapter, reply); }
    case Finish(p) => LeavingKeepsDisjoint(s, t);
    case Abort(p) => LeavingKeepsDisjoint(s, t);
    case Crash => LeavingKeepsDisjoint(s, t);
    case Settle(_, _, _) => LeavingKeepsDisjoint(s, t);
  }

  lemma {:induction false} RunKeepsDisjoint(rules: Rules, s: System, steps: seq<Step>)
    requires Disjoint(s)
    ensures Disjoint(Run(rules, s, steps))
  {
    if steps != [] {
      RunKeepsDisjoint(rules, s, steps[..|steps| - 1]);
      StepKeepsDisjoint(rules, Run(rules, s, steps[..|steps| - 1]), steps[|steps| - 1]);
    }
  }

  // ---- What the tables show ----

  /** What an execution in flight knows about its own rows. */
  ghost predicate SoundFlight(db: AppDb, f: Flight) {
    var id := f.ids.receipt;
    && (f.phase.Started? || f.phase.Keyed? ==> id !in db.receipts && id !in db.attempts)
    && (f.phase.Begun? ==>
          && id in db.receipts && id in db.attempts
          && db.receipts[id] == NewReceipt(f.c, id).(state := Attempting)
          && db.attempts[id] == [NewAttempt(id, f.ids.attempt)])
    && (f.phase.Marking? || f.phase.Replied? ==> Invocable(db, f))
  }

  /** From its INVOKED mark on: the one attempt is its own and past CREATED, and whoever settled the
      receipt did not call it a failure. */
  predicate Invocable(db: AppDb, f: Flight) {
    var id := f.ids.receipt;
    && id in db.receipts && id in db.attempts && |db.attempts[id]| == 1 && db.attempts[id][0].id == f.ids.attempt
    && db.attempts[id][0].state != AttemptCreated
    && db.receipts[id].outcome in {None, Some(Unknown), Some(Succeeded)}
  }

  /** An invocation left a durable mark before it happened; the receipt is open, or settled as the
      reply was verified, or settled by looking at the outside, which never says failure. */
  ghost predicate SoundCall(rules: Rules, db: AppDb, call: Invocation) {
    var id := call.ids.receipt;
    && id in db.receipts && id in db.attempts && |db.attempts[id]| == 1
    && db.attempts[id][0].state != AttemptCreated
    && (db.receipts[id].outcome in {None, Some(Unknown), Some(Succeeded)} || AsReplied(rules, db.receipts[id].outcome, call))
  }

  ghost predicate AsReplied(rules: Rules, outcome: Option<AppOutcome>, call: Invocation) {
    !call.reply.Killed? && outcome == Some(Outcome(rules, call.c, call.ids, call.adapter, call.reply))
  }

  ghost predicate Sound(rules: Rules, s: System) {
    && SoundDb(s.db)
    && (forall p {:trigger SoundFlight(s.db, s.flights[p])} :: p in s.flights ==> SoundFlight(s.db, s.flights[p]))
    && (forall i {:trigger SoundCall(rules, s.db, s.calls[i])} :: 0 <= i < |s.calls| ==> SoundCall(rules, s.db, s.calls[i]))
  }

  ghost predicate Inv(rules: Rules, s: System) {
    Disjoint(s) && Sound(rules, s)
  }

  /** A sweep settles no receipt that an execution has opened and not yet marked INVOKED. */
  predicate Gentle(s: System, step: Step) {
    step.Settle? ==> forall p :: p in s.flights && s.flights[p].ids.receipt == step.id ==> !s.flights[p].phase.Begun?
  }

  ghost predicate GentleRun(rules: Rules, s: System, steps: seq<Step>) {
    steps == [] || (
      GentleRun(rules, s, steps[..|steps| - 1]) && Gentle(Run(rules, s, steps[..|steps| - 1]), steps[|steps| - 1]))
  }

  /** A sweep settles no receipt of an execution in flight at all. */
  predicate Calm(s: System, step: Step) {
    step.Settle? ==> forall p :: p in s.flights ==> s.flights[p].ids.receipt != step.id
  }

  ghost predicate CalmRun(rules: Rules, s: System, steps: seq<Step>) {
    steps == [] || (
      CalmRun(rules, s, steps[..|steps| - 1]) && Calm(Run(rules, s, steps[..|steps| - 1]), steps[|steps| - 1]))
  }

  /** A commit that touches one receipt keeps what the others know. */
  lemma FlightKeeps(before: AppDb, after: AppDb, id: string, r: Receipt, a: Attempt, f: Flight)
    requires Touches(before, after, id, r, a) && SoundFlight(before, f) && f.ids.receipt != id
    ensures SoundFlight(after, f)
  {}

  lemma CallKeeps(rules: Rules, before: AppDb, after: AppDb, id: string, r: Receipt, a: Attempt, call: Invocation)
    requires Touches(before, after, id, r, a) && SoundCall(rules, before, call) && call.ids.receipt != id
    ensures SoundCall(rules, after, call)
  {}

  /** Nothing but keys and executions that have touched no row. */
  lemma QuietKeepsSound(rules: Rules, s: System, t: System)
    requires Sound(rules, s) && t.calls == s.calls
    requires t.db == s.db.(keys := t.db.keys)
    requires forall p :: p in t.flights ==> SoundFlight(t.db, t.flights[p])
    ensures Sound(rules, t)
  {
    forall id | id in t.db.receipts ensures SoundReceipt(t.db, id) { assert SoundReceipt(s.db, id); }
    forall i | 0 <= i < |t.calls| ensures SoundCall(rules, t.db, t.calls[i]) {
      assert SoundCall(rules, s.db, s.calls[i]);
    }
  }

  lemma QuietFlight(before: AppDb, after: AppDb, f: Flight)
    requires SoundFlight(before, f) && after == before.(keys := after.keys)
    ensures SoundFlight(after, f)
  {}

  lemma StartKeepsSound(rules: Rules, s: System, t: System, p: nat, c: Contract, ids: Ids)
    requires Sound(rules, s) && FreshId(s, ids.receipt) && t == s.(flights := s.flights[p := Flight(c, ids, Started)])
    ensures Sound(rules, t)
  {
    forall q | q in t.flights ensures SoundFlight(t.db, t.flights[q]) {
      if q != p { assert SoundFlight(s.db, s.flights[q]); }
    }
    QuietKeepsSound(rules, s, t);
  }

  lemma ReserveKeepsSound(rules: Rules, s: System, t: System, p: nat)
    requires Sound(rules, s) && At(s, p, Started)
    requires t == Advanced(s.(db := Reserved(s.db, s.flights[p].c.idempotencyKey)), p, Keyed)
    ensures Sound(rules, t)
  {
    forall q | q in t.flights ensures SoundFlight(t.db, t.flights[q]) {
      assert SoundFlight(s.db, s.flights[q]);
      QuietFlight(s.db, t.db, s.flights[q]);
    }
    QuietKeepsSound(rules, s, t);
  }

  lemma LeavingKeepsSound(rules: Rules, s: System, t: System)
    requires Sound(rules, s) && t.calls == s.calls && t.db == s.db
    requires t.flights.Keys <= s.flights.Keys && forall p :: p in t.flights ==> t.flights[p] == s.flights[p]
    ensures Sound(rules, t)
  {
    forall p | p in t.flights ensures SoundFlight(t.db, t.flights[p]) { assert SoundFlight(s.db, s.flights[p]); }
    QuietKeepsSound(rules, s, t);
  }

  /** A phase change that touches the execution's own receipt. */
  lemma TouchKeepsSound(rules: Rules, s: System, t: System, p: nat, phase: Phase, r: Receipt, a: Attempt)
    requires Inv(rules, s) && p in s.flights && s.flights[p].phase in {Keyed, Begun}
    requires Touches(s.db, t.db, s.flights[p].ids.receipt, r, a)
    requires Paired(r, a) && r.id == a.receiptId == s.flights[p].ids.receipt && a.attemptNumber == 1
    requires t.calls == s.calls && t.flights == s.flights[p := s.flights[p].(phase := phase)]
    requires SoundFlight(t.db, t.flights[p])
    ensures Sound(rules, t)
  {
    var id := s.flights[p].ids.receipt;
    TouchedIsSound(s.db, t.db, id, r, a);
    forall q | q in t.flights ensures SoundFlight(t.db, t.flights[q]) {
      if q != p {
        assert Apart(s.flights[q], s.flights[p]) && SoundFlight(s.db, s.flights[q]);
        FlightKeeps(s.db, t.db, id, r, a, s.flights[q]);
      }
    }
    forall i | 0 <= i < |t.calls| ensures SoundCall(rules, t.db, t.calls[i]) {
      assert Uncalled(s.flights[p], s.calls[i]) && SoundCall(rules, s.db, s.calls[i]);
      CallKeeps(rules, s.db, t.db, id, r, a, s.calls[i]);
    }
  }

  lemma OpenKeepsSound(rules: Rules, s: System, p: nat)
    requires Inv(rules, s) && At(s, p, Keyed)
    ensures Sound(rules, Next(rules, s, Open(p)))
  {
    var f := s.flights[p];
    var id, aid := f.ids.receipt, f.ids.attempt;
    assert SoundFlight(s.db, f);
    OpenedShape(s.db, f.c, id, aid);
    TouchKeepsSound(rules, s, Next(rules, s, Open(p)), p, Begun, NewReceipt(f.c, id).(state := Attempting), NewAttempt(id, aid));
  }

  lemma MarkKeepsSound(rules: Rules, s: System, p: nat)
    requires Inv(rules, s) && At(s, p, Begun)
    ensures Sound(rules, Next(rules, s, Mark(p)))
  {
    var f := s.flights[p];
    var id, aid := f.ids.receipt, f.ids.attempt;
    assert SoundFlight(s.db, f);
    MarkedShape(s.db, id, aid);
    TouchKeepsSound(rules, s, Next(rules, s, Mark(p)), p, Marking, s.db.receipts[id], NewAttempt(id, aid).(state := Invoked));
  }

  lemma InvokeKeepsSound(rules: Rules, s: System, p: nat, adapter: string, reply: Reply)
    requires Sound(rules, s) && At(s, p, Marking)
    ensures Sound(rules, Next(rules, s, Invoke(p, adapter, reply)))
  {
    var t := Next(rules, s, Invoke(p, adapter, reply));
    forall q | q in t.flights ensures SoundFlight(t.db, t.flights[q]) { assert SoundFlight(s.db, s.flights[q]); }
    assert SoundFlight(s.db, s.flights[p]);
    forall i | 0 <= i < |t.calls| ensures SoundCall(rules, t.db, t.calls[i]) {
      if i < |s.calls| { assert SoundCall(rules, s.db, s.calls[i]); }
    }
  }

  /** The invocation the execution made is settled as its reply was verified. */
  lemma FinishSettlesItsCall(rules: Rules, before: AppDb, after: AppDb, f: Flight, call: Invocation, r: Receipt, a: Attempt)
    requires SoundCall(rules, before, call) && Uncalled(f, call)
    requires f.phase.Replied? && !f.phase.reply.Killed?
    requires Touches(before, after, f.ids.receipt, r, a) && a.state == AttemptFinalized
    requires r.outcome == Some(Outcome(rules, f.c, f.ids, f.phase.adapter, f.phase.reply))
    ensures SoundCall(rules, after, call)
  {}

  lemma FinishKeepsSound(rules: Rules, s: System, p: nat)
    requires Inv(rules, s) && p in s.flights && s.flights[p].phase.Replied? && !s.flights[p].phase.reply.Killed?
    ensures Sound(rules, Next(rules, s, Finish(p)))
  {
    var f := s.flights[p];
    var id := f.ids.receipt;
    var result := ResultOf(f.c, f.ids, f.phase.adapter, f.phase.reply);
    var outcome := FinalOutcome(rules, f.c, result);
    assert SoundFlight(s.db, f);
    assert SoundReceipt(s.db, id);
    FinalizedShape(s.db, f.c, id, f.ids.attempt, outcome, result.evidence);
    var r := s.db.receipts[id].(state := ReceiptFinalized, outcome := Some(outcome), metadata := f.c.metadata);
    var a := Attempt(f.ids.attempt, id, 1, AttemptFinalized, Some(outcome), result.evidence);
    var t := Next(rules, s, Finish(p));
    TouchedIsSound(s.db, t.db, id, r, a);
    forall q | q in t.flights ensures SoundFlight(t.db, t.flights[q]) {
      assert Apart(s.flights[q], f) && SoundFlight(s.db, s.flights[q]);
      FlightKeeps(s.db, t.db, id, r, a, s.flights[q]);
    }
    forall i | 0 <= i < |s.calls| ensures SoundCall(rules, t.db, s.calls[i]) {
      assert SoundCall(rules, s.db, s.calls[i]) && Uncalled(f, s.calls[i]);
      FinishSettlesItsCall(rules, s.db, t.db, f, s.calls[i], r, a);
    }
  }

  lemma SettledCall(rules: Rules, before: AppDb, after: AppDb, id: string, call: Invocation)
    requires SoundCall(rules, before, call) && SettlesOnly(before, after, id)
    requires id in before.receipts && SoundReceipt(before, id) && SoundReceipt(after, id)
    requires before.receipts[id].state == ReceiptFinalized ==> after == before
    requires before.attempts[id][0].state == Invoked ==> after.receipts[id].outcome in {Some(Succeeded), Some(Unknown)}
    ensures SoundCall(rules, after, call)
  {}

  lemma SettledFlight(before: AppDb, after: AppDb, id: string, f: Flight)
    requires SoundFlight(before, f) && SettlesOnly(before, after, id) && !(f.phase.Begun? && f.ids.receipt == id)
    requires id in before.receipts && SoundReceipt(before, id)
    requires id in after.attempts && |after.attempts[id]| == 1 && after.attempts[id][0].id == before.attempts[id][0].id
    requires after.attempts[id][0].state == AttemptFinalized
    requires before.receipts[id].state == ReceiptFinalized ==> after == before
    requires before.attempts[id][0].state == Invoked ==> after.receipts[id].outcome in {Some(Succeeded), Some(Unknown)}
    ensures SoundFlight(after, f)
  {}

  lemma SettleKeepsSound(rules: Rules, s: System, id: string, reconcilers: seq<Reconciler>, world: World)
    requires Sound(rules, s) && id in s.db.receipts
    requires forall p :: p in s.flights && s.flights[p].ids.receipt == id ==> !s.flights[p].phase.Begun?
    ensures Sound(rules, s.(db := Reconciled(s.db, reconcilers, world, id)))
  {
    var after := Reconciled(s.db, reconcilers, world, id);
    ReconciledIsSound(s.db, reconcilers, world, id);
    LostAttemptSettles(s.db, reconcilers, world, id);
    SettledAttempt(s.db, reconcilers, world, id);
    assert SoundReceipt(s.db, id) && SoundReceipt(after, id);
    forall i | 0 <= i < |s.calls| ensures SoundCall(rules, after, s.calls[i]) {
      assert SoundCall(rules, s.db, s.calls[i]);
      SettledCall(rules, s.db, after, id, s.calls[i]);
    }
    forall p | p in s.flights ensures SoundFlight(after, s.flights[p]) {
      assert SoundFlight(s.db, s.flights[p]);
      SettledFlight(s.db, after, id, s.flights[p]);
    }
  }

  /** Every step, but for settling a receipt between its opening and its INVOKED mark, keeps the tables
      in step with what happened. */
  lemma StepKeeps(rules: Rules, s: System, step: Step)
    requires Inv(rules, s) && Gentle(s, step)
    ensures Inv(rules, Next(rules, s, step))
  {
    var t := Next(rules, s, step);
    StepKeepsDisjoint(rules, s, step);
    match step
    case Start(p, c, ids) => if p !in s.flights && FreshId(s, ids.receipt) { StartKeepsSound(rules, s, t, p, c, ids); }
    case Reserve(p) =>
      if At(s, p, Started) {
        var key := s.flights[p].c.idempotencyKey;
        if key.Some? && key.value in s.db.keys { LeavingKeepsSound(rules, s, t); } else { ReserveKeepsSound(rules, s, t, p); }
      }
    case Open(p) => if At(s, p, Keyed) { OpenKeepsSound(rules, s, p); }
    case Mark(p) => if At(s, p, Begun) { MarkKeepsSound(rules, s, p); }
    case Invoke(p, adapter, reply) => if At(s, p, Marking) { InvokeKeepsSound(rules, s, p, adapter, reply); }
    case Finish(p) =>
      if p in s.flights && s.flights[p].phase.Replied? && !s.flights[p].phase.reply.Killed? { FinishKeepsSound(rules, s, p); }
    case Abort(p) => LeavingKeepsSound(rules, s, t);
    case Crash => LeavingKeepsSound(rules, s, t);
    case Settle(id, reconcilers, world) =>
      if id in s.db.receipts { SettleKeepsSound(rules, s, id, reconcilers, world); }
  }

  lemma {:induction false} RunKeeps(rules: Rules, s: System, steps: seq<Step>)
    requires Inv(rules, s) && GentleRun(rules, s, steps)
    ensures Inv(rules, Run(rules, s, steps))
  {
    if steps != [] {
      RunKeeps(rules, s, steps[..|steps| - 1]);
      StepKeeps(rules, Run(rules, s, steps[..|steps| - 1]), steps[|steps| - 1]);
    }
  }

  // ---- When is a sweep safe? ----

  /** What `Mark` does to a receipt that was settled before it. */
  lemma MarkedAfterSettling(db: AppDb, reconcilers: seq<Reconciler>, world: World, ids: Ids)
    requires SoundDb(db) && ids.receipt in db.receipts && ids.receipt in db.attempts
    requires db.attempts[ids.receipt] == [NewAttempt(ids.receipt, ids.attempt)]
    ensures !SoundDb(Marked(Reconciled(db, reconcilers, world, ids.receipt), ids.receipt, ids.attempt))
  {
    var id := ids.receipt;
    var settled := Reconciled(db, reconcilers, world, id);
    assert SoundReceipt(db, id);
    ReconciledIsSound(db, reconcilers, world, id);
    SettledAttempt(db, reconcilers, world, id);
    UpsertsState(settled.attempts[id], NewAttempt(id, ids.attempt).(state := Invoked));
    assert !SoundReceipt(Marked(settled, id, ids.attempt), id);
  }

  lemma UpsertsState(rows: seq<Attempt>, a: Attempt)
    requires |rows| == 1 && rows[0].id == a.id
    ensures |Upserted(rows, a)| == 1 && Upserted(rows, a)[0].state == a.state
  {}

  lemma RashSettlingBreaks(rules: Rules, s: System, p: nat, reconcilers: seq<Reconciler>, world: World)
    requires Inv(rules, s) && At(s, p, Begun) && s.flights[p].ids.receipt in s.db.receipts
    ensures
      var t := s.(db := Reconciled(s.db, reconcilers, world, s.flights[p].ids.receipt));
      !SoundDb(Run(rules, t, [Mark(p)]).db)
  {
    assert SoundFlight(s.db, s.flights[p]);
    MarkedAfterSettling(s.db, reconcilers, world, s.flights[p].ids);
    OneStep(rules, s.(db := Reconciled(s.db, reconcilers, world, s.flights[p].ids.receipt)), Mark(p));
  }

  /** Whatever gentle steps follow, receipts and attempts stay in step. */
  ghost predicate StaysSound(rules: Rules, s: System) {
    forall steps: seq<Step> :: GentleRun(rules, s, steps) ==> SoundDb(Run(rules, s, steps).db)
  }

  lemma InvStaysSound(rules: Rules, s: System)
    requires Inv(rules, s)
    ensures StaysSound(rules, s)
  {
    forall steps: seq<Step> | GentleRun(rules, s, steps) ensures SoundDb(Run(rules, s, steps).db) {
      RunKeeps(rules, s, steps);
    }
  }

  lemma MarkIsGentle(rules: Rules, s: System, p: nat)
    ensures GentleRun(rules, s, [Mark(p)])
  {
    assert [Mark(p)][..0] == [];
  }

  lemma GentleSettlingKeeps(rules: Rules, s: System, id: string, reconcilers: seq<Reconciler>, world: World)
    requires Inv(rules, s) && id in s.db.receipts && Gentle(s, Settle(id, reconcilers, world))
    ensures Inv(rules, s.(db := Reconciled(s.db, reconcilers, world, id)))
  {
    SettleKeepsSound(rules, s, id, reconcilers, world);
    SettlingGrows(s.db, reconcilers, world, id);
    LeavingKeepsDisjoint(s, s.(db := Reconciled(s.db, reconcilers, world, id)));
  }

  /** Receipts and attempts stay in step after a settling, along every run that goes on gently, exactly
      when the settled receipt is not between its opening and its INVOKED mark. */
  lemma SettlingIsSafeExactlyIfGentle(rules: Rules, s: System, id: string, reconcilers: seq<Reconciler>, world: World)
    requires Inv(rules, s) && id in s.db.receipts
    ensures StaysSound(rules, s.(db := Reconciled(s.db, reconcilers, world, id)))
      <==> Gentle(s, Settle(id, reconcilers, world))
  {
    var t := s.(db := Reconciled(s.db, reconcilers, world, id));
    if Gentle(s, Settle(id, reconcilers, world)) {
      GentleSettlingKeeps(rules, s, id, reconcilers, world);
      InvStaysSound(rules, t);
    } else {
      var p :| p in s.flights && s.flights[p].ids.receipt == id && s.flights[p].phase.Begun?;
      RashSettlingBreaks(rules, s, p, reconcilers, world);
      MarkIsGentle(rules, t, p);
    }
  }

  // ---- Receipts that stay open ----

  predicate StillOpen(db: AppDb, f: Flight) {
    f.phase.Begun? || f.phase.Marking? || f.phase.Replied? ==>
      f.ids.receipt in db.receipts && db.receipts[f.ids.receipt].state == Attempting
  }

  ghost predicate AllOpen(s: System) {
    forall p {:trigger StillOpen(s.db, s.flights[p])} :: p in s.flights ==> StillOpen(s.db, s.flights[p])
  }

  lemma CalmIsGentle(s: System, step: Step)
    requires Calm(s, step)
    ensures Gentle(s, step)
  {}

  lemma OpenStaysOpen(rules: Rules, s: System, p: nat)
    requires Inv(rules, s) && AllOpen(s) && At(s, p, Keyed)
    ensures AllOpen(Next(rules, s, Open(p)))
  {
    var f := s.flights[p];
    var t := Next(rules, s, Open(p));
    assert SoundFlight(s.db, f);
    OpenedShape(s.db, f.c, f.ids.receipt, f.ids.attempt);
    forall q | q in t.flights ensures StillOpen(t.db, t.flights[q]) {
      if q != p { assert StillOpen(s.db, s.flights[q]) && Apart(s.flights[q], f); }
    }
  }

  lemma FinishStaysOpen(rules: Rules, s: System, p: nat)
    requires Inv(rules, s) && AllOpen(s)
    requires p in s.flights && s.flights[p].phase.Replied? && !s.flights[p].phase.reply.Killed?
    ensures AllOpen(Next(rules, s, Finish(p)))
  {
    var f := s.flights[p];
    var t := Next(rules, s, Finish(p));
    var result := ResultOf(f.c, f.ids, f.phase.adapter, f.phase.reply);
    assert SoundFlight(s.db, f) && SoundReceipt(s.db, f.ids.receipt);
    FinalizedShape(s.db, f.c, f.ids.receipt, f.ids.attempt, FinalOutcome(rules, f.c, result), result.evidence);
    forall q | q in t.flights ensures StillOpen(t.db, t.flights[q]) {
      assert StillOpen(s.db, s.flights[q]) && Apart(s.flights[q], f);
    }
  }

  lemma SettleStaysOpen(rules: Rules, s: System, id: string, reconcilers: seq<Reconciler>, world: World)
    requires Inv(rules, s) && AllOpen(s) && id in s.db.receipts && Calm(s, Settle(id, reconcilers, world))
    ensures AllOpen(s.(db := Reconciled(s.db, reconcilers, world, id)))
  {
    var t := s.(db := Reconciled(s.db, reconcilers, world, id));
    ReconciledIsSound(s.db, reconcilers, world, id);
    forall q | q in t.flights ensures StillOpen(t.db, t.flights[q]) { assert StillOpen(s.db, s.flights[q]); }
  }

  lemma OtherStepsStayOpen(rules: Rules, s: System, step: Step)
    requires AllOpen(s) && !step.Open? && !step.Finish? && !step.Settle?
    ensures AllOpen(Next(rules, s, step))
  {
    var t := Next(rules, s, step);
    forall q | q in t.flights ensures StillOpen(t.db, t.flights[q]) {
      if q in s.flights { assert StillOpen(s.db, s.flights[q]); }
    }
  }

  lemma StepStaysOpen(rules: Rules, s: System, step: Step)
    requires Inv(rules, s) && AllOpen(s) && Calm(s, step)
    ensures AllOpen(Next(rules, s, step))
  {
    match step
    case Open(p) => if At(s, p, Keyed) { OpenStaysOpen(rules, s, p); }
    case Finish(p) =>
      if p in s.flights && s.flights[p].phase.Replied? && !s.flights[p].phase.reply.Killed? { FinishStaysOpen(rules, s, p); }
    case Settle(id, reconcilers, world) => if id in s.db.receipts { SettleStaysOpen(rules, s, id, reconcilers, world); }
    case _ => OtherStepsStayOpen(rules, s, step);
  }

  lemma {:induction false} CalmRunStaysOpen(rules: Rules, s: System, steps: seq<Step>)
    requires Inv(rules, s) && AllOpen(s) && CalmRun(rules, s, steps)
    ensures GentleRun(rules, s, steps) && Inv(rules, Run(rules, s, steps)) && AllOpen(Run(rules, s, steps))
  {
    if steps != [] {
      var init, last := steps[..|steps| - 1], steps[|steps| - 1];
      CalmRunStaysOpen(rules, s, init);
      CalmIsGentle(Run(rules, s, init), last);
      StepKeeps(rules, Run(rules, s, init), last);
      StepStaysOpen(rules, Run(rules, s, init), last);
    }
  }

  // ---- Whole runs ----

  const EMPTY := AppDb(map[], [], map[], map[], [], [])

  const AT_REST := System(EMPTY, map[], [])

  function Reached(rules: Rules, steps: seq<Step>): System {
    Run(rules, AT_REST, steps)
  }

  lemma ReachedIsDisjoint(rules: Rules, steps: seq<Step>)
    ensures Disjoint(Reached(rules, steps))
  {
    RunKeepsDisjoint(rules, AT_REST, steps);
  }

  lemma ReachedIsSound(rules: Rules, steps: seq<Step>)
    requires GentleRun(rules, AT_REST, steps)
    ensures Inv(rules, Reached(rules, steps))
  {
    RunKeeps(rules, AT_REST, steps);
  }

  /** The adapter runs at most once for a receipt and at most once for an idempotency key, over every
      run, with sweeps at any time. */
  lemma AtMostOnce(rules: Rules, steps: seq<Step>, i: nat, j: nat)
    requires i < |Reached(rules, steps).calls| && j < |Reached(rules, steps).calls|
    ensures
      var calls := Reached(rules, steps).calls;
      && (calls[i].ids.receipt == calls[j].ids.receipt ==> i == j)
      && (calls[i].c.idempotencyKey.Some? && calls[i].c.idempotencyKey == calls[j].c.idempotencyKey ==> i == j)
  {
    ReachedIsDisjoint(rules, steps);
    var calls := Reached(rules, steps).calls;
    if i < j { assert Distinct(calls[i], calls[j]); }
    if j < i { assert Distinct(calls[j], calls[i]); }
  }

  /** At every moment every durable receipt has one attempt, in step with it, and every invocation
      ever made shows in them. */
  lemma NothingRunsUnrecorded(rules: Rules, steps: seq<Step>)
    requires GentleRun(rules, AT_REST, steps)
    ensures
      var s := Reached(rules, steps);
      && SoundDb(s.db)
      && forall i :: 0 <= i < |s.calls| ==>
           var id := s.calls[i].ids.receipt;
           id in s.db.receipts && id in s.db.attempts && |s.db.attempts[id]| == 1
           && s.db.attempts[id][0].state in {Invoked, AttemptFinalized}
  {
    ReachedIsSound(rules, steps);
    var s := Reached(rules, steps);
    forall i | 0 <= i < |s.calls| ensures SoundCall(rules, s.db, s.calls[i]) {}
  }

  /** An adapter is entered only when its attempt is durably INVOKED and, unless a sweep settled it in
      flight, its receipt open. */
  lemma RecordedBeforeInvoked(rules: Rules, steps: seq<Step>, p: nat, adapter: string, reply: Reply)
    requires GentleRun(rules, AT_REST, steps)
    requires Next(rules, Reached(rules, steps), Invoke(p, adapter, reply)).calls != Reached(rules, steps).calls
    ensures
      var s := Reached(rules, steps);
      && p in s.flights
      && var id := s.flights[p].ids.receipt;
      && id in s.db.receipts && id in s.db.attempts && |s.db.attempts[id]| == 1
      && s.db.attempts[id][0].state in {Invoked, AttemptFinalized}
      && (CalmRun(rules, AT_REST, steps) ==>
            s.db.receipts[id].state == Attempting && s.db.attempts[id][0].state == Invoked)
  {
    ReachedIsSound(rules, steps);
    var s := Reached(rules, steps);
    assert At(s, p, Marking) && SoundFlight(s.db, s.flights[p]);
    if CalmRun(rules, AT_REST, steps) {
      CalmRunStaysOpen(rules, AT_REST, steps);
      assert StillOpen(s.db, s.flights[p]) && SoundReceipt(s.db, s.flights[p].ids.receipt);
    }
  }

  /** The reply does not tell whether anything happened: there is none, it is an exception that
      proves nothing, or the adapter says so itself. */
  predicate Ambiguous(call: Invocation) {
    match call.reply
    case Killed => true
    case RaisedOther(_) => call.c.operation !in EFFECT_FREE
    case Returned(result) => result.outcome == Unknown
    case RaisedNoEffect(_) => false
  }

  /** Under every verification policy and every evidence an ambiguous reply is verified as UNKNOWN. */
  lemma AmbiguousIsVerifiedUnknown(rules: Rules, call: Invocation)
    requires Ambiguous(call) && !call.reply.Killed?
    ensures Outcome(rules, call.c, call.ids, call.adapter, call.reply) == Unknown
  {}

  /** An ambiguous invocation never ends as a failure or a cancellation, under any verification
      policy, any crash and any sweeps that leave receipts about to be marked INVOKED alone: it stays
      open, or is unknown, or is seen to have succeeded. */
  lemma AmbiguityIsNeverFailure(rules: Rules, steps: seq<Step>, i: nat)
    requires GentleRun(rules, AT_REST, steps)
    requires i < |Reached(rules, steps).calls| && Ambiguous(Reached(rules, steps).calls[i])
    ensures
      var s := Reached(rules, steps);
      var id := s.calls[i].ids.receipt;
      id in s.db.receipts && s.db.receipts[id].outcome in {None, Some(Unknown), Some(Succeeded)}
  {
    ReachedIsSound(rules, steps);
    var s := Reached(rules, steps);
    assert SoundCall(rules, s.db, s.calls[i]);
    if !s.calls[i].reply.Killed? { AmbiguousIsVerifiedUnknown(rules, s.calls[i]); }
  }

  // ---- Without a sweep the reply decides ----

  ghost predicate RepliesDecide(rules: Rules, s: System) {
    forall i {:trigger Decided(rules, s.db, s.calls[i])} :: 0 <= i < |s.calls| ==> Decided(rules, s.db, s.calls[i])
  }

  ghost predicate Decided(rules: Rules, db: AppDb, call: Invocation) {
    call.ids.receipt in db.receipts
    && (db.receipts[call.ids.receipt].outcome == None || AsReplied(rules, db.receipts[call.ids.receipt].outcome, call))
  }

  ghost predicate Unswept(steps: seq<Step>) {
    forall i :: 0 <= i < |steps| ==> !steps[i].Settle?
  }

  lemma FinishDecides(rules: Rules, s: System, p: nat, call: Invocation)
    requires p in s.flights && s.flights[p].phase.Replied? && !s.flights[p].phase.reply.Killed?
    requires SoundFlight(s.db, s.flights[p]) && Decided(rules, s.db, call) && Uncalled(s.flights[p], call)
    requires SoundReceipt(s.db, s.flights[p].ids.receipt)
    ensures Decided(rules, Next(rules, s, Finish(p)).db, call)
  {
    var f := s.flights[p];
    var result := ResultOf(f.c, f.ids, f.phase.adapter, f.phase.reply);
    FinalizedShape(s.db, f.c, f.ids.receipt, f.ids.attempt, FinalOutcome(rules, f.c, result), result.evidence);
  }

  lemma OpenDecides(rules: Rules, s: System, p: nat, call: Invocation)
    requires At(s, p, Keyed) && SoundFlight(s.db, s.flights[p]) && Decided(rules, s.db, call)
    ensures Decided(rules, Next(rules, s, Open(p)).db, call)
  {
    OpenedShape(s.db, s.flights[p].c, s.flights[p].ids.receipt, s.flights[p].ids.attempt);
  }

  lemma OthersDecide(rules: Rules, s: System, step: Step, call: Invocation)
    requires !step.Open? && !step.Finish? && !step.Settle? && Decided(rules, s.db, call)
    ensures Decided(rules, Next(rules, s, step).db, call)
  {}

  lemma CallStaysDecided(rules: Rules, s: System, step: Step, i: nat)
    requires Inv(rules, s) && i < |s.calls| && Decided(rules, s.db, s.calls[i]) && !step.Settle?
    ensures Decided(rules, Next(rules, s, step).db, s.calls[i])
  {
    if step.Open? && At(s, step.p, Keyed) {
      assert SoundFlight(s.db, s.flights[step.p]);
      OpenDecides(rules, s, step.p, s.calls[i]);
    } else if step.Finish? && step.p in s.flights && s.flights[step.p].phase.Replied? && !s.flights[step.p].phase.reply.Killed? {
      assert SoundFlight(s.db, s.flights[step.p]) && Uncalled(s.flights[step.p], s.calls[i]);
      assert SoundReceipt(s.db, s.flights[step.p].ids.receipt);
      FinishDecides(rules, s, step.p, s.calls[i]);
    } else if !step.Open? && !step.Finish? {
      OthersDecide(rules, s, step, s.calls[i]);
    }
  }

  lemma StepDecides(rules: Rules, s: System, step: Step)
    requires Inv(rules, s) && AllOpen(s) && RepliesDecide(rules, s) && !step.Settle?
    ensures RepliesDecide(rules, Next(rules, s, step))
  {
    var t := Next(rules, s, step);
    forall i | 0 <= i < |t.calls| ensures Decided(rules, t.db, t.calls[i]) {
      if i < |s.calls| {
        assert Decided(rules, s.db, s.calls[i]) && t.calls[i] == s.calls[i];
        CallStaysDecided(rules, s, step, i);
      } else {
        assert SoundFlight(s.db, s.flights[step.p]) && StillOpen(s.db, s.flights[step.p]);
        assert SoundReceipt(s.db, s.flights[step.p].ids.receipt);
      }
    }
  }

  lemma {:induction false} RunDecides(rules: Rules, steps: seq<Step>)
    requires Unswept(steps)
    ensures CalmRun(rules, AT_REST, steps) && RepliesDecide(rules, Reached(rules, steps))
  {
    if steps != [] {
      var init := steps[..|steps| - 1];
      assert Unswept(init);
      RunDecides(rules, init);
      CalmRunStaysOpen(rules, AT_REST, init);
      StepDecides(rules, Reached(rules, init), steps[|steps| - 1]);
    }
  }

  /** As long as no sweep has run, an ambiguous invocation is open or finalised as UNKNOWN. */
  lemma AmbiguityEndsUnknown(rules: Rules, steps: seq<Step>, i: nat)
    requires Unswept(steps) && i < |Reached(rules, steps).calls| && Ambiguous(Reached(rules, steps).calls[i])
    ensures
      var s := Reached(rules, steps);
      var id := s.calls[i].ids.receipt;
      id in s.db.receipts && s.db.receipts[id].outcome in {None, Some(Unknown)}
  {
    RunDecides(rules, steps);
    var s := Reached(rules, steps);
    assert Decided(rules, s.db, s.calls[i]);
    if !s.calls[i].reply.Killed? { AmbiguousIsVerifiedUnknown(rules, s.calls[i]); }
  }

  // ---- A key is never freed ----

  /** The key is taken, and nothing in flight got past reserving it. */
  ghost predicate Retired(s: System, key: string) {
    && key in s.db.keys
    && forall p :: p in s.flights && s.flights[p].c.idempotencyKey == Some(key) ==> s.flights[p].phase.Started?
  }

  ghost predicate CallsWithout(before: System, after: System, key: string) {
    && before.calls <= after.calls
    && forall i :: |before.calls| <= i < |after.calls| ==> after.calls[i].c.idempotencyKey != Some(key)
  }

  /** Of all steps only three move an execution on, and a retired key has none to move. */
  lemma FlightsOfRetired(rules: Rules, s: System, step: Step, key: string)
    requires Retired(s, key)
    ensures
      var t := Next(rules, s, step);
      && t.flights.Keys <= s.flights.Keys + (if step.Start? then {step.p} else {})
      && forall p :: p in t.flights && t.flights[p].c.idempotencyKey == Some(key) ==> t.flights[p].phase.Started?
  {}

  lemma CallsOfRetired(rules: Rules, s: System, step: Step, key: string)
    requires Retired(s, key)
    ensures CallsWithout(s, Next(rules, s, step), key)
  {}

  lemma RetiredStays(rules: Rules, s: System, step: Step, key: string)
    requires Retired(s, key)
    ensures Retired(Next(rules, s, step), key) && CallsWithout(s, Next(rules, s, step), key)
  {
    StepGrows(rules, s, step);
    FlightsOfRetired(rules, s, step, key);
    CallsOfRetired(rules, s, step, key);
  }

  /** A key is never freed: once the execution that reserved it is over, however it ended, no later
      request under that key reaches an adapter. In particular a failed one is never retried. */
  lemma {:induction false} KeyIsNeverFreed(rules: Rules, s: System, steps: seq<Step>, key: string)
    requires Retired(s, key)
    ensures Retired(Run(rules, s, steps), key) && CallsWithout(s, Run(rules, s, steps), key)
  {
    if steps != [] {
      var init := steps[..|steps| - 1];
      KeyIsNeverFreed(rules, s, init, key);
      RetiredStays(rules, Run(rules, s, init), steps[|steps| - 1], key);
    }
  }

  /** The end of an execution that reserved its key retires it, whether it finishes with any outcome,
      is aborted by an exception or dies with its process. */
  lemma EndRetires(rules: Rules, s: System, p: nat, end: Step)
    requires Disjoint(s) && p in s.flights && !s.flights[p].phase.Started? && s.flights[p].c.idempotencyKey.Some?
    requires end in {Finish(p), Abort(p), Crash}
    requires p !in Next(rules, s, end).flights
    ensures Retired(Next(rules, s, end), s.flights[p].c.idempotencyKey.value)
  {
    var f := s.flights[p];
    assert Backed(s.db, f);
    StepGrows(rules, s, end);
    forall q | q in s.flights && q != p ensures Apart(s.flights[q], f) && Apart(f, s.flights[q]) {}
  }

  // ---- The sweep and `Execute` are runs of this system ----

  function Settles(ids: seq<string>, reconcilers: seq<Reconciler>, worlds: nat -> World): (steps: seq<Step>)
    ensures |steps| == |ids|
  {
    if ids == [] then []
    else
      Settles(ids[..|ids| - 1], reconcilers, worlds) + [Settle(ids[|ids| - 1], reconcilers, worlds(|ids| - 1))]
  }

  lemma {:induction false} SweepIsARun(
      rules: Rules, s: System, ids: seq<string>, reconcilers: seq<Reconciler>, worlds: nat -> World)
    requires s.flights == map[]
    ensures Run(rules, s, Settles(ids, reconcilers, worlds)) == s.(db := Swept(s.db, reconcilers, worlds, ids))
  {
    if ids != [] {
      var init := ids[..|ids| - 1];
      var steps := Settles(ids, reconcilers, worlds);
      SweepIsARun(rules, s, init, reconcilers, worlds);
      assert steps[..|steps| - 1] == Settles(init, reconcilers, worlds);
    }
  }

  /** After any run and a crash, the startup sweep settles every receipt and invokes nothing. */
  lemma StartupSweepSettlesAll(rules: Rules, steps: seq<Step>, reconcilers: seq<Reconciler>, worlds: nat -> World)
    requires GentleRun(rules, AT_REST, steps) && Reached(rules, steps).flights == map[]
    ensures
      var s := Reached(rules, steps);
      SoundDb(s.db)
      && var t := Run(rules, s, Settles(s.db.ListUnfinalized(), reconcilers, worlds));
      && t.calls == s.calls && t.db.receipts.Keys == s.db.receipts.Keys
      && (forall id :: id in t.db.receipts ==> t.db.receipts[id].state == ReceiptFinalized)
      && (forall id :: id in s.db.receipts && s.db.receipts[id].state == ReceiptFinalized ==>
            t.db.receipts[id] == s.db.receipts[id])
  {
    var s := Reached(rules, steps);
    ReachedIsSound(rules, steps);
    SweepIsARun(rules, s, s.db.ListUnfinalized(), reconcilers, worlds);
    SweepSettlesEverything(s.db, reconcilers, worlds);
  }

  /** What one execution does, as steps of this system. */
  function StepsOf(c: Contract, ids: Ids, adapter: string, reply: Reply, ending: Ending): seq<Step> {
    if ending.Refused? then (if ending.why == KeyTaken then [Start(0, c, ids), Reserve(0)] else [])
    else [Start(0, c, ids), Reserve(0)] + StepsOnceReserved(adapter, reply, ending)
  }

  function StepsOnceReserved(adapter: string, reply: Reply, ending: Ending): seq<Step> {
    match ending
    case Abandoned => [Open(0), Abort(0)]
    case Died => [Open(0), Mark(0), Invoke(0, adapter, reply), Crash]
    case Finished(_) => [Open(0), Mark(0), Invoke(0, adapter, reply), Finish(0)]
    case _ => [Abort(0)]
  }

  lemma RunOne(rules: Rules, s: System, steps: seq<Step>, step: Step)
    ensures Run(rules, s, steps + [step]) == Next(rules, Run(rules, s, steps), step)
  {
    assert (steps + [step])[..|steps + [step]| - 1] == steps;
  }

  /** Up to the reservation. */
  lemma BeginIsARun(rules: Rules, s: System, c: Contract, ids: Ids)
    requires s.flights == map[] && FreshId(s, ids.receipt)
    ensures
      var t := Run(rules, s, [Start(0, c, ids), Reserve(0)]);
      if c.idempotencyKey.Some? && c.idempotencyKey.value in s.db.keys then t == s
      else t == System(Reserved(s.db, c.idempotencyKey), map[0 := Flight(c, ids, Keyed)], s.calls)
  {
    RunOne(rules, s, [], Start(0, c, ids));
    assert [] + [Start(0, c, ids)] == [Start(0, c, ids)];
    RunOne(rules, s, [Start(0, c, ids)], Reserve(0));
    assert [Start(0, c, ids)] + [Reserve(0)] == [Start(0, c, ids), Reserve(0)];
  }

  lemma {:induction false} RunOn(rules: Rules, s: System, a: seq<Step>, b: seq<Step>)
    ensures Run(rules, s, a + b) == Run(rules, Run(rules, s, a), b)
  {
    if b == [] {
      assert a + b == a;
    } else {
      var init, last := b[..|b| - 1], b[|b| - 1];
      RunOn(rules, s, a, init);
      assert a + b == (a + init) + [last];
      RunOne(rules, s, a + init, last);
    }
  }

  lemma OneStep(rules: Rules, s: System, step: Step)
    ensures Run(rules, s, [step]) == Next(rules, s, step)
  {
    assert [step][..0] == [];
  }

  /** From the reservation to the reply. */
  lemma InvocationIsARun(rules: Rules, s: System, c: Contract, ids: Ids, adapter: string, reply: Reply)
    requires s.flights == map[0 := Flight(c, ids, Begun)]
    ensures
      Run(rules, s, [Mark(0), Invoke(0, adapter, reply)]) == System(
        Marked(s.db, ids.receipt, ids.attempt), map[0 := Flight(c, ids, Replied(adapter, reply))],
        s.calls + [Invocation(c, ids, adapter, reply)])
  {
    OneStep(rules, s, Mark(0));
    RunOne(rules, s, [Mark(0)], Invoke(0, adapter, reply));
    assert [Mark(0)] + [Invoke(0, adapter, reply)] == [Mark(0), Invoke(0, adapter, reply)];
  }

  lemma RepliedIsARun(
      rules: Rules, s: System, c: Contract, ids: Ids, adapter: string, reply: Reply, last: Step)
    requires s.flights == map[0 := Flight(c, ids, Keyed)]
    ensures
      Run(rules, s, [Open(0), Mark(0), Invoke(0, adapter, reply), last]) == Next(rules, System(
        Marked(Opened(s.db, c, ids.receipt, ids.attempt), ids.receipt, ids.attempt),
        map[0 := Flight(c, ids, Replied(adapter, reply))], s.calls + [Invocation(c, ids, adapter, reply)]), last)
  {
    var most := [Mark(0), Invoke(0, adapter, reply)];
    OneStep(rules, s, Open(0));
    InvocationIsARun(rules, Next(rules, s, Open(0)), c, ids, adapter, reply);
    RunOn(rules, s, [Open(0)], most);
    RunOne(rules, s, [Open(0)] + most, last);
    assert [Open(0)] + most + [last] == [Open(0), Mark(0), Invoke(0, adapter, reply), last];
  }

  lemma AbandonedIsARun(rules: Rules, s: System, c: Contract, ids: Ids)
    requires s.flights == map[0 := Flight(c, ids, Keyed)]
    ensures Run(rules, s, [Abort(0)]) == System(s.db, map[], s.calls)
    ensures Run(rules, s, [Open(0), Abort(0)]) == System(Opened(s.db, c, ids.receipt, ids.attempt), map[], s.calls)
  {
    OneStep(rules, s, Abort(0));
    OneStep(rules, s, Open(0));
    RunOne(rules, s, [Open(0)], Abort(0));
    assert [Open(0)] + [Abort(0)] == [Open(0), Abort(0)];
  }

  lemma LastCommit(db: AppDb, c: Contract, ids: Ids, evidence: Payload, outcome: AppOutcome)
    ensures
      var begun := Opened(db, c, ids.receipt, ids.attempt);
      var marked := Marked(begun, ids.receipt, ids.attempt);
      && LastOf(db, CommitsOnceReserved(db, c, ids, IdentityMismatch, evidence)) == db
      && LastOf(db, CommitsOnceReserved(db, c, ids, Abandoned, evidence)) == begun
      && LastOf(db, CommitsOnceReserved(db, c, ids, Died, evidence)) == marked
      && LastOf(db, CommitsOnceReserved(db, c, ids, Finished(outcome), evidence))
         == Finalized(marked, c, ids.receipt, ids.attempt, outcome, evidence)
  {}

  lemma OnceReservedIsARun(
      rules: Rules, s: System, c: Contract, ids: Ids, adapter: string, outside: Surroundings, ending: Ending, evidence: Payload)
    requires s.flights == map[0 := Flight(c, ids, Keyed)]
    requires ending == EndingOnceAccepted(rules, c, ids, adapter, outside)
    requires evidence == if ending.Finished? then ResultOf(c, ids, adapter, outside.reply).evidence else map[]
    ensures
      Run(rules, s, StepsOnceReserved(adapter, outside.reply, ending)) == System(
        LastOf(s.db, CommitsOnceReserved(s.db, c, ids, ending, evidence)), map[],
        s.calls + if ending.Died? || ending.Finished? then [Invocation(c, ids, adapter, outside.reply)] else [])
  {
    LastCommit(s.db, c, ids, evidence, if ending.Finished? then ending.outcome else Unknown);
    match ending
    case IdentityMismatch => AbandonedIsARun(rules, s, c, ids);
    case Abandoned => AbandonedIsARun(rules, s, c, ids);
    case Died => RepliedIsARun(rules, s, c, ids, adapter, outside.reply, Crash);
    case Finished(_) => FinishedIsARun(rules, s, c, ids, adapter, outside.reply);
  }

  lemma FinishedIsARun(rules: Rules, s: System, c: Contract, ids: Ids, adapter: string, reply: Reply)
    requires s.flights == map[0 := Flight(c, ids, Keyed)] && !reply.Killed?
    ensures
      var result := ResultOf(c, ids, adapter, reply);
      var marked := Marked(Opened(s.db, c, ids.receipt, ids.attempt), ids.receipt, ids.attempt);
      Run(rules, s, [Open(0), Mark(0), Invoke(0, adapter, reply), Finish(0)]) == System(
        Finalized(marked, c, ids.receipt, ids.attempt, FinalOutcome(rules, c, result), result.evidence), map[],
        s.calls + [Invocation(c, ids, adapter, reply)])
  {
    RepliedIsARun(rules, s, c, ids, adapter, reply, Finish(0));
    var marked := Marked(Opened(s.db, c, ids.receipt, ids.attempt), ids.receipt, ids.attempt);
    FinishOfOne(rules, System(marked, map[0 := Flight(c, ids, Replied(adapter, reply))],
      s.calls + [Invocation(c, ids, adapter, reply)]), c, ids, adapter, reply);
  }

  lemma FinishOfOne(rules: Rules, s: System, c: Contract, ids: Ids, adapter: string, reply: Reply)
    requires s.flights == map[0 := Flight(c, ids, Replied(adapter, reply))] && !reply.Killed?
    ensures
      var result := ResultOf(c, ids, adapter, reply);
      Next(rules, s, Finish(0)) == System(
        Finalized(s.db, c, ids.receipt, ids.attempt, FinalOutcome(rules, c, result), result.evidence), map[], s.calls)
  {
    assert s.flights - {0} == map[];
  }

  /** `Execute`, on its own, is a run of this system: same tables, same call, same ending. */
  lemma ExecuteIsARun(
      rules: Rules, s: System, adapters: seq<Adapter>, c: Contract, ids: Ids, outside: Surroundings, evidence: Payload)
    requires s.flights == map[] && FreshId(s, ids.receipt)
    requires
      var ending := EndingOf(adapters, rules, s.db, c, ids, outside);
      evidence == if ending.Finished? then
        ResultOf(c, ids, Selected(adapters, c).value.name, outside.reply).evidence else map[]
    ensures
      var ending := EndingOf(adapters, rules, s.db, c, ids, outside);
      var adapter := if Selected(adapters, c).Some? then Selected(adapters, c).value.name else "";
      Run(rules, s, StepsOf(c, ids, adapter, outside.reply, ending)) == System(
        LastOf(s.db, CommitsOf(s.db, c, ids, ending, evidence)), map[],
        s.calls + if ending.Died? || ending.Finished? then [Invocation(c, ids, adapter, outside.reply)] else [])
  {
    var ending := EndingOf(adapters, rules, s.db, c, ids, outside);
    BeginIsARun(rules, s, c, ids);
    if ending.Refused? {
      assert Run(rules, s, []) == s;
    } else {
      var adapter := Selected(adapters, c).value.name;
      CommitsCompose([], s.db, c, ids, ending, evidence);
      var t := System(Reserved(s.db, c.idempotencyKey), map[0 := Flight(c, ids, Keyed)], s.calls);
      OnceReservedIsARun(rules, t, c, ids, adapter, outside, ending, evidence);
      RunOn(rules, s, [Start(0, c, ids), Reserve(0)], StepsOnceReserved(adapter, outside.reply, ending));
    }
  }

  // ---- What a sweep of a live receipt does ----

  const CASUALTY := Contract("c", "a", "cap", "op", "target", None, map[])

  const CASUALTY_IDS := Ids("r", "t")

  const NOWHERE := World({}, {}, {}, map[])

  const SWEPT_OPEN := [Start(0, CASUALTY, CASUALTY_IDS), Reserve(0)] + [Open(0), Settle("r", [], NOWHERE)]

  const LAST_STEPS := [Mark(0), Invoke(0, "adapter", Killed)] + [Crash]

  lemma OpenedThenSettled()
    ensures
      var db := Opened(EMPTY, CASUALTY, "r", "t");
      && "r" in db.receipts && "r" in Reconciled(db, [], NOWHERE, "r").receipts
      && Reconciled(db, [], NOWHERE, "r").receipts["r"].outcome == Some(Failed)
  {
    var db := Opened(EMPTY, CASUALTY, "r", "t");
    OpenedShape(EMPTY, CASUALTY, "r", "t");
    assert SoundReceipt(db, "r");
    ReconciledShape(db, [], NOWHERE, "r");
  }

  const CASUALTY_KEYED := System(EMPTY, map[0 := Flight(CASUALTY, CASUALTY_IDS, Keyed)], [])

  lemma OpenedThenSwept(rules: Rules)
    ensures
      var s := Run(rules, CASUALTY_KEYED, [Open(0), Settle("r", [], NOWHERE)]);
      && s.flights == map[0 := Flight(CASUALTY, CASUALTY_IDS, Begun)] && s.calls == []
      && "r" in s.db.receipts && s.db.receipts["r"].outcome == Some(Failed)
  {
    OneStep(rules, CASUALTY_KEYED, Open(0));
    RunOne(rules, CASUALTY_KEYED, [Open(0)], Settle("r", [], NOWHERE));
    assert [Open(0)] + [Settle("r", [], NOWHERE)] == [Open(0), Settle("r", [], NOWHERE)];
    OpenedThenSettled();
  }

  lemma CasualtyBegins(rules: Rules)
    ensures Run(rules, AT_REST, [Start(0, CASUALTY, CASUALTY_IDS), Reserve(0)]) == CASUALTY_KEYED
  {
    BeginIsARun(rules, AT_REST, CASUALTY, CASUALTY_IDS);
  }

  lemma SweptWhileOpen(rules: Rules) returns (s: System)
    ensures s == Reached(rules, SWEPT_OPEN)
    ensures s.flights == map[0 := Flight(CASUALTY, CASUALTY_IDS, Begun)] && s.calls == []
    ensures "r" in s.db.receipts && s.db.receipts["r"].outcome == Some(Failed)
  {
    CasualtyBegins(rules);
    RunOn(rules, AT_REST, [Start(0, CASUALTY, CASUALTY_IDS), Reserve(0)], [Open(0), Settle("r", [], NOWHERE)]);
    OpenedThenSwept(rules);
    s := Reached(rules, SWEPT_OPEN);
  }

  lemma InvokedThenKilled(rules: Rules, s: System)
    requires s.flights == map[0 := Flight(CASUALTY, CASUALTY_IDS, Begun)] && s.calls == []
    ensures
      var t := Run(rules, s, LAST_STEPS);
      t.db.receipts == s.db.receipts && t.calls == [Invocation(CASUALTY, CASUALTY_IDS, "adapter", Killed)]
  {
    InvocationIsARun(rules, s, CASUALTY, CASUALTY_IDS, "adapter", Killed);
    RunOne(rules, s, [Mark(0), Invoke(0, "adapter", Killed)], Crash);
  }

  /** A sweep that settles a live receipt before its adapter is entered calls it a failure; when the
      process then dies in the adapter the failure stands, although the invocation happened. */
  lemma SweptAliveReadsFailure(rules: Rules)
    ensures
      var s := Reached(rules, SWEPT_OPEN + LAST_STEPS);
      && s.calls == [Invocation(CASUALTY, CASUALTY_IDS, "adapter", Killed)] && Ambiguous(s.calls[0])
      && "r" in s.db.receipts && s.db.receipts["r"].outcome == Some(Failed)
  {
    var s := SweptWhileOpen(rules);
    RunOn(rules, AT_REST, SWEPT_OPEN, LAST_STEPS);
    InvokedThenKilled(rules, s);
  }
}
