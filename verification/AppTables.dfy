/** The durable tables of the execution plane and what each repository statement does to them. */
module AppTables {
  import opened Wrappers
  import opened AppContracts
  import opened Reconcile

  /** `attempts` holds the rows of the attempts table by receipt, each list in rowid order;
      `receiptOrder` is the rowid order of the receipts table. */
  datatype AppDb = AppDb(
    receipts: map<string, Receipt>, receiptOrder: seq<string>, attempts: map<string, seq<Attempt>>,
    keys: map<string, KeyRow>, incidents: seq<Incident>, verifications: seq<AppVerification>)
  {
    /** Insert, or update the columns the upsert lists. */
    function SaveReceipt(r: Receipt): AppDb {
      if r.id in receipts then
        this.(receipts := receipts[r.id := receipts[r.id].(state := r.state, outcome := r.outcome, metadata := r.metadata)])
      else this.(receipts := receipts[r.id := r], receiptOrder := receiptOrder + [r.id])
    }

    function AttemptsOf(receiptId: string): seq<Attempt> {
      if receiptId in attempts then attempts[receiptId] else []
    }

    function SaveAttempt(a: Attempt): AppDb {
      this.(attempts := attempts[a.receiptId := Upserted(AttemptsOf(a.receiptId), a)])
    }

    function SaveKey(key: string, row: KeyRow): AppDb {
      this.(keys := keys[key := row])
    }

    /** `list_by_receipt(...)[-1]`: the last row with the highest attempt number. */
    function LatestAttempt(receiptId: string): Option<Attempt> {
      Latest(AttemptsOf(receiptId))
    }

    function ListUnfinalized(): seq<string>
      requires forall id :: id in receiptOrder ==> id in receipts
    {
      Unfinalized(receipts, receiptOrder)
    }
  }

  datatype Incident = Incident(receiptId: string, attemptId: Option<string>, quarantined: bool, reason: StuckReason)

  datatype AppVerification = AppVerification(receiptId: string, attemptId: string, result: AppOutcome)

  function Upserted(rows: seq<Attempt>, a: Attempt): seq<Attempt> {
    if rows == [] then [a]
    else if rows[0].id == a.id then
      [rows[0].(state := a.state, outcome := a.outcome, evidence := a.evidence)] + rows[1..]
    else [rows[0]] + Upserted(rows[1..], a)
  }

  function Latest(rows: seq<Attempt>): Option<Attempt> {
    if rows == [] then None
    else
      var last, earlier := rows[|rows| - 1], Latest(rows[..|rows| - 1]);
      if earlier.Some? && earlier.value.attemptNumber > last.attemptNumber then earlier else Some(last)
  }

  function Unfinalized(receipts: map<string, Receipt>, order: seq<string>): seq<string>
    requires forall id :: id in order ==> id in receipts
  {
    if order == [] then []
    else
      (if receipts[order[0]].state != ReceiptFinalized then [order[0]] else []) + Unfinalized(receipts, order[1..])
  }

  // ---- The four commits of an execution ----

  function Reserved(db: AppDb, key: Option<string>): AppDb {
    if key.Some? then db.SaveKey(key.value, KeyRow(None, InProgress, None)) else db
  }

  function NewReceipt(c: Contract, id: string): Receipt {
    Receipt(id, c.contractId, c.authorizationId, c.capability, c.operation, c.target, ReceiptCreated, None, c.metadata)
  }

  function NewAttempt(receiptId: string, id: string): Attempt {
    Attempt(id, receiptId, 1, AttemptCreated, None, map[])
  }

  /** Receipt, attempt and the key's binding to the receipt, durable together. */
  function Opened(db: AppDb, c: Contract, receiptId: string, attemptId: string): AppDb {
    var saved := db.SaveReceipt(NewReceipt(c, receiptId))
                   .SaveReceipt(NewReceipt(c, receiptId).(state := Attempting))
                   .SaveAttempt(NewAttempt(receiptId, attemptId));
    if c.idempotencyKey.Some? then Bound(saved, c.idempotencyKey.value, receiptId) else saved
  }

  function Bound(db: AppDb, key: string, receiptId: string): AppDb {
    db.SaveKey(key,
      if key in db.keys then db.keys[key].(receiptId := Some(receiptId))
      else KeyRow(Some(receiptId), InProgress, None))
  }

  function Marked(db: AppDb, receiptId: string, attemptId: string): AppDb {
    db.SaveAttempt(NewAttempt(receiptId, attemptId).(state := Invoked))
  }

  function KeyStateFor(outcome: AppOutcome): IdempotencyState {
    match outcome case Succeeded => KeyCompleted case Unknown => KeyUnknown case _ => KeyFailed
  }

  function Finalized(db: AppDb, c: Contract, receiptId: string, attemptId: string, outcome: AppOutcome, evidence: Payload): AppDb {
    var saved := db.SaveAttempt(Attempt(attemptId, receiptId, 1, AttemptFinalized, Some(outcome), evidence))
                   .SaveReceipt(NewReceipt(c, receiptId).(state := ReceiptFinalized, outcome := Some(outcome)));
    var verified := saved.(verifications := saved.verifications + [AppVerification(receiptId, attemptId, outcome)]);
    if c.idempotencyKey.Some? then
      verified.SaveKey(c.idempotencyKey.value, KeyRow(Some(receiptId), KeyStateFor(outcome), Some(outcome)))
    else verified
  }

  // ---- Reconciling one stuck receipt ----

  function MergedEvidence(attempt: Attempt, o: Observation): Payload {
    if o.evidence == map[] then attempt.evidence
    else attempt.evidence + o.evidence + map["side_effect_detected" := JBool(o.sideEffectDetected)]
  }

  function SettledRow(a: Attempt, o: Observation): Attempt {
    a.(state := AttemptFinalized, outcome := Some(o.outcome), evidence := MergedEvidence(a, o))
  }

  function Reconciled(db: AppDb, reconcilers: seq<Reconciler>, world: World, receiptId: string): AppDb
    requires receiptId in db.receipts
  {
    var receipt, attempt := db.receipts[receiptId], db.LatestAttempt(receiptId);
    match ClassifyStuckAttempt(receipt, attempt)
    case None => db
    case Some(reason) => Settled(db, receipt, attempt, reason, Observe(reconcilers, world, receipt, attempt, reason))
  }

  /** Attempt, receipt and incident, durable together. */
  function Settled(db: AppDb, receipt: Receipt, attempt: Option<Attempt>, reason: StuckReason, o: Observation): AppDb {
    var saved :=
      if attempt.None? then db
      else if attempt.value.state == AttemptFinalized then db.SaveAttempt(attempt.value)
      else db.SaveAttempt(SettledRow(attempt.value, o));
    var done := saved.SaveReceipt(receipt.(state := ReceiptFinalized, outcome := Some(o.outcome)));
    var attemptId := if attempt.Some? then Some(attempt.value.id) else None;
    done.(incidents := done.incidents + [Incident(receipt.id, attemptId, o.outcome == Unknown, reason)])
  }

  /** A sweep over the listed receipts; the outside may look different at each of them. */
  function Swept(db: AppDb, reconcilers: seq<Reconciler>, worlds: nat -> World, ids: seq<string>): AppDb {
    if ids == [] then db
    else
      var last := |ids| - 1;
      var before := Swept(db, reconcilers, worlds, ids[..last]);
      if ids[last] in before.receipts then Reconciled(before, reconcilers, worlds(last), ids[last]) else before
  }

  // ---- What every committed state looks like ----

  /** A receipt and its attempt move together. */
  ghost predicate Paired(r: Receipt, a: Attempt) {
    || (r.state == Attempting && r.outcome == None && a.state in {AttemptCreated, Invoked} && a.outcome == None
        && a.evidence == map[])
    || (r.state == ReceiptFinalized && a.state == AttemptFinalized && r.outcome.Some? && a.outcome == r.outcome)
  }

  /** Every durable receipt has exactly one attempt, numbered 1, and the pair is in step. */
  ghost predicate SoundReceipt(db: AppDb, id: string)
    requires id in db.receipts
  {
    && db.receipts[id].id == id
    && id in db.attempts && |db.attempts[id]| == 1
    && db.attempts[id][0].receiptId == id && db.attempts[id][0].attemptNumber == 1
    && Paired(db.receipts[id], db.attempts[id][0])
  }

  ghost predicate SoundDb(db: AppDb) {
    && (forall id :: id in db.receipts ==> SoundReceipt(db, id))
    && db.attempts.Keys == db.receipts.Keys
    && (forall id :: id in db.receiptOrder <==> id in db.receipts)
  }

  /** `after` differs from `before` in receipt `id` alone, which is now finalised. */
  ghost predicate SettlesOnly(before: AppDb, after: AppDb, id: string) {
    && after.receipts.Keys == before.receipts.Keys && after.keys == before.keys
    && after.attempts.Keys == before.attempts.Keys && after.receiptOrder == before.receiptOrder
    && id in after.receipts && after.receipts[id].state == ReceiptFinalized
    && (forall other :: other in before.receipts && other != id ==> after.receipts[other] == before.receipts[other])
    && (forall other :: other in before.attempts && other != id ==> after.attempts[other] == before.attempts[other])
  }

  lemma SoundAttempt(db: AppDb, id: string)
    requires id in db.receipts && SoundReceipt(db, id)
    ensures db.LatestAttempt(id) == Some(db.attempts[id][0])
  {
    LatestOfOne(db.attempts[id]);
  }

  lemma LatestOfOne(rows: seq<Attempt>)
    requires |rows| == 1
    ensures Latest(rows) == Some(rows[0])
  {
    assert rows[..|rows| - 1] == [];
    assert Latest(rows[..|rows| - 1]) == None;
  }

  /** `after` is `before` with row `id` of both tables replaced or added, and perhaps more keys. */
  ghost predicate Touches(before: AppDb, after: AppDb, id: string, r: Receipt, a: Attempt) {
    && after.receipts == before.receipts[id := r] && after.attempts == before.attempts[id := [a]]
    && before.keys.Keys <= after.keys.Keys
    && after.receiptOrder == (if id in before.receipts then before.receiptOrder else before.receiptOrder + [id])
  }

  lemma TouchedIsSound(db: AppDb, after: AppDb, id: string, r: Receipt, a: Attempt)
    requires SoundDb(db) && Touches(db, after, id, r, a)
    requires Paired(r, a) && r.id == id && a.receiptId == id && a.attemptNumber == 1
    ensures SoundDb(after)
  {
    forall other | other in after.receipts ensures SoundReceipt(after, other) {
      if other != id { assert SoundReceipt(db, other); }
    }
  }

  lemma UpsertedOnly(rows: seq<Attempt>, a: Attempt)
    requires |rows| == 1 && rows[0].id == a.id && rows[0].receiptId == a.receiptId
    requires rows[0].attemptNumber == a.attemptNumber
    ensures Upserted(rows, a) == [a]
  {}

  lemma SettledShape(db: AppDb, id: string, reason: StuckReason, o: Observation)
    requires id in db.receipts && SoundReceipt(db, id) && db.receipts[id].state != ReceiptFinalized
    ensures
      var r, a := db.receipts[id], db.attempts[id][0];
      var after := Settled(db, r, Some(a), reason, o);
      && Touches(db, after, id, r.(state := ReceiptFinalized, outcome := Some(o.outcome)), SettledRow(a, o))
      && after.keys == db.keys
  {
    UpsertedOnly(db.attempts[id], SettledRow(db.attempts[id][0], o));
  }

  /** What settling a stuck receipt does: its two rows are finalised with what was observed. */
  lemma ReconciledShape(db: AppDb, reconcilers: seq<Reconciler>, world: World, id: string)
    requires id in db.receipts && SoundReceipt(db, id) && db.receipts[id].state != ReceiptFinalized
    ensures
      var r, a := db.receipts[id], db.attempts[id][0];
      var after := Reconciled(db, reconcilers, world, id);
      exists reason ::
        && ClassifyStuckAttempt(r, Some(a)) == Some(reason)
        && (a.state == Invoked ==> reason == AttemptInvokedNotFinalized)
        && var o := Observe(reconcilers, world, r, Some(a), reason);
        && Touches(db, after, id, r.(state := ReceiptFinalized, outcome := Some(o.outcome)), SettledRow(a, o))
        && after.keys == db.keys
  {
    SoundAttempt(db, id);
    var r, a := db.receipts[id], db.attempts[id][0];
    var reason := ClassifyStuckAttempt(r, Some(a)).value;
    SettledShape(db, id, reason, Observe(reconcilers, world, r, Some(a), reason));
  }

  /** Settling finalises the one attempt and keeps its identity. */
  lemma SettledAttempt(db: AppDb, reconcilers: seq<Reconciler>, world: World, id: string)
    requires id in db.receipts && SoundReceipt(db, id)
    ensures
      var after := Reconciled(db, reconcilers, world, id);
      && id in after.attempts && |after.attempts[id]| == 1 && after.attempts[id][0].id == db.attempts[id][0].id
      && after.attempts[id][0].state == AttemptFinalized
  {
    if db.receipts[id].state == ReceiptFinalized {
      FinalizedStays(db, reconcilers, world, id);
    } else {
      ReconciledShape(db, reconcilers, world, id);
    }
  }

  lemma TouchSettles(db: AppDb, after: AppDb, id: string, r: Receipt, a: Attempt)
    requires id in db.receipts && id in db.attempts
    requires Touches(db, after, id, r, a) && r.state == ReceiptFinalized && after.keys == db.keys
    ensures SettlesOnly(db, after, id)
  {}

  lemma FinalizedStays(db: AppDb, reconcilers: seq<Reconciler>, world: World, id: string)
    requires id in db.receipts && db.receipts[id].state == ReceiptFinalized
    ensures Reconciled(db, reconcilers, world, id) == db
  {}

  /** Settling one receipt keeps the tables in step and touches nothing else. */
  lemma ReconciledIsSound(db: AppDb, reconcilers: seq<Reconciler>, world: World, id: string)
    requires SoundDb(db) && id in db.receipts
    ensures
      var after := Reconciled(db, reconcilers, world, id);
      && SoundDb(after) && SettlesOnly(db, after, id)
      && (db.receipts[id].state == ReceiptFinalized ==> after == db)
  {
    assert SoundReceipt(db, id);
    if db.receipts[id].state == ReceiptFinalized {
      FinalizedStays(db, reconcilers, world, id);
    } else {
      ReconciledShape(db, reconcilers, world, id);
      var after := Reconciled(db, reconcilers, world, id);
      TouchedIsSound(db, after, id, after.receipts[id], after.attempts[id][0]);
      TouchSettles(db, after, id, after.receipts[id], after.attempts[id][0]);
    }
  }

  /** An attempt whose invocation was lost settles as a success or as unknown. */
  lemma LostAttemptSettles(db: AppDb, reconcilers: seq<Reconciler>, world: World, id: string)
    requires SoundDb(db) && id in db.receipts
    ensures
      var after := Reconciled(db, reconcilers, world, id);
      && SoundReceipt(db, id) && id in after.receipts
      && (db.attempts[id][0].state == Invoked ==> after.receipts[id].outcome in {Some(Succeeded), Some(Unknown)})
  {
    assert SoundReceipt(db, id);
    ReconciledIsSound(db, reconcilers, world, id);
    if db.attempts[id][0].state == Invoked {
      ReconciledShape(db, reconcilers, world, id);
      LostInvocationIsNeverAFailure(reconcilers, world, db.receipts[id], Some(db.attempts[id][0]));
    }
  }

  /** What a sweep may do: settle the listed receipts, and leave keys and settled receipts alone. */
  ghost predicate SweepsOnly(before: AppDb, after: AppDb, ids: seq<string>) {
    && after.receipts.Keys == before.receipts.Keys && after.keys == before.keys
    && (forall id :: id in ids ==> id in after.receipts && after.receipts[id].state == ReceiptFinalized)
    && (forall id :: id in before.receipts && (id !in ids || before.receipts[id].state == ReceiptFinalized) ==>
          after.receipts[id] == before.receipts[id])
  }

  lemma SweepsOnlyNext(before: AppDb, mid: AppDb, after: AppDb, ids: seq<string>, id: string)
    requires SweepsOnly(before, mid, ids) && SettlesOnly(mid, after, id)
    requires mid.receipts[id].state == ReceiptFinalized ==> after == mid
    ensures SweepsOnly(before, after, ids + [id])
  {}

  /** A whole sweep settles every listed receipt and keeps the tables in step. */
  lemma {:induction false} SweptIsSound(
      db: AppDb, reconcilers: seq<Reconciler>, worlds: nat -> World, ids: seq<string>)
    requires SoundDb(db) && forall id :: id in ids ==> id in db.receipts
    ensures SoundDb(Swept(db, reconcilers, worlds, ids)) && SweepsOnly(db, Swept(db, reconcilers, worlds, ids), ids)
  {
    if ids != [] {
      var last := |ids| - 1;
      var init, id := ids[..last], ids[last];
      assert ids == init + [id];
      SweptIsSound(db, reconcilers, worlds, init);
      var mid := Swept(db, reconcilers, worlds, init);
      SweptByOne(db, reconcilers, worlds, ids);
      ReconciledIsSound(mid, reconcilers, worlds(last), id);
      SweepsOnlyNext(db, mid, Reconciled(mid, reconcilers, worlds(last), id), init, id);
    }
  }

  lemma SweptByOne(db: AppDb, reconcilers: seq<Reconciler>, worlds: nat -> World, ids: seq<string>)
    requires ids != []
    ensures
      var last := |ids| - 1;
      var mid := Swept(db, reconcilers, worlds, ids[..last]);
      ids[last] in mid.receipts ==> Swept(db, reconcilers, worlds, ids) == Reconciled(mid, reconcilers, worlds(last), ids[last])
  {}

  lemma {:induction false} UnfinalizedListsAll(receipts: map<string, Receipt>, order: seq<string>)
    requires forall id :: id in order ==> id in receipts
    ensures forall id :: id in Unfinalized(receipts, order) <==> id in order && receipts[id].state != ReceiptFinalized
  {
    if order != [] { UnfinalizedListsAll(receipts, order[1..]); }
  }

  // ---- The shape of each commit ----

  lemma OpenedShape(db: AppDb, c: Contract, receiptId: string, attemptId: string)
    requires receiptId !in db.receipts && receiptId !in db.attempts
    ensures Touches(db, Opened(db, c, receiptId, attemptId), receiptId,
      NewReceipt(c, receiptId).(state := Attempting), NewAttempt(receiptId, attemptId))
    ensures c.idempotencyKey.Some? ==> c.idempotencyKey.value in Opened(db, c, receiptId, attemptId).keys
  {}

  lemma MarkedShape(db: AppDb, receiptId: string, attemptId: string)
    requires receiptId in db.receipts && receiptId in db.attempts
    requires db.attempts[receiptId] == [NewAttempt(receiptId, attemptId)]
    ensures Touches(db, Marked(db, receiptId, attemptId), receiptId,
      db.receipts[receiptId], NewAttempt(receiptId, attemptId).(state := Invoked))
    ensures Marked(db, receiptId, attemptId).keys == db.keys
  {
    UpsertedOnly(db.attempts[receiptId], NewAttempt(receiptId, attemptId).(state := Invoked));
  }

  /** The last commit, whatever the receipt has become in the meantime. */
  lemma FinalizedShape(
      db: AppDb, c: Contract, receiptId: string, attemptId: string, outcome: AppOutcome, evidence: Payload)
    requires receiptId in db.receipts && SoundReceipt(db, receiptId) && db.attempts[receiptId][0].id == attemptId
    ensures Touches(db, Finalized(db, c, receiptId, attemptId, outcome, evidence), receiptId,
      db.receipts[receiptId].(state := ReceiptFinalized, outcome := Some(outcome), metadata := c.metadata),
      Attempt(attemptId, receiptId, 1, AttemptFinalized, Some(outcome), evidence))
  {
    UpsertedOnly(db.attempts[receiptId], Attempt(attemptId, receiptId, 1, AttemptFinalized, Some(outcome), evidence));
  }

  lemma FinalizedKey(
      db: AppDb, c: Contract, receiptId: string, attemptId: string, outcome: AppOutcome, evidence: Payload)
    requires c.idempotencyKey.Some?
    ensures
      var after := Finalized(db, c, receiptId, attemptId, outcome, evidence);
      && c.idempotencyKey.value in after.keys
      && after.keys[c.idempotencyKey.value].receiptId == Some(receiptId)
      && after.keys[c.idempotencyKey.value].outcome == Some(outcome)
      && (after.keys[c.idempotencyKey.value].state == KeyCompleted <==> outcome == Succeeded)
      && (after.keys[c.idempotencyKey.value].state == KeyUnknown <==> outcome == Unknown)
      && (after.keys[c.idempotencyKey.value].state == KeyFailed <==> outcome in {Failed, Cancelled})
  {}

  /** The startup sweep leaves nothing unfinished, so a second sweep has nothing to do. */
  lemma SweepSettlesEverything(db: AppDb, reconcilers: seq<Reconciler>, worlds: nat -> World)
    requires SoundDb(db)
    ensures
      var after := Swept(db, reconcilers, worlds, db.ListUnfinalized());
      && SoundDb(after) && after.keys == db.keys && after.receipts.Keys == db.receipts.Keys
      && (forall id :: id in after.receipts ==> after.receipts[id].state == ReceiptFinalized)
      && (forall id :: id in db.receipts && db.receipts[id].state == ReceiptFinalized ==>
            after.receipts[id] == db.receipts[id])
      && after.ListUnfinalized() == []
  {
    var ids := db.ListUnfinalized();
    UnfinalizedListsAll(db.receipts, db.receiptOrder);
    SweptIsSound(db, reconcilers, worlds, ids);
    var after := Swept(db, reconcilers, worlds, ids);
    var rest := Unfinalized(after.receipts, after.receiptOrder);
    assert rest == [] || rest[0] in rest;
    UnfinalizedListsAll(after.receipts, after.receiptOrder);
  }
}
