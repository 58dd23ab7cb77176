/** The only writer of the audit table, and what any interleaving of nested transactions around
    it leaves durable. */
module AuditSink {
  import opened Wrappers
  import opened AuditChain
  import opened Transactions

  /** The business content of an event. */
  datatype AuditEvent = AuditEvent(
    eventId: string, requestId: Option<string>, taskId: Option<string>, timestamp: int,
    actor: string, component: string, eventType: string, action: string, result: string,
    metadata: map<string, string>)

  /** The database: the audit table and everything else. */
  datatype Database<T> = Database(tables: T, audit: seq<Row<AuditEvent>>)
  {
    function Recorded(h: Scheme<AuditEvent>, event: AuditEvent): Database<T> {
      this.(audit := Appended(h, audit, event))
    }
  }

  class SqliteAuditSink<T> {
    const scheme: Scheme<AuditEvent>
    const uow: UnitOfWork<Database<T>>

    constructor (scheme: Scheme<AuditEvent>, uow: UnitOfWork<Database<T>>)
      ensures this.scheme == scheme && this.uow == uow
    {
      this.scheme, this.uow := scheme, uow;
    }

    /** Links the event to the global tip, whatever chain fields the caller supplied. */
    method Record(event: AuditEvent) returns (row: Row<AuditEvent>)
      modifies uow
      ensures uow.Snapshot() == RecordedIn(scheme, old(uow.Snapshot()), event)
      ensures uow.working.audit == old(uow.working.audit) + [row]
      ensures row.content == event
    {
      uow.Enter();
      var rows := uow.working.audit;
      var sequenceNumber, prevHash;
      if rows == [] {
        sequenceNumber, prevHash := 1, scheme.genesis;
      } else {
        var tip := rows[|rows| - 1];
        sequenceNumber, prevHash := tip.sequenceNumber + 1, tip.eventHash;
      }
      row := Row(event, sequenceNumber, prevHash, scheme.hash(event, prevHash));
      uow.Write(uow.working.(audit := rows + [row]));
      uow.Exit(true);
    }
  }

  function RecordedIn<T>(
      h: Scheme<AuditEvent>, s: Session<Database<T>>, event: AuditEvent): Session<Database<T>> {
    s.Entered().Written(s.working.Recorded(h, event)).Exited(true)
  }

  /** One thing that can happen on the connection. `Write` stands for any other statement: it may
      change every table but the audit table, which nothing else writes. */
  datatype Op<T> = Enter | Exit(ok: bool) | Write(tables: T) | Record(event: AuditEvent) | Crash

  function Step<T>(h: Scheme<AuditEvent>, s: Session<Database<T>>, op: Op<T>): Session<Database<T>> {
    match op
    case Enter => s.Entered()
    case Exit(ok) => if s.depth > 0 then s.Exited(ok) else s
    case Write(tables) => if s.depth > 0 then s.Written(s.working.(tables := tables)) else s
    case Record(event) => RecordedIn(h, s, event)
    case Crash => s.Crashed()
  }

  function Run<T>(h: Scheme<AuditEvent>, s: Session<Database<T>>, ops: seq<Op<T>>): Session<Database<T>>
    decreases |ops|
  {
    if ops == [] then s else Run(h, Step(h, s, ops[0]), ops[1..])
  }

  ghost predicate SoundSession<T>(h: Scheme<AuditEvent>, s: Session<Database<T>>) {
    && s.Consistent()
    && Chained(h, s.durable.audit) && Chained(h, s.working.audit)
    && s.durable.audit <= s.working.audit
  }

  lemma StepKeepsSound<T>(h: Scheme<AuditEvent>, s: Session<Database<T>>, op: Op<T>)
    requires SoundSession(h, s)
    ensures SoundSession(h, Step(h, s, op))
    ensures s.durable.audit <= Step(h, s, op).durable.audit
  {
    if op.Record? { AppendedIsChained(h, s.working.audit, op.event); }
  }

  /** However transactions nest, commit, roll back and crash, the durable audit table verifies,
      and what was ever durable in it stays, in place. */
  lemma {:induction false} DurableAuditVerifies<T>(
      h: Scheme<AuditEvent>, s: Session<Database<T>>, ops: seq<Op<T>>)
    requires SoundSession(h, s)
    ensures SoundSession(h, Run(h, s, ops))
    ensures s.durable.audit <= Run(h, s, ops).durable.audit
    decreases |ops|
  {
    if ops != [] {
      StepKeepsSound(h, s, ops[0]);
      DurableAuditVerifies(h, Step(h, s, ops[0]), ops[1..]);
    }
  }

  /** So the replay finds nothing to report after any run from an empty database. */
  lemma NoRunBreaksTheAudit<T>(h: Scheme<AuditEvent>, tables: T, ops: seq<Op<T>>)
    ensures
      var empty := Database(tables, []);
      var rows := Run(h, Session(0, empty, empty), ops).durable.audit;
      Breaks(h, rows, |rows|) == []
  {
    var s := Session(0, Database(tables, []), Database(tables, []));
    DurableAuditVerifies(h, s, ops);
    NoBreaksIffChained(h, Run(h, s, ops).durable.audit);
  }
}
