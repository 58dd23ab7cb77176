/** Both planes together: the lifecycle admits tool calls and the execution plane runs them, under an
    idempotency key derived from task, tool, action and arguments. */
module ToolCalls {
  import opened Wrappers
  import opened AppContracts
  import AppTables
  import App = SupervisorProtocol
  import Life = Lifecycle
  import Reconcile
  import Supervisor
  import Transitions

  datatype ToolCall = ToolCall(taskId: string, tool: string, action: string, arguments: string)

  /** SHA-256 over the canonical JSON of a call. */
  type Derivation = ToolCall -> string

  ghost predicate Injective(derive: Derivation) {
    forall a, b :: derive(a) == derive(b) ==> a == b
  }

  function CallOf(flight: Life.Flight): ToolCall {
    ToolCall(flight.id, flight.request.tool, flight.request.action, flight.request.arguments)
  }

  /** The contract the execution service writes for a call. */
  predicate Carries(derive: Derivation, c: Contract, call: ToolCall) {
    c.idempotencyKey == Some(derive(call)) && c.target == call.tool
    && c.operation == "tool." + call.tool + "." + call.action
  }

  /** `dispatched` names the call of each execution, `reserved` the calls whose key was reserved. */
  datatype Planes = Planes(life: Life.System, app: App.System, dispatched: map<nat, ToolCall>, reserved: set<ToolCall>)

  /** An admitted call becomes an execution by `Dispatch`; everything else is a step of one plane. */
  datatype Move =
    | OfLife(op: Life.Op)
    | Dispatch(p: nat, q: nat, c: Contract, ids: Supervisor.Ids)
    | OfApp(step: App.Step)

  datatype Setting = Setting(derive: Derivation, life: Life.Settings, app: Supervisor.Rules)

  predicate Reserves(s: App.System, step: App.Step) {
    step.Reserve? && App.At(s, step.p, App.Started) && !Taken(s, step.p)
  }

  predicate Taken(s: App.System, q: nat)
    requires q in s.flights
  {
    s.flights[q].c.idempotencyKey.Some? && s.flights[q].c.idempotencyKey.value in s.db.keys
  }

  function Next(x: Setting, s: Planes, move: Move): Planes {
    match move
    case OfLife(op) => s.(life := Life.Next(x.life, s.life, op))
    case Dispatch(p, q, c, ids) =>
      if p in s.life.flights && Carries(x.derive, c, CallOf(s.life.flights[p])) && q !in s.app.flights
        && App.FreshId(s.app, ids.receipt)
      then s.(app := App.Next(x.app, s.app, App.Start(q, c, ids)),
              dispatched := s.dispatched[q := CallOf(s.life.flights[p])])
      else s
    case OfApp(step) =>
      if step.Start? then s
      else s.(app := App.Next(x.app, s.app, step),
              reserved := if Reserves(s.app, step) && step.p in s.dispatched then s.reserved + {s.dispatched[step.p]}
                          else s.reserved)
  }

  function Run(x: Setting, s: Planes, moves: seq<Move>): Planes {
    if moves == [] then s else Next(x, Run(x, s, moves[..|moves| - 1]), moves[|moves| - 1])
  }

  const AT_REST := Planes(Life.EMPTY, App.AT_REST, map[], {})

  /** The call an invocation or an execution was dispatched for. */
  ghost predicate Dispatched(derive: Derivation, s: Planes, q: nat)
    requires q in s.app.flights
  {
    q in s.dispatched && Carries(derive, s.app.flights[q].c, s.dispatched[q])
  }

  ghost predicate FromACall(derive: Derivation, c: Contract) {
    exists call :: Carries(derive, c, call)
  }

  /** Keys are those of reserved calls, executions and invocations those of dispatched ones. */
  ghost predicate Inv(derive: Derivation, s: Planes) {
    && App.Disjoint(s.app)
    && (forall q {:trigger Dispatched(derive, s, q)} :: q in s.app.flights ==> Dispatched(derive, s, q))
    && (forall i {:trigger s.app.calls[i]} :: 0 <= i < |s.app.calls| ==> FromACall(derive, s.app.calls[i].c))
    && KeysAreReserved(derive, s.app.db.keys.Keys, s.reserved)
  }

  ghost predicate KeysAreReserved(derive: Derivation, keys: set<string>, reserved: set<ToolCall>) {
    && (forall call :: call in reserved ==> derive(call) in keys)
    && (forall key :: key in keys ==> exists call :: call in reserved && derive(call) == key)
  }

  /** Only a reservation adds a key: from then on its execution's commits find it there. */
  lemma KeysAfter(rules: Supervisor.Rules, s: App.System, step: App.Step)
    requires App.Disjoint(s)
    ensures App.Next(rules, s, step).db.keys.Keys ==
      s.db.keys.Keys + if Reserves(s, step) && s.flights[step.p].c.idempotencyKey.Some?
                       then {s.flights[step.p].c.idempotencyKey.value} else {}
  {
    match step
    case Open(p) => if p in s.flights { assert App.Backed(s.db, s.flights[p]); }
    case Finish(p) => if p in s.flights { assert App.Backed(s.db, s.flights[p]); }
    case Settle(id, reconcilers, world) => if id in s.db.receipts { SettlingKeepsKeys(s.db, reconcilers, world, id); }
    case _ =>
  }

  lemma SettlingKeepsKeys(db: AppTables.AppDb, reconcilers: seq<Reconcile.Reconciler>, world: Reconcile.World, id: string)
    requires id in db.receipts
    ensures AppTables.Reconciled(db, reconcilers, world, id).keys == db.keys
  {}

  lemma FlightsAfter(rules: Supervisor.Rules, s: App.System, step: App.Step, q: nat)
    requires !step.Start? && q in App.Next(rules, s, step).flights
    ensures q in s.flights && App.Next(rules, s, step).flights[q].c == s.flights[q].c
  {}

  lemma CallsAfter(rules: Supervisor.Rules, s: App.System, step: App.Step, i: nat)
    requires i < |App.Next(rules, s, step).calls|
    ensures
      if i < |s.calls| then App.Next(rules, s, step).calls[i] == s.calls[i]
      else step.Invoke? && step.p in s.flights && App.Next(rules, s, step).calls[i].c == s.flights[step.p].c
  {}

  lemma ReservingKeeps(derive: Derivation, keys: set<string>, reserved: set<ToolCall>, call: ToolCall)
    requires KeysAreReserved(derive, keys, reserved)
    ensures KeysAreReserved(derive, keys + {derive(call)}, reserved + {call})
  {
    forall key | key in keys + {derive(call)} ensures exists other :: other in reserved + {call} && derive(other) == key {
      if key == derive(call) { assert call in reserved + {call}; }
      else { var other :| other in reserved && derive(other) == key; assert other in reserved + {call}; }
    }
  }

  lemma AppStepKeeps(x: Setting, s: Planes, step: App.Step)
    requires Inv(x.derive, s) && !step.Start?
    ensures Inv(x.derive, Next(x, s, OfApp(step)))
  {
    var t := Next(x, s, OfApp(step));
    App.StepKeepsDisjoint(x.app, s.app, step);
    forall q | q in t.app.flights ensures Dispatched(x.derive, t, q) {
      FlightsAfter(x.app, s.app, step, q);
      assert Dispatched(x.derive, s, q);
    }
    forall i | 0 <= i < |t.app.calls| ensures FromACall(x.derive, t.app.calls[i].c) {
      CallsAfter(x.app, s.app, step, i);
      if i < |s.app.calls| { assert FromACall(x.derive, s.app.calls[i].c); }
      else { assert Dispatched(x.derive, s, step.p); }
    }
    KeysAfter(x.app, s.app, step);
    if Reserves(s.app, step) {
      assert Dispatched(x.derive, s, step.p);
      ReservingKeeps(x.derive, s.app.db.keys.Keys, s.reserved, s.dispatched[step.p]);
    }
  }

  lemma DispatchKeeps(x: Setting, s: Planes, p: nat, q: nat, c: Contract, ids: Supervisor.Ids)
    requires Inv(x.derive, s)
    ensures Inv(x.derive, Next(x, s, Dispatch(p, q, c, ids)))
  {
    var t := Next(x, s, Dispatch(p, q, c, ids));
    App.StepKeepsDisjoint(x.app, s.app, App.Start(q, c, ids));
    if t != s {
      forall r | r in t.app.flights ensures Dispatched(x.derive, t, r) {
        if r != q { assert Dispatched(x.derive, s, r); }
      }
      assert t.app.calls == s.app.calls && t.app.db == s.app.db;
    }
  }

  lemma MoveKeeps(x: Setting, s: Planes, move: Move)
    requires Inv(x.derive, s)
    ensures Inv(x.derive, Next(x, s, move))
  {
    match move
    case OfLife(op) => LifeKeeps(x, s, op);
    case Dispatch(p, q, c, ids) => DispatchKeeps(x, s, p, q, c, ids);
    case OfApp(step) => if !step.Start? { AppStepKeeps(x, s, step); }
  }

  lemma LifeKeeps(x: Setting, s: Planes, op: Life.Op)
    requires Inv(x.derive, s)
    ensures Inv(x.derive, Next(x, s, OfLife(op)))
  {
    var t := Next(x, s, OfLife(op));
    forall q | q in t.app.flights ensures Dispatched(x.derive, t, q) { assert Dispatched(x.derive, s, q); }
  }

  lemma {:induction false} RunKeeps(x: Setting, s: Planes, moves: seq<Move>)
    requires Inv(x.derive, s)
    ensures Inv(x.derive, Run(x, s, moves))
  {
    if moves != [] {
      RunKeeps(x, s, moves[..|moves| - 1]);
      MoveKeeps(x, Run(x, s, moves[..|moves| - 1]), moves[|moves| - 1]);
    }
  }

  lemma ReachedIsSound(x: Setting, moves: seq<Move>)
    ensures Inv(x.derive, Run(x, AT_REST, moves))
  {
    RunKeeps(x, AT_REST, moves);
  }

  /** Over every run of both planes each tool call enters an adapter at most once, ever, and nothing
      but tool calls does. */
  lemma EachToolCallRunsOnce(x: Setting, moves: seq<Move>, i: nat, j: nat, call: ToolCall)
    requires
      var calls := Run(x, AT_REST, moves).app.calls;
      i < |calls| && j < |calls|
    ensures
      var calls := Run(x, AT_REST, moves).app.calls;
      && FromACall(x.derive, calls[i].c)
      && (Carries(x.derive, calls[i].c, call) && Carries(x.derive, calls[j].c, call) ==> i == j)
  {
    ReachedIsSound(x, moves);
    var s := Run(x, AT_REST, moves).app;
    if i < j { assert App.Distinct(s.calls[i], s.calls[j]); }
    if j < i { assert App.Distinct(s.calls[j], s.calls[i]); }
    assert FromACall(x.derive, s.calls[i].c);
  }

  /** An execution is refused at its reservation exactly when its own call was reserved before: a
      repetition never gets through, and no other call is mistaken for one. */
  lemma RefusedExactlyIfRepeated(x: Setting, moves: seq<Move>, q: nat)
    requires Injective(x.derive)
    requires App.At(Run(x, AT_REST, moves).app, q, App.Started)
    ensures
      var s := Run(x, AT_REST, moves);
      && q in s.dispatched
      && (App.Next(x.app, s.app, App.Reserve(q)) == s.app.(flights := s.app.flights - {q})
          <==> s.dispatched[q] in s.reserved)
  {
    ReachedIsSound(x, moves);
    var s := Run(x, AT_REST, moves);
    assert Dispatched(x.derive, s, q);
    var t := App.Next(x.app, s.app, App.Reserve(q));
    if !Taken(s.app, q) { assert q in t.flights; }
  }

  /** The lifecycle itself lets a failed call be tried again: a FAILED record does not suppress it. */
  lemma FailureIsLetThrough(
      h: Life.Hashes, f: Life.TaskFile, seen: Transitions.TaskState, request: Life.Request, needed: set<string>, now: int)
    requires Life.Prior(f.records, request) == Some(Life.ExecFailed)
    ensures Life.Admission(h, f, seen, request, needed, now) == Life.Admission(h, f.(records := []), seen, request, needed, now)
  {}

  /** But once the execution of a call is over, however it ended, the call never reaches an adapter
      again, whatever recoveries, grants and admissions follow in the lifecycle. */
  lemma {:induction false} EndedCallNeverRunsAgain(x: Setting, s: Planes, moves: seq<Move>, call: ToolCall)
    requires App.Retired(s.app, x.derive(call))
    ensures
      var t := Run(x, s, moves);
      && App.Retired(t.app, x.derive(call)) && s.app.calls <= t.app.calls
      && forall i :: |s.app.calls| <= i < |t.app.calls| ==> !Carries(x.derive, t.app.calls[i].c, call)
  {
    if moves != [] {
      var mid := Run(x, s, moves[..|moves| - 1]);
      EndedCallNeverRunsAgain(x, s, moves[..|moves| - 1], call);
      MoveKeepsRetired(x, mid, moves[|moves| - 1], x.derive(call));
    }
  }

  lemma MoveKeepsRetired(x: Setting, s: Planes, move: Move, key: string)
    requires App.Retired(s.app, key)
    ensures App.Retired(Next(x, s, move).app, key) && App.CallsWithout(s.app, Next(x, s, move).app, key)
  {
    match move
    case OfLife(op) =>
    case Dispatch(p, q, c, ids) => App.RetiredStays(x.app, s.app, App.Start(q, c, ids), key);
    case OfApp(step) => App.RetiredStays(x.app, s.app, step, key);
  }
}
