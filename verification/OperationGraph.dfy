/** The dependency graph of a plan: its layered topological order, cycle detection and the
    compensation chain. */
module OperationGraph {
  import opened Wrappers
  import opened Text

  datatype Node = Node(
    stepId: string, dependsOn: seq<string>, compensationTool: Option<string>, failurePolicy: string)

  datatype GraphError = MissingDependency(stepId: string, dependency: string) | ContainsCycle

  /** Which steps each step depends on. */
  type Graph = map<string, set<string>>

  /** `{n.step_id: n for n in nodes}`: a later node with the same id wins. */
  function ById(nodes: seq<Node>): map<string, Node> {
    if nodes == [] then map[]
    else
      var last := nodes[|nodes| - 1];
      ById(nodes[..|nodes| - 1])[last.stepId := last]
  }

  function Deps(nodes: seq<Node>): Graph {
    map id | id in ById(nodes) :: set d | d in ById(nodes)[id].dependsOn
  }

  // ---- Layers: the reference definition of the order ----

  /** The steps all of whose dependencies are done. */
  function Enabled(g: Graph, done: set<string>): set<string> {
    set n | n in g && g[n] <= done
  }

  /** The steps settled within k rounds. */
  function Settled(g: Graph, k: nat): set<string> {
    if k == 0 then {} else Enabled(g, Settled(g, k - 1))
  }

  function Layer(g: Graph, k: nat): set<string> {
    Settled(g, k + 1) - Settled(g, k)
  }

  /** Each of the first k rounds settles a step. */
  ghost predicate Progress(g: Graph, k: nat) {
    forall j :: 0 <= j < k ==> Layer(g, j) != {}
  }

  lemma {:induction false} ProgressIsBounded(g: Graph, k: nat)
    requires Progress(g, k)
    ensures k <= |Settled(g, k)| <= |g|
  {
    if k > 0 {
      ProgressIsBounded(g, k - 1);
      SettledGrows(g, k - 1);
      NoDifference(Settled(g, k), Settled(g, k - 1));
      assert Layer(g, k - 1) != {};
      CardinalityGrows(Settled(g, k - 1), Settled(g, k));
      SubsetSize(Settled(g, k), g.Keys);
      assert |g| == |g.Keys|;
    }
  }

  ghost function Order(g: Graph, k: nat): seq<string> {
    if k == 0 then [] else Order(g, k - 1) + Sorted(Layer(g, k - 1))
  }

  /** Every step is settled eventually. */
  ghost predicate Resolvable(g: Graph) {
    Settled(g, |g|) == g.Keys
  }

  function Nodes(byId: map<string, Node>, ids: seq<string>): seq<Node>
    requires Elems(ids) <= byId.Keys
  {
    seq(|ids|, i requires 0 <= i < |ids| => assert ids[i] in Elems(ids); byId[ids[i]])
  }

  lemma {:induction false} SettledGrows(g: Graph, k: nat)
    ensures Settled(g, k) <= Settled(g, k + 1) <= g.Keys
  {
    if k > 0 { SettledGrows(g, k - 1); }
  }

  lemma {:induction false} SettledStays(g: Graph, k: nat, m: nat)
    requires k <= m && Layer(g, k) == {}
    ensures Settled(g, m) == Settled(g, k) && Order(g, m) == Order(g, k)
  {
    if k < m {
      SettledStays(g, k, m - 1);
      SettledGrows(g, k);
      NoDifference(Settled(g, k + 1), Settled(g, k));
      assert Settled(g, m) == Settled(g, k + 1);
      assert Layer(g, m - 1) == {};
      SortedEmpty();
    }
  }

  lemma {:induction false} OrderCoversSettled(g: Graph, k: nat)
    ensures Elems(Order(g, k)) == Settled(g, k)
  {
    if k > 0 {
      var before, line := Order(g, k - 1), Sorted(Layer(g, k - 1));
      OrderCoversSettled(g, k - 1);
      SettledGrows(g, k - 1);
      ElemsConcat(before, line);
    }
  }

  // ---- The algorithm ----

  method TopologicalOrder(nodes: seq<Node>) returns (r: Result<seq<Node>, GraphError>)
    ensures r.Success? <==> Resolvable(Deps(nodes))
    ensures r.Success? ==>
      && Elems(Order(Deps(nodes), |Deps(nodes)|)) <= ById(nodes).Keys
      && r.value == Nodes(ById(nodes), Order(Deps(nodes), |Deps(nodes)|))
    ensures r.Failure? ==> r.error == ContainsCycle
  {
    var byId := ById(nodes);
    var deps := Deps(nodes);
    ghost var g, k := deps, 0;
    var ordered: seq<string> := [];
    RemainingAtStart(g);
    while deps != map[]
      invariant deps == Remaining(g, Settled(g, k))
      invariant Progress(g, k)
      invariant ordered == Order(g, k)
      decreases deps.Keys
    {
      var ready := set sid | sid in deps && deps[sid] == {};
      ReadyIsLayer(g, k);
      if ready == {} {
        NotResolvable(g, k);
        return Failure(ContainsCycle);
      }
      var line := Sort(ready);
      ordered, deps := EmitLine(g, Settled(g, k), line, ordered, deps);
      LineSettled(g, k, line);
      k := k + 1;
    }
    AllSettled(g, k);
    OrderCoversSettled(g, k);
    r := Success(Nodes(byId, ordered));
  }

  /** The inner loop: each ready step is emitted and struck from everyone's open dependencies. */
  method EmitLine(ghost g: Graph, ghost settled: set<string>, line: seq<string>, start: seq<string>, open: Graph)
    returns (ordered: seq<string>, deps: Graph)
    requires open == Remaining(g, settled)
    ensures ordered == start + line && deps == Remaining(g, settled + Elems(line))
  {
    ordered, deps := start, open;
    assert settled + Elems(line[..0]) == settled;
    for i := 0 to |line|
      invariant ordered == start + line[..i] && deps == Remaining(g, settled + Elems(line[..i]))
    {
      var sid := line[i];
      ordered := ordered + [sid];
      RemainingWithout(g, settled, line, i);
      deps := map s | s in deps && s != sid :: deps[s] - {sid};
    }
    assert line[..|line|] == line;
  }

  lemma NoDifference(a: set<string>, b: set<string>)
    ensures a - b == {} <==> a <= b
  {
    assert forall x :: x in a ==> x in b || x in a - b;
  }

  /** The steps with nothing left to wait for are the next layer. */
  lemma ReadyIsLayer(g: Graph, k: nat)
    ensures
      var deps := Remaining(g, Settled(g, k));
      && (set sid | sid in deps && deps[sid] == {}) == Layer(g, k)
      && (deps != map[] ==> Settled(g, k) != g.Keys)
  {
    forall n | n in g { NoDifference(g[n], Settled(g, k)); }
  }

  lemma RemainingAtStart(g: Graph)
    ensures Remaining(g, {}) == g
  {
    assert forall n :: n in g ==> g[n] - {} == g[n];
  }

  lemma RemainingWithout(g: Graph, settled: set<string>, line: seq<string>, i: nat)
    requires i < |line|
    ensures
      var deps := Remaining(g, settled + Elems(line[..i]));
      Remaining(g, settled + Elems(line[..i + 1])) == map s | s in deps && s != line[i] :: deps[s] - {line[i]}
  {
    assert line[..i + 1] == line[..i] + [line[i]];
    assert settled + Elems(line[..i + 1]) == settled + Elems(line[..i]) + {line[i]};
    var done := settled + Elems(line[..i]);
    forall n | n in g ensures g[n] - (done + {line[i]}) == g[n] - done - {line[i]} {}
  }

  lemma LineSettled(g: Graph, k: nat, line: seq<string>)
    requires Layer(g, k) != {} && Progress(g, k) && line == Sorted(Layer(g, k))
    ensures Settled(g, k) + Elems(line) == Settled(g, k + 1)
    ensures Order(g, k) + line == Order(g, k + 1)
    ensures Progress(g, k + 1)
    ensures Remaining(g, Settled(g, k + 1)).Keys < Remaining(g, Settled(g, k)).Keys
  {
    SettledGrows(g, k);
    var x :| x in Layer(g, k);
    assert x in Remaining(g, Settled(g, k)).Keys && x !in Remaining(g, Settled(g, k + 1)).Keys;
  }

  lemma AllSettled(g: Graph, k: nat)
    requires Remaining(g, Settled(g, k)) == map[] && Progress(g, k)
    ensures Settled(g, k) == g.Keys && Resolvable(g) && Order(g, k) == Order(g, |g|)
  {
    NothingRemains(g, Settled(g, k));
    ProgressIsBounded(g, k);
    SettledGrows(g, k);
    if k > 0 { SettledGrows(g, k - 1); }
    assert Settled(g, k) == g.Keys && Layer(g, k) == {};
    assert |g| == |g.Keys|;
    SettledStays(g, k, |g|);
  }

  lemma NothingRemains(g: Graph, done: set<string>)
    requires Remaining(g, done) == map[]
    ensures g.Keys <= done
  {
    assert forall n :: n in g ==> n in done || n in Remaining(g, done);
  }

  /** The dependencies still open once `done` is settled. */
  function Remaining(g: Graph, done: set<string>): Graph {
    map n | n in g && n !in done :: g[n] - done
  }

  lemma NotResolvable(g: Graph, k: nat)
    requires Layer(g, k) == {} && Settled(g, k) != g.Keys && Progress(g, k)
    ensures !Resolvable(g)
  {
    ProgressIsBounded(g, k);
    SettledStays(g, k, |g|);
  }

  lemma CardinalityGrows(a: set<string>, b: set<string>)
    requires a <= b && a != b
    ensures |a| < |b|
  {
    var x :| x in b && x !in a;
    assert |b| == |a| + |b - a|;
    assert x in b - a;
  }

  lemma SubsetSize(a: set<string>, b: set<string>)
    requires a <= b
    ensures |a| <= |b|
  {
    if a != b { CardinalityGrows(a, b); }
  }

  // ---- Validation: missing dependencies and cycles ----

  ghost predicate KnownDependencies(nodes: seq<Node>) {
    forall n, d :: n in nodes && d in n.dependsOn ==> d in ById(nodes)
  }

  method Validate(nodes: seq<Node>) returns (r: Result<(), GraphError>)
    ensures r.Success? <==> KnownDependencies(nodes) && !exists p :: IsCycle(Deps(nodes), p)
    ensures r == Failure(ContainsCycle) <==> KnownDependencies(nodes) && exists p :: IsCycle(Deps(nodes), p)
  {
    var ids := ById(nodes).Keys;
    for i := 0 to |nodes|
      invariant forall j, d :: 0 <= j < i && d in nodes[j].dependsOn ==> d in ids
    {
      for j := 0 to |nodes[i].dependsOn|
        invariant forall m :: 0 <= m < j ==> nodes[i].dependsOn[m] in ids
      {
        if nodes[i].dependsOn[j] !in ids {
          return Failure(MissingDependency(nodes[i].stepId, nodes[i].dependsOn[j]));
        }
      }
    }
    KnownMeansClosed(nodes);
    ResolvableIffAcyclic(Deps(nodes));
    var order := TopologicalOrder(nodes);
    r := if order.Success? then Success(()) else Failure(order.error);
  }

  ghost predicate Closed(g: Graph) {
    forall n, d :: n in g && d in g[n] ==> d in g
  }

  /** Each step of a chain depends on the next one. */
  ghost predicate Chain(g: Graph, p: seq<string>) {
    p != [] && forall i :: 0 <= i < |p| - 1 ==> p[i] in g && p[i + 1] in g[p[i]]
  }

  ghost predicate IsCycle(g: Graph, p: seq<string>) {
    Chain(g, p) && |p| > 1 && p[0] == p[|p| - 1]
  }

  lemma {:induction false} ByIdFacts(nodes: seq<Node>)
    ensures forall n :: n in nodes ==> n.stepId in ById(nodes)
    ensures forall id :: id in ById(nodes) ==> ById(nodes)[id] in nodes && ById(nodes)[id].stepId == id
  {
    if nodes != [] {
      var init := nodes[..|nodes| - 1];
      ByIdFacts(init);
      assert nodes == init + [nodes[|nodes| - 1]];
    }
  }

  lemma KnownMeansClosed(nodes: seq<Node>)
    requires KnownDependencies(nodes)
    ensures Closed(Deps(nodes))
  {
    ByIdFacts(nodes);
  }

  lemma {:induction false} ChainsAreShort(g: Graph, k: nat, p: seq<string>)
    requires Chain(g, p) && p[0] in Settled(g, k)
    ensures |p| <= k
    ensures p[|p| - 1] in Settled(g, k - |p| + 1)
  {
    if |p| > 1 {
      assert p[1] in g[p[0]];
      ChainsAreShort(g, k - 1, p[1..]);
    }
  }

  lemma {:induction false} LongChain(g: Graph, k: nat, n: string) returns (p: seq<string>)
    requires Closed(g) && n in g && n !in Settled(g, k)
    ensures Chain(g, p) && p[0] == n && |p| == k + 1
  {
    if k == 0 {
      p := [n];
    } else {
      var d :| d in g[n] && d !in Settled(g, k - 1);
      var q := LongChain(g, k - 1, d);
      p := [n] + q;
    }
  }

  lemma {:induction false} Pigeonhole(p: seq<string>, s: set<string>)
    requires Elems(p) <= s && |p| > |s|
    ensures exists i, j :: 0 <= i < j < |p| && p[i] == p[j]
    decreases |p|
  {
    assert p != [];
    var last := p[|p| - 1];
    var init := p[..|p| - 1];
    ElemsConcat(init, [last]);
    assert p == init + [last];
    if last in init {
      var i :| 0 <= i < |init| && init[i] == last;
      assert p[i] == p[|p| - 1];
    } else {
      assert last in Elems([last]);
      Pigeonhole(init, s - {last});
      var i, j :| 0 <= i < j < |init| && init[i] == init[j];
      assert p[i] == p[j];
    }
  }

  lemma {:induction false} ChainStaysInside(g: Graph, p: seq<string>)
    requires Closed(g) && Chain(g, p) && p[0] in g
    ensures Elems(p) <= g.Keys
    decreases |p|
  {
    if |p| > 1 { ChainStaysInside(g, p[1..]); }
    assert p == [p[0]] + p[1..];
    ElemsConcat([p[0]], p[1..]);
  }

  lemma {:induction false} CycleNeverSettles(g: Graph, k: nat, p: seq<string>)
    requires IsCycle(g, p)
    ensures p[0] !in Settled(g, k)
    decreases k
  {
    if p[0] in Settled(g, k) {
      ChainsAreShort(g, k, p);
      CycleNeverSettles(g, k - |p| + 1, p);
    }
  }

  /** The sort fails on a validated graph exactly when some step depends on itself. */
  lemma ResolvableIffAcyclic(g: Graph)
    requires Closed(g)
    ensures Resolvable(g) <==> !exists p :: IsCycle(g, p)
  {
    if p :| IsCycle(g, p) {
      CycleNeverSettles(g, |g|, p);
      assert p[0] in g;
    }
    SettledGrows(g, |g|);
    if !Resolvable(g) {
      NoDifference(g.Keys, Settled(g, |g|));
      var n :| n in g.Keys - Settled(g, |g|);
      var p := LongChain(g, |g|, n);
      ChainStaysInside(g, p);
      assert |g| == |g.Keys|;
      Pigeonhole(p, g.Keys);
      var i, j :| 0 <= i < j < |p| && p[i] == p[j];
      assert IsCycle(g, p[i..j + 1]);
    }
  }

  // ---- What the order is: steps sorted by (longest dependency chain, id) ----

  /** The length in edges of the longest dependency chain out of a settled step. */
  function Level(g: Graph, n: string, k: nat): nat
    requires n in Settled(g, k)
  {
    if n in Settled(g, k - 1) then Level(g, n, k - 1) else k - 1
  }

  lemma {:induction false} LevelIsLayer(g: Graph, n: string, k: nat)
    requires n in Settled(g, k)
    ensures Level(g, n, k) < k && n in Layer(g, Level(g, n, k))
  {
    if n in Settled(g, k - 1) { LevelIsLayer(g, n, k - 1); }
  }

  lemma {:induction false} LayerIsLevel(g: Graph, n: string, j: nat, k: nat)
    requires j < k && n in Layer(g, j)
    ensures n in Settled(g, k) && Level(g, n, k) == j
  {
    if j < k - 1 { LayerIsLevel(g, n, j, k - 1); SettledGrows(g, k - 1); }
  }

  /** Level is what its name says, independently of the rounds that compute it. */
  lemma LevelIsLongestChain(g: Graph, n: string, k: nat)
    requires Closed(g) && n in Settled(g, k)
    ensures exists p :: Chain(g, p) && p[0] == n && |p| == Level(g, n, k) + 1
    ensures forall p :: Chain(g, p) && p[0] == n ==> |p| <= Level(g, n, k) + 1
  {
    LevelIsLayer(g, n, k);
    var l := Level(g, n, k);
    SettledGrows(g, l);
    var p := LongChain(g, l, n);
    forall q | Chain(g, q) && q[0] == n ensures |q| <= l + 1 {
      ChainsAreShort(g, l + 1, q);
    }
  }

  lemma ChainDescends(g: Graph, k: nat, p: seq<string>)
    requires Chain(g, p) && |p| > 1 && p[0] in Settled(g, k)
    ensures p[|p| - 1] in Settled(g, k) && Level(g, p[|p| - 1], k) < Level(g, p[0], k)
  {
    LevelIsLayer(g, p[0], k);
    var l, last := Level(g, p[0], k), p[|p| - 1];
    ChainsAreShort(g, l + 1, p);
    var m := l + 2 - |p|;
    LevelIsLayer(g, last, m);
    LayerIsLevel(g, last, Level(g, last, m), k);
  }

  ghost predicate RankLess(g: Graph, a: string, b: string)
    requires a in Settled(g, |g|) && b in Settled(g, |g|)
  {
    var la, lb := Level(g, a, |g|), Level(g, b, |g|);
    la < lb || (la == lb && Less(a, b))
  }

  /** Strictly ascending by (level, id). */
  ghost predicate RankSorted(g: Graph, ids: seq<string>)
    requires Elems(ids) <= Settled(g, |g|)
  {
    forall i, j :: 0 <= i < j < |ids| ==> InOrder(g, ids, i, j)
  }

  ghost predicate InOrder(g: Graph, ids: seq<string>, i: nat, j: nat)
    requires Elems(ids) <= Settled(g, |g|) && i < |ids| && j < |ids|
  {
    assert ids[i] in Elems(ids) && ids[j] in Elems(ids);
    RankLess(g, ids[i], ids[j])
  }

  lemma LineIsLevel(g: Graph, j: nat, line: seq<string>, i: nat)
    requires j < |g| && line == Sorted(Layer(g, j)) && i < |line|
    ensures line[i] in Settled(g, |g|) && Level(g, line[i], |g|) == j
  {
    assert line[i] in Elems(line);
    LayerIsLevel(g, line[i], j, |g|);
  }

  lemma EarlierIsLower(g: Graph, j: nat, i: nat)
    requires j <= |g| && i < |Order(g, j)|
    ensures Order(g, j)[i] in Settled(g, |g|) && Level(g, Order(g, j)[i], |g|) < j
  {
    var n := Order(g, j)[i];
    assert n in Elems(Order(g, j));
    OrderCoversSettled(g, j);
    LevelIsLayer(g, n, j);
    LayerIsLevel(g, n, Level(g, n, j), |g|);
  }

  lemma OrderInSettled(g: Graph, j: nat)
    requires j <= |g|
    ensures Elems(Order(g, j)) <= Settled(g, |g|)
  {
    forall n | n in Elems(Order(g, j)) ensures n in Settled(g, |g|) {
      var i :| 0 <= i < |Order(g, j)| && Order(g, j)[i] == n;
      EarlierIsLower(g, j, i);
    }
  }

  lemma {:induction false} OrderIsRankSorted(g: Graph, j: nat)
    requires j <= |g|
    ensures Elems(Order(g, j)) <= Settled(g, |g|) && RankSorted(g, Order(g, j))
  {
    OrderInSettled(g, j);
    if j > 0 {
      OrderIsRankSorted(g, j - 1);
      var before, line, ids := Order(g, j - 1), Sorted(Layer(g, j - 1)), Order(g, j);
      forall a, b | 0 <= a < b < |ids| ensures InOrder(g, ids, a, b) {
        if b < |before| {
          assert InOrder(g, before, a, b);
        } else {
          LineIsLevel(g, j - 1, line, b - |before|);
          if a < |before| {
            EarlierIsLower(g, j - 1, a);
          } else {
            LineIsLevel(g, j - 1, line, a - |before|);
            assert Less(line[a - |before|], line[b - |before|]);
          }
        }
      }
    }
  }

  /** a depends on b, directly or through other steps. */
  ghost predicate DependsOn(g: Graph, a: string, b: string) {
    exists p :: Chain(g, p) && |p| > 1 && p[0] == a && p[|p| - 1] == b
  }

  lemma DependencyIsLower(g: Graph, a: string, b: string)
    requires DependsOn(g, a, b) && a in Settled(g, |g|)
    ensures b in Settled(g, |g|) && RankLess(g, b, a)
  {
    var p :| Chain(g, p) && |p| > 1 && p[0] == a && p[|p| - 1] == b;
    ChainDescends(g, |g|, p);
  }

  lemma RankIsStrict(g: Graph, a: string, b: string)
    requires a in Settled(g, |g|) && b in Settled(g, |g|)
    ensures !(RankLess(g, a, b) && RankLess(g, b, a)) && !RankLess(g, a, a)
  {
    LessIsTotal(a, b);
    LessIsTotal(a, a);
  }

  /** For a graph that sorts, the order lists every step once, strictly ascending by
      (longest chain, id), so a step comes after everything it depends on, however indirectly. */
  lemma OrderMeaning(g: Graph)
    requires Resolvable(g)
    ensures Elems(Order(g, |g|)) == g.Keys && RankSorted(g, Order(g, |g|))
    ensures forall i, j :: 0 <= i <= j < |Order(g, |g|)| ==> !DependsOn(g, Order(g, |g|)[i], Order(g, |g|)[j])
  {
    OrderIsRankSorted(g, |g|);
    OrderCoversSettled(g, |g|);
    var ids := Order(g, |g|);
    forall i, j | 0 <= i <= j < |ids| ensures !DependsOn(g, ids[i], ids[j]) {
      assert ids[i] in Elems(ids) && ids[j] in Elems(ids);
      assert i < j ==> InOrder(g, ids, i, j);
      RankIsStrict(g, ids[i], ids[j]);
      if DependsOn(g, ids[i], ids[j]) { DependencyIsLower(g, ids[i], ids[j]); }
    }
  }

  lemma RankSortedTail(g: Graph, ids: seq<string>)
    requires ids != [] && Elems(ids) <= Settled(g, |g|) && RankSorted(g, ids)
    ensures Elems(ids[1..]) == Elems(ids) - {ids[0]} && RankSorted(g, ids[1..])
  {
    var rest := ids[1..];
    ElemsConcat([ids[0]], rest);
    assert ids == [ids[0]] + rest;
    forall j | 0 <= j < |rest| ensures rest[j] != ids[0] {
      assert InOrder(g, ids, 0, j + 1);
      RankIsStrict(g, ids[0], ids[0]);
    }
    forall i, j | 0 <= i < j < |rest| ensures InOrder(g, rest, i, j) {
      assert InOrder(g, ids, i + 1, j + 1);
    }
  }

  lemma HeadIsLowest(g: Graph, ids: seq<string>, n: string)
    requires ids != [] && Elems(ids) <= Settled(g, |g|) && RankSorted(g, ids) && n in Elems(ids)
    ensures n == ids[0] || RankLess(g, ids[0], n)
  {
    var j :| 0 <= j < |ids| && ids[j] == n;
    if j > 0 { assert InOrder(g, ids, 0, j); }
  }

  /** No other listing of the same steps is ascending: the order is the sort by (level, id). */
  lemma {:induction false} RankSortedIsUnique(g: Graph, xs: seq<string>, ys: seq<string>)
    requires Elems(xs) == Elems(ys) <= Settled(g, |g|) && RankSorted(g, xs) && RankSorted(g, ys)
    ensures xs == ys
    decreases |xs|
  {
    EmptyElems(xs);
    EmptyElems(ys);
    if xs != [] {
      assert xs[0] in Elems(xs) && ys[0] in Elems(ys);
      HeadIsLowest(g, xs, ys[0]);
      HeadIsLowest(g, ys, xs[0]);
      RankIsStrict(g, xs[0], ys[0]);
      RankSortedTail(g, xs);
      RankSortedTail(g, ys);
      RankSortedIsUnique(g, xs[1..], ys[1..]);
    }
  }

  ghost predicate UniqueIds(nodes: seq<Node>) {
    forall m, n :: m in nodes && n in nodes && m.stepId == n.stepId ==> m == n
  }

  /** The order in which the plan lists its steps does not matter. */
  lemma ListingDoesNotMatter(a: seq<Node>, b: seq<Node>)
    requires UniqueIds(a) && forall n :: n in a <==> n in b
    ensures ById(a) == ById(b) && Deps(a) == Deps(b)
  {
    ByIdFacts(a);
    ByIdFacts(b);
    forall id ensures id in ById(a) <==> id in ById(b) {
      if id in ById(a) { assert ById(a)[id] in b; }
      if id in ById(b) { assert ById(b)[id] in a; }
    }
    forall id | id in ById(a) ensures ById(a)[id] == ById(b)[id] {
      assert ById(a)[id] in a && ById(b)[id] in a;
    }
  }

  // ---- Compensation ----

  predicate Compensable(n: Node) {
    n.compensationTool.Some? && n.compensationTool.value != ""
  }

  /** The compensable nodes listed before the failed one. */
  function Undoable(order: seq<Node>, failed: string): seq<Node> {
    if order == [] || order[0].stepId == failed then []
    else (if Compensable(order[0]) then [order[0]] else []) + Undoable(order[1..], failed)
  }

  /** `reversed(xs)` */
  function Backwards<T>(xs: seq<T>): seq<T> {
    seq(|xs|, i requires 0 <= i < |xs| => xs[|xs| - 1 - i])
  }

  method CompensationChain(nodes: seq<Node>, failed: string) returns (r: Result<seq<Node>, GraphError>)
    ensures r.Success? <==> Resolvable(Deps(nodes))
    ensures r.Success? ==>
      && Elems(Order(Deps(nodes), |Deps(nodes)|)) <= ById(nodes).Keys
      && r.value == Backwards(Undoable(Nodes(ById(nodes), Order(Deps(nodes), |Deps(nodes)|)), failed))
    ensures r.Success? ==> DependentsFirst(Deps(nodes), r.value)
  {
    var order := TopologicalOrder(nodes);
    if order.Failure? { return order; }
    var seen := CollectUndoable(order.value, failed);
    OrderedNodes(nodes);
    ChainUndoesDependentsFirst(Deps(nodes), order.value, failed);
    r := Success(Backwards(seen));
  }

  /** The loop of the chain: collect until the failed step is met. */
  method CollectUndoable(order: seq<Node>, failed: string) returns (seen: seq<Node>)
    ensures seen == Undoable(order, failed)
  {
    seen := [];
    var i := 0;
    assert order[0..] == order;
    while i < |order| && order[i].stepId != failed
      invariant 0 <= i <= |order|
      invariant seen + Undoable(order[i..], failed) == Undoable(order, failed)
    {
      assert order[i..][1..] == order[i + 1..];
      if Compensable(order[i]) { seen := seen + [order[i]]; }
      i := i + 1;
    }
    assert Undoable(order[i..], failed) == [];
  }

  /** Undoable keeps the order: entries i < j of it come from entries i' < j' of the order. */
  lemma {:induction false} UndoableIsSubsequence(order: seq<Node>, failed: string, i: nat, j: nat)
    returns (i': nat, j': nat)
    requires i < j < |Undoable(order, failed)|
    ensures i' < j' < |order| && order[i'] == Undoable(order, failed)[i] && order[j'] == Undoable(order, failed)[j]
    decreases |order|
  {
    if Compensable(order[0]) && i == 0 {
      i' := 0;
      j' := UndoableMember(order[1..], failed, j - 1);
      j' := j' + 1;
    } else {
      var skip := if Compensable(order[0]) then 1 else 0;
      i', j' := UndoableIsSubsequence(order[1..], failed, i - skip, j - skip);
      i', j' := i' + 1, j' + 1;
    }
  }

  lemma {:induction false} UndoableMember(order: seq<Node>, failed: string, i: nat) returns (i': nat)
    requires i < |Undoable(order, failed)|
    ensures i' < |order| && order[i'] == Undoable(order, failed)[i]
    decreases |order|
  {
    if Compensable(order[0]) && i == 0 {
      i' := 0;
    } else {
      i' := UndoableMember(order[1..], failed, if Compensable(order[0]) then i - 1 else i);
      i' := i' + 1;
    }
  }

  /** No step is listed before a step it depends on, directly or indirectly. */
  ghost predicate DependenciesFirst(g: Graph, order: seq<Node>) {
    forall i, j :: 0 <= i <= j < |order| ==> !DependsOn(g, order[i].stepId, order[j].stepId)
  }

  /** Nothing is undone after a step it depends on. */
  ghost predicate DependentsFirst(g: Graph, chain: seq<Node>) {
    forall x, y :: 0 <= y <= x < |chain| ==> !DependsOn(g, chain[x].stepId, chain[y].stepId)
  }

  lemma OrderedNodes(nodes: seq<Node>)
    requires Resolvable(Deps(nodes)) && Elems(Order(Deps(nodes), |Deps(nodes)|)) <= ById(nodes).Keys
    ensures DependenciesFirst(Deps(nodes), Nodes(ById(nodes), Order(Deps(nodes), |Deps(nodes)|)))
  {
    var g := Deps(nodes);
    var ids := Order(g, |g|);
    var order := Nodes(ById(nodes), ids);
    ByIdFacts(nodes);
    OrderMeaning(g);
    forall i | 0 <= i < |order| ensures order[i].stepId == ids[i] {
      assert ids[i] in Elems(ids);
    }
  }

  lemma UndoableInOrder(g: Graph, order: seq<Node>, failed: string, i: nat, j: nat)
    requires DependenciesFirst(g, order) && i <= j < |Undoable(order, failed)|
    ensures !DependsOn(g, Undoable(order, failed)[i].stepId, Undoable(order, failed)[j].stepId)
  {
    if i < j {
      var i', j' := UndoableIsSubsequence(order, failed, i, j);
    } else {
      var i' := UndoableMember(order, failed, i);
    }
  }

  /** Reversing what precedes the failure undoes dependents before their dependencies. */
  lemma ChainUndoesDependentsFirst(g: Graph, order: seq<Node>, failed: string)
    requires DependenciesFirst(g, order)
    ensures DependentsFirst(g, Backwards(Undoable(order, failed)))
  {
    var up := Undoable(order, failed);
    forall x, y | 0 <= y <= x < |up|
      ensures !DependsOn(g, Backwards(up)[x].stepId, Backwards(up)[y].stepId)
    {
      UndoableInOrder(g, order, failed, |up| - 1 - x, |up| - 1 - y);
    }
  }
}
