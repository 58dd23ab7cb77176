/** Provider failover: hard filters, a stable ranking, ordered attempts and a sliding window of
    outcomes for each provider. */
module Provider {
  import opened Wrappers

  // ---- Health ----

  datatype HealthState = Healthy | Degraded | Unavailable

  function Max(a: int, b: int): int {
    if a < b then b else a
  }

  /** The last n outcomes. */
  function LastOf(history: seq<bool>, n: int): seq<bool> {
    history[Max(0, |history| - Max(0, n))..]
  }

  function Successes(outcomes: seq<bool>): nat {
    if outcomes == [] then 0 else (if outcomes[0] then 1 else 0) + Successes(outcomes[1..])
  }

  function ErrorRate(outcomes: seq<bool>): real
    requires outcomes != []
  {
    1.0 - Successes(outcomes) as real / |outcomes| as real
  }

  function StateOf(outcomes: seq<bool>, degradedAt: real, unavailableAt: real): HealthState {
    if outcomes == [] then Healthy
    else if ErrorRate(outcomes) >= unavailableAt then Unavailable
    else if ErrorRate(outcomes) >= degradedAt then Degraded
    else Healthy
  }

  class HealthTracker {
    const windowSize: int
    const degradedAt: real
    const unavailableAt: real
    var outcomes: seq<bool>
    /** Every outcome ever recorded. */
    ghost var history: seq<bool>

    constructor (windowSize: int, degradedAt: real, unavailableAt: real)
      ensures this.windowSize == windowSize && this.degradedAt == degradedAt && this.unavailableAt == unavailableAt
      ensures Valid() && history == []
    {
      this.windowSize, this.degradedAt, this.unavailableAt := windowSize, degradedAt, unavailableAt;
      outcomes, history := [], [];
    }

    ghost predicate Valid()
      reads this
    {
      outcomes == LastOf(history, windowSize)
    }

    method Record(succeeded: bool)
      requires Valid()
      modifies this
      ensures Valid() && history == old(history) + [succeeded]
    {
      outcomes := outcomes + [succeeded];
      if |outcomes| > windowSize { outcomes := outcomes[1..]; }
      history := history + [succeeded];
    }

    function State(): HealthState
      reads this
    {
      StateOf(outcomes, degradedAt, unavailableAt)
    }
  }

  function Failures(outcomes: seq<bool>): nat {
    if outcomes == [] then 0 else (if outcomes[0] then 0 else 1) + Failures(outcomes[1..])
  }

  lemma {:induction false} FailuresAreTheRest(outcomes: seq<bool>)
    ensures Failures(outcomes) + Successes(outcomes) == |outcomes|
  {
    if outcomes != [] { FailuresAreTheRest(outcomes[1..]); }
  }

  /** Failures make up at least that share of the outcomes. */
  predicate Reaches(outcomes: seq<bool>, threshold: real) {
    Failures(outcomes) as real >= threshold * |outcomes| as real
  }

  lemma SignOf(x: real, n: real)
    requires n > 0.0
    ensures x * n >= 0.0 <==> x >= 0.0
  {
    if x < 0.0 { assert (-x) * n > 0.0; }
  }

  lemma Expand(q: real, threshold: real, n: real)
    ensures (1.0 - q - threshold) * n == n - q * n - threshold * n
  {}

  lemma ShareOf(f: real, s: real, n: real, threshold: real)
    requires n > 0.0 && f + s == n
    ensures 1.0 - s / n >= threshold <==> f >= threshold * n
  {
    var q := s / n;
    assert q * n == s;
    Expand(q, threshold, n);
    SignOf(1.0 - q - threshold, n);
  }

  lemma RateReaches(outcomes: seq<bool>, threshold: real)
    requires outcomes != []
    ensures ErrorRate(outcomes) >= threshold <==> Reaches(outcomes, threshold)
  {
    FailuresAreTheRest(outcomes);
    ShareOf(Failures(outcomes) as real, Successes(outcomes) as real, |outcomes| as real, threshold);
  }

  /** Health by counting failures: a threshold is reached when they make up that share of the window. */
  lemma HealthCountsFailures(outcomes: seq<bool>, degradedAt: real, unavailableAt: real)
    requires outcomes != []
    ensures StateOf(outcomes, degradedAt, unavailableAt) ==
      if Reaches(outcomes, unavailableAt) then Unavailable
      else if Reaches(outcomes, degradedAt) then Degraded
      else Healthy
  {
    RateReaches(outcomes, unavailableAt);
    RateReaches(outcomes, degradedAt);
  }

  /** A window full of successes heals a provider, whatever it did before. */
  lemma SuccessesHeal(before: seq<bool>, after: seq<bool>, windowSize: int, degradedAt: real, unavailableAt: real)
    requires degradedAt > 0.0 && unavailableAt > 0.0
    requires |after| >= windowSize && forall i :: 0 <= i < |after| ==> after[i]
    ensures StateOf(LastOf(before + after, windowSize), degradedAt, unavailableAt) == Healthy
  {
    var window := LastOf(before + after, windowSize);
    assert forall i :: 0 <= i < |window| ==> window[i];
    if window != [] {
      NoFailures(window);
      HealthCountsFailures(window, degradedAt, unavailableAt);
      NotReached(window, degradedAt);
      NotReached(window, unavailableAt);
    }
  }

  lemma {:induction false} NoFailures(outcomes: seq<bool>)
    requires forall i :: 0 <= i < |outcomes| ==> outcomes[i]
    ensures Failures(outcomes) == 0
  {
    if outcomes != [] { NoFailures(outcomes[1..]); }
  }

  lemma NotReached(outcomes: seq<bool>, threshold: real)
    requires outcomes != [] && Failures(outcomes) == 0 && threshold > 0.0
    ensures !Reaches(outcomes, threshold)
  {
    SignOf(-threshold, |outcomes| as real);
  }

  // ---- Routing ----

  datatype Trust = Local | TrustedRemote | Untrusted

  datatype Profile = Profile(id: string, trust: Trust, capabilities: set<string>, contextLimit: int)

  /** `prefers` says whether an id matches the preferred provider's name. */
  datatype Requirements = Requirements(
    localOnly: bool, capabilities: set<string>, contextSize: int, prefers: string -> bool)

  /** A provider and its health when the request arrives. */
  datatype Listing = Listing(profile: Profile, health: HealthState)

  predicate Passes(l: Listing, r: Requirements) {
    && l.profile.trust != Untrusted && (r.localOnly ==> l.profile.trust == Local)
    && r.capabilities <= l.profile.capabilities && l.profile.contextLimit >= r.contextSize
    && l.health != Unavailable
  }

  function Candidates(listings: seq<Listing>, r: Requirements): seq<Profile> {
    if listings == [] then []
    else
      var last := listings[|listings| - 1];
      Candidates(listings[..|listings| - 1], r) + (if Passes(last, r) then [last.profile] else [])
  }

  /** `{profile.provider_id: health ...}`: the last listing of an id wins. */
  function HealthById(listings: seq<Listing>): map<string, HealthState> {
    if listings == [] then map[]
    else HealthById(listings[..|listings| - 1])[listings[|listings| - 1].profile.id := listings[|listings| - 1].health]
  }

  function HealthScore(h: HealthState): nat {
    match h case Healthy => 0 case Degraded => 1 case Unavailable => 2
  }

  /** The sort key: preferred providers first, then the healthier. */
  function Rank(health: map<string, HealthState>, r: Requirements, p: Profile): nat
    requires p.id in health
  {
    (if r.prefers(p.id) then 0 else 3) + HealthScore(health[p.id])
  }

  ghost predicate Listed(health: map<string, HealthState>, ps: seq<Profile>) {
    forall i :: 0 <= i < |ps| ==> ps[i].id in health
  }

  /** Inserts before the first profile that ranks no better. */
  function Inserted(health: map<string, HealthState>, r: Requirements, p: Profile, ps: seq<Profile>): seq<Profile>
    requires p.id in health && Listed(health, ps)
  {
    if ps == [] || Rank(health, r, p) <= Rank(health, r, ps[0]) then [p] + ps
    else [ps[0]] + Inserted(health, r, p, ps[1..])
  }

  /** A stable sort, as the library's is. */
  function Ranked(health: map<string, HealthState>, r: Requirements, ps: seq<Profile>): (sorted: seq<Profile>)
    requires Listed(health, ps)
    ensures Listed(health, sorted)
  {
    if ps == [] then []
    else
      var rest := Ranked(health, r, ps[1..]);
      InsertedHolds(health, r, ps[0], rest);
      Inserted(health, r, ps[0], rest)
  }

  lemma {:induction false} InsertedHolds(health: map<string, HealthState>, r: Requirements, p: Profile, ps: seq<Profile>)
    requires p.id in health && Listed(health, ps)
    ensures
      var s := Inserted(health, r, p, ps);
      Listed(health, s) && multiset(s) == multiset(ps) + multiset{p}
  {
    if ps != [] && Rank(health, r, p) > Rank(health, r, ps[0]) {
      InsertedHolds(health, r, p, ps[1..]);
      assert ps == [ps[0]] + ps[1..];
    }
  }

  ghost predicate InRankOrder(health: map<string, HealthState>, r: Requirements, ps: seq<Profile>)
    requires Listed(health, ps)
  {
    forall i, j :: 0 <= i < j < |ps| ==> Rank(health, r, ps[i]) <= Rank(health, r, ps[j])
  }

  lemma {:induction false} FirstInOrder(health: map<string, HealthState>, r: Requirements, p: Profile, ps: seq<Profile>)
    requires p.id in health && Listed(health, ps) && Listed(health, [p] + ps) && InRankOrder(health, r, ps)
    requires forall j :: 0 <= j < |ps| ==> Rank(health, r, p) <= Rank(health, r, ps[j])
    ensures InRankOrder(health, r, [p] + ps)
  {}

  lemma {:induction false} InsertedInOrder(health: map<string, HealthState>, r: Requirements, p: Profile, ps: seq<Profile>)
    requires p.id in health && Listed(health, ps) && InRankOrder(health, r, ps)
    ensures Listed(health, Inserted(health, r, p, ps)) && InRankOrder(health, r, Inserted(health, r, p, ps))
  {
    InsertedHolds(health, r, p, ps);
    if ps != [] && Rank(health, r, p) > Rank(health, r, ps[0]) {
      var rest := Inserted(health, r, p, ps[1..]);
      InsertedInOrder(health, r, p, ps[1..]);
      InsertedHolds(health, r, p, ps[1..]);
      forall j | 0 <= j < |rest| ensures Rank(health, r, ps[0]) <= Rank(health, r, rest[j]) {
        assert rest[j] in multiset(rest);
        assert rest[j] == p || rest[j] in ps[1..];
      }
      FirstInOrder(health, r, ps[0], rest);
    } else {
      FirstInOrder(health, r, p, ps);
    }
  }

  function IfRank(health: map<string, HealthState>, r: Requirements, p: Profile, rank: nat): seq<Profile>
    requires p.id in health
  {
    if Rank(health, r, p) == rank then [p] else []
  }

  /** The profiles of one rank, in the order given. */
  function OfRank(health: map<string, HealthState>, r: Requirements, ps: seq<Profile>, rank: nat): seq<Profile>
    requires Listed(health, ps)
  {
    if ps == [] then []
    else IfRank(health, r, ps[0], rank) + OfRank(health, r, ps[1..], rank)
  }

  lemma {:induction false} OfRankFirst(health: map<string, HealthState>, r: Requirements, p: Profile, ps: seq<Profile>, rank: nat)
    requires p.id in health && Listed(health, ps) && Listed(health, [p] + ps)
    ensures OfRank(health, r, [p] + ps, rank) == IfRank(health, r, p, rank) + OfRank(health, r, ps, rank)
  {
    assert ([p] + ps)[1..] == ps;
  }

  lemma Swap<T>(a: seq<T>, b: seq<T>, rest: seq<T>)
    requires a == [] || b == []
    ensures a + (b + rest) == b + (a + rest)
  {}

  lemma {:induction false} InsertedKeepsTies(
      health: map<string, HealthState>, r: Requirements, p: Profile, ps: seq<Profile>, rank: nat)
    requires p.id in health && Listed(health, ps)
    ensures Listed(health, Inserted(health, r, p, ps))
    ensures OfRank(health, r, Inserted(health, r, p, ps), rank)
      == IfRank(health, r, p, rank) + OfRank(health, r, ps, rank)
  {
    InsertedHolds(health, r, p, ps);
    if ps != [] && Rank(health, r, p) > Rank(health, r, ps[0]) {
      InsertedHolds(health, r, p, ps[1..]);
      InsertedKeepsTies(health, r, p, ps[1..], rank);
      OfRankFirst(health, r, ps[0], Inserted(health, r, p, ps[1..]), rank);
      Swap(IfRank(health, r, ps[0], rank), IfRank(health, r, p, rank), OfRank(health, r, ps[1..], rank));
    } else {
      OfRankFirst(health, r, p, ps, rank);
    }
  }

  /** The ranking is sorted, and loses and invents nothing. */
  lemma {:induction false} RankingSorts(health: map<string, HealthState>, r: Requirements, ps: seq<Profile>)
    requires Listed(health, ps)
    ensures multiset(Ranked(health, r, ps)) == multiset(ps) && InRankOrder(health, r, Ranked(health, r, ps))
  {
    if ps != [] {
      RankingSorts(health, r, ps[1..]);
      assert ps == [ps[0]] + ps[1..];
      var rest := Ranked(health, r, ps[1..]);
      InsertedHolds(health, r, ps[0], rest);
      InsertedInOrder(health, r, ps[0], rest);
    }
  }

  /** Profiles of equal rank stay in the order they were registered in. */
  lemma {:induction false} RankingIsStable(health: map<string, HealthState>, r: Requirements, ps: seq<Profile>, rank: nat)
    requires Listed(health, ps)
    ensures OfRank(health, r, Ranked(health, r, ps), rank) == OfRank(health, r, ps, rank)
  {
    if ps != [] {
      RankingIsStable(health, r, ps[1..], rank);
      InsertedKeepsTies(health, r, ps[0], Ranked(health, r, ps[1..]), rank);
    }
  }

  lemma {:induction false} CandidatesAreListed(listings: seq<Listing>, r: Requirements)
    ensures Listed(HealthById(listings), Candidates(listings, r))
    ensures forall p :: p in Candidates(listings, r) <==>
      exists i :: 0 <= i < |listings| && listings[i].profile == p && Passes(listings[i], r)
  {
    if listings != [] {
      var init, last := listings[..|listings| - 1], listings[|listings| - 1];
      CandidatesAreListed(init, r);
      forall p | p in Candidates(init, r) ensures exists i :: 0 <= i < |listings| && listings[i].profile == p && Passes(listings[i], r) {
        var i :| 0 <= i < |init| && init[i].profile == p && Passes(init[i], r);
        assert listings[i] == init[i];
      }
      forall i | 0 <= i < |listings| && Passes(listings[i], r) ensures listings[i].profile in Candidates(listings, r) {
        if i < |init| { assert init[i] == listings[i]; }
      }
    }
  }

  function Eligible(listings: seq<Listing>, r: Requirements): seq<Profile> {
    CandidatesAreListed(listings, r);
    Ranked(HealthById(listings), r, Candidates(listings, r))
  }

  /** The router's loop and sort. */
  method Route(listings: seq<Listing>, r: Requirements) returns (eligible: seq<Profile>)
    ensures eligible == Eligible(listings, r)
  {
    var candidates: seq<Profile> := [];
    for i := 0 to |listings|
      invariant candidates == Candidates(listings[..i], r)
    {
      var l := listings[i];
      assert listings[..i + 1][..i] == listings[..i];
      if l.profile.trust == Untrusted { continue; }
      if r.localOnly && l.profile.trust != Local { continue; }
      if !(r.capabilities <= l.profile.capabilities) { continue; }
      if l.profile.contextLimit < r.contextSize { continue; }
      if l.health == Unavailable { continue; }
      candidates := candidates + [l.profile];
    }
    assert listings[..|listings|] == listings;
    CandidatesAreListed(listings, r);
    eligible := Ranked(HealthById(listings), r, candidates);
  }

  // ---- Failover ----

  class RegisteredProvider {
    const profile: Profile
    const health: HealthTracker

    constructor (profile: Profile, health: HealthTracker)
      ensures this.profile == profile && this.health == health
    {
      this.profile, this.health := profile, health;
    }
  }

  /** `eligible[:budget]`, where no budget, or a budget of 0, means all. */
  function Budgeted(eligible: seq<Profile>, maxAttempts: Option<int>): seq<Profile> {
    var budget := if maxAttempts.None? || maxAttempts.value == 0 then |eligible| else maxAttempts.value;
    var end := if budget < 0 then Max(0, |eligible| + budget) else if budget > |eligible| then |eligible| else budget;
    eligible[..end]
  }

  /** The first registered provider with that id. */
  function FirstById(profiles: seq<Profile>, id: string): nat {
    if profiles == [] || profiles[0].id == id then 0 else 1 + FirstById(profiles[1..], id)
  }

  /** What the k-th provider asked answers; None is any exception. */
  type Answers = nat -> Option<string>

  /** The first attempt that is answered. */
  function Answered(answers: Answers, from: nat, n: nat): (at: nat)
    requires from <= n
    ensures from <= at <= n && (at < n ==> answers(at).Some?)
    decreases n - from
  {
    if from == n || answers(from).Some? then from else Answered(answers, from + 1, n)
  }

  /** The outcomes that the first n attempts record for provider i. */
  function OutcomesFor(order: seq<Profile>, profiles: seq<Profile>, answers: Answers, n: nat, i: nat): seq<bool>
    requires n <= |order|
  {
    if n == 0 then []
    else
      OutcomesFor(order, profiles, answers, n - 1, i)
      + if FirstById(profiles, order[n - 1].id) == i then [answers(n - 1).Some?] else []
  }

  /** The histories after the first n attempts. */
  function Extended(before: seq<seq<bool>>, order: seq<Profile>, profiles: seq<Profile>, answers: Answers, n: nat): seq<seq<bool>>
    requires n <= |order|
  {
    seq(|before|, i requires 0 <= i < |before| => before[i] + OutcomesFor(order, profiles, answers, n, i))
  }

  lemma ExtendedByOne(before: seq<seq<bool>>, order: seq<Profile>, profiles: seq<Profile>, answers: Answers, n: nat)
    requires n < |order|
    ensures
      var so, at := Extended(before, order, profiles, answers, n), FirstById(profiles, order[n].id);
      Extended(before, order, profiles, answers, n + 1)
      == if at < |before| then so[at := so[at] + [answers(n).Some?]] else so
  {
    var so, at := Extended(before, order, profiles, answers, n), FirstById(profiles, order[n].id);
    var more := Extended(before, order, profiles, answers, n + 1);
    forall i | 0 <= i < |before| ensures more[i] == if i == at then so[i] + [answers(n).Some?] else so[i] {
      assert OutcomesFor(order, profiles, answers, n + 1, i)
        == OutcomesFor(order, profiles, answers, n, i) + if i == at then [answers(n).Some?] else [];
    }
  }

  lemma ExtendedByNone(before: seq<seq<bool>>, order: seq<Profile>, profiles: seq<Profile>, answers: Answers)
    ensures Extended(before, order, profiles, answers, 0) == before
  {
    var none := Extended(before, order, profiles, answers, 0);
    forall i | 0 <= i < |before| ensures none[i] == before[i] {
      assert OutcomesFor(order, profiles, answers, 0, i) == [];
    }
  }

  datatype RoutingError = NoEligibleProvider | AllExhausted(attempts: nat)

  function Listings(profiles: seq<Profile>, states: seq<HealthState>): seq<Listing>
    requires |profiles| == |states|
  {
    seq(|profiles|, i requires 0 <= i < |profiles| => Listing(profiles[i], states[i]))
  }

  class ProviderRoutingService {
    const providers: seq<RegisteredProvider>
    const requirements: Requirements
    const maxAttempts: Option<int>

    constructor (providers: seq<RegisteredProvider>, requirements: Requirements, maxAttempts: Option<int>)
      ensures this.providers == providers && this.requirements == requirements && this.maxAttempts == maxAttempts
    {
      this.providers, this.requirements, this.maxAttempts := providers, requirements, maxAttempts;
    }

    function Profiles(): seq<Profile> {
      seq(|providers|, i requires 0 <= i < |providers| => providers[i].profile)
    }

    function Trackers(): set<HealthTracker> {
      set i | 0 <= i < |providers| :: providers[i].health
    }

    function States(): (states: seq<HealthState>)
      reads Trackers()
      ensures |states| == |providers|
    {
      seq(|providers|, i requires 0 <= i < |providers| reads Trackers() => providers[i].health.State())
    }

    ghost predicate Valid()
      reads Trackers()
    {
      && (forall i, j :: 0 <= i < j < |providers| ==> providers[i].health != providers[j].health)
      && (forall i :: 0 <= i < |providers| ==> providers[i].health.Valid())
    }

    ghost function Histories(): (histories: seq<seq<bool>>)
      reads Trackers()
      ensures |histories| == |providers|
    {
      seq(|providers|, i requires 0 <= i < |providers| reads Trackers() => providers[i].health.history)
    }

    function EligibleNow(): seq<Profile>
      reads Trackers()
    {
      Eligible(Listings(Profiles(), States()), requirements)
    }

    function Order(): seq<Profile>
      reads Trackers()
    {
      Budgeted(EligibleNow(), maxAttempts)
    }

    method ById(id: string) returns (at: nat)
      ensures at == FirstById(Profiles(), id)
    {
      var profiles := Profiles();
      for i := 0 to |providers|
        invariant FirstById(profiles, id) == i + FirstById(profiles[i..], id)
      {
        assert profiles[i..][1..] == profiles[i + 1..];
        if providers[i].profile.id == id { return i; }
      }
      return |providers|;
    }

    /** Asks one provider and records the outcome with it alone. */
    method Ask(id: string, reply: Option<string>)
      requires Valid() && FirstById(Profiles(), id) < |providers|
      modifies Trackers()
      ensures Valid()
      ensures
        var at := FirstById(Profiles(), id);
        Histories() == old(Histories())[at := old(Histories())[at] + [reply.Some?]]
    {
      var at := ById(id);
      var registered := providers[at];
      assert registered.health in Trackers();
      registered.health.Record(reply.Some?);
    }

    /** The k-th attempt. */
    method AskNext(order: seq<Profile>, answers: Answers, k: nat, ghost before: seq<seq<bool>>) returns (reply: Option<string>)
      requires Valid() && k < |order| && FirstById(Profiles(), order[k].id) < |providers|
      requires |before| == |providers| && Histories() == Extended(before, order, Profiles(), answers, k)
      modifies Trackers()
      ensures Valid() && reply == answers(k)
      ensures Histories() == Extended(before, order, Profiles(), answers, k + 1)
    {
      ExtendedByOne(before, order, Profiles(), answers, k);
      reply := answers(k);
      Ask(order[k].id, reply);
    }

    /** Asks in turn until one answers. */
    method Failover(order: seq<Profile>, answers: Answers) returns (r: Result<string, RoutingError>)
      requires Valid() && forall p :: p in order ==> FirstById(Profiles(), p.id) < |providers|
      modifies Trackers()
      ensures Valid()
      ensures
        var stop := Answered(answers, 0, |order|);
        && r == (if stop < |order| then Success(answers(stop).value) else Failure(AllExhausted(|order|)))
        && Histories() == Extended(old(Histories()), order, Profiles(), answers, if stop < |order| then stop + 1 else stop)
    {
      ghost var before := Histories();
      ExtendedByNone(before, order, Profiles(), answers);
      for k := 0 to |order|
        invariant Valid()
        invariant Answered(answers, 0, |order|) == Answered(answers, k, |order|)
        invariant Histories() == Extended(before, order, Profiles(), answers, k)
      {
        assert order[k] in order;
        var reply := AskNext(order, answers, k, before);
        if reply.Some? { return Success(reply.value); }
      }
      return Failure(AllExhausted(|order|));
    }

    /** Asks the ranked providers in turn until one answers, within the budget. Each provider asked
        records exactly its outcome and no other tracker changes. */
    method Generate(answers: Answers) returns (r: Result<string, RoutingError>)
      requires Valid()
      modifies Trackers()
      ensures Valid()
      ensures
        var order := old(Order());
        var stop := Answered(answers, 0, |order|);
        && r == (if old(EligibleNow()) == [] then Failure(NoEligibleProvider)
                 else if stop < |order| then Success(answers(stop).value)
                 else Failure(AllExhausted(|order|)))
        && Histories() == Extended(old(Histories()), order, Profiles(), answers, if stop < |order| then stop + 1 else stop)
    {
      var listings := Listings(Profiles(), States());
      var eligible := Route(listings, requirements);
      var order := Budgeted(eligible, maxAttempts);
      assert order == Order() && eligible == EligibleNow();
      if eligible == [] {
        ExtendedByNone(Histories(), order, Profiles(), answers);
        return Failure(NoEligibleProvider);
      }
      EligibleIsRegistered(Profiles(), listings, requirements, order);
      r := Failover(order, answers);
    }
  }

  lemma {:induction false} FirstByIdFinds(profiles: seq<Profile>, id: string)
    requires exists i :: 0 <= i < |profiles| && profiles[i].id == id
    ensures
      var at := FirstById(profiles, id);
      at < |profiles| && profiles[at].id == id && forall j :: 0 <= j < at ==> profiles[j].id != id
  {
    if profiles[0].id != id {
      var i :| 0 <= i < |profiles| && profiles[i].id == id;
      assert profiles[1..][i - 1].id == id;
      FirstByIdFinds(profiles[1..], id);
    }
  }

  /** Whoever is ranked is a listed provider that passed every filter. */
  lemma EligibleArePassing(listings: seq<Listing>, r: Requirements, p: Profile)
    ensures p in Eligible(listings, r) <==>
      exists i :: 0 <= i < |listings| && listings[i].profile == p && Passes(listings[i], r)
  {
    CandidatesAreListed(listings, r);
    var candidates := Candidates(listings, r);
    RankingSorts(HealthById(listings), r, candidates);
    assert multiset(Eligible(listings, r)) == multiset(candidates);
    assert p in Eligible(listings, r) <==> p in multiset(Eligible(listings, r));
    assert p in candidates <==> p in multiset(candidates);
  }

  lemma {:induction false} OneIsRegistered(profiles: seq<Profile>, listings: seq<Listing>, r: Requirements, p: Profile)
    requires |listings| == |profiles|
    requires forall i :: 0 <= i < |profiles| ==> listings[i].profile == profiles[i]
    requires p in Eligible(listings, r)
    ensures FirstById(profiles, p.id) < |profiles|
    ensures p in profiles
  {
    EligibleArePassing(listings, r, p);
    var i :| 0 <= i < |listings| && listings[i].profile == p && Passes(listings[i], r);
    assert profiles[i].id == p.id;
    FirstByIdFinds(profiles, p.id);
  }

  lemma {:induction false} EligibleIsRegistered(profiles: seq<Profile>, listings: seq<Listing>, r: Requirements, order: seq<Profile>)
    requires |listings| == |profiles|
    requires forall i :: 0 <= i < |profiles| ==> listings[i].profile == profiles[i]
    requires order <= Eligible(listings, r)
    ensures forall p :: p in order ==> FirstById(profiles, p.id) < |profiles|
  {
    forall p | p in order ensures FirstById(profiles, p.id) < |profiles| {
      OneIsRegistered(profiles, listings, r, p);
    }
  }

  // ---- Who is called ----

  /** The provider that `generate` calls for a ranked profile. */
  function Called(profiles: seq<Profile>, p: Profile): Option<Profile> {
    var at := FirstById(profiles, p.id);
    if at < |profiles| then Some(profiles[at]) else None
  }

  ghost predicate UniqueIds(profiles: seq<Profile>) {
    forall i, j :: 0 <= i < j < |profiles| ==> profiles[i].id != profiles[j].id
  }

  /** With unique ids the provider called is the one that was ranked: it passed the filters, so it is
      never untrusted, and under local-only it is local. */
  lemma OnlyThePassingAreCalled(profiles: seq<Profile>, states: seq<HealthState>, r: Requirements, p: Profile)
    requires |profiles| == |states| && UniqueIds(profiles) && p in Eligible(Listings(profiles, states), r)
    ensures Called(profiles, p) == Some(p)
    ensures p.trust != Untrusted && (r.localOnly ==> p.trust == Local) && r.capabilities <= p.capabilities
  {
    var listings := Listings(profiles, states);
    OneIsRegistered(profiles, listings, r, p);
    EligibleArePassing(listings, r, p);
    var i :| 0 <= i < |listings| && listings[i].profile == p && Passes(listings[i], r);
    var at := FirstById(profiles, p.id);
    FirstByIdFinds(profiles, p.id);
    assert profiles[i] == p;
    assert at == i;
  }

  /** An untrusted provider registered first under an id that a passing one uses again. */
  ghost predicate Shadowed(profiles: seq<Profile>, states: seq<HealthState>, r: Requirements, i: nat, j: nat)
    requires |profiles| == |states|
  {
    && i < j < |profiles| && profiles[i].id == profiles[j].id && profiles[i].trust == Untrusted
    && FirstById(profiles, profiles[i].id) == i && Passes(Listing(profiles[j], states[j]), r)
  }

  /** Without unique ids an untrusted provider is among those to be called exactly when it shadows one. */
  lemma UntrustedIsCalledExactlyIfItShadows(profiles: seq<Profile>, states: seq<HealthState>, r: Requirements)
    requires |profiles| == |states|
    ensures
      (exists p :: p in Eligible(Listings(profiles, states), r) && Called(profiles, p).Some?
        && Called(profiles, p).value.trust == Untrusted)
      <==> exists i: nat, j: nat :: Shadowed(profiles, states, r, i, j)
  {
    var listings := Listings(profiles, states);
    if p :| p in Eligible(listings, r) && Called(profiles, p).Some? && Called(profiles, p).value.trust == Untrusted {
      EligibleArePassing(listings, r, p);
      var j :| 0 <= j < |listings| && listings[j].profile == p && Passes(listings[j], r);
      assert profiles[j].id == p.id;
      FirstByIdFinds(profiles, p.id);
      assert Shadowed(profiles, states, r, FirstById(profiles, p.id), j);
    }
    if i: nat, j: nat :| Shadowed(profiles, states, r, i, j) {
      var p := profiles[j];
      assert listings[j].profile == p && Passes(listings[j], r);
      EligibleArePassing(listings, r, p);
      assert Called(profiles, p) == Some(profiles[i]);
    }
  }

  /** Such a registration exists. */
  lemma UntrustedCalled()
    ensures
      var profiles := [Profile("p", Untrusted, {}, 0), Profile("p", Local, {}, 0)];
      var r := Requirements(true, {}, 0, _ => false);
      var eligible := Eligible(Listings(profiles, [Healthy, Healthy]), r);
      profiles[1] in eligible && Called(profiles, profiles[1]) == Some(profiles[0])
  {
    var profiles := [Profile("p", Untrusted, {}, 0), Profile("p", Local, {}, 0)];
    var r := Requirements(true, {}, 0, _ => false);
    var listings := Listings(profiles, [Healthy, Healthy]);
    assert listings[1].profile == profiles[1] && Passes(listings[1], r);
    EligibleArePassing(listings, r, profiles[1]);
  }

  // ---- Who records what ----

  lemma {:induction false} CandidatesAreUnique(listings: seq<Listing>, r: Requirements)
    requires forall i, j :: 0 <= i < j < |listings| ==> listings[i].profile.id != listings[j].profile.id
    ensures UniqueIds(Candidates(listings, r))
  {
    if listings != [] {
      var init, last := listings[..|listings| - 1], listings[|listings| - 1];
      CandidatesAreUnique(init, r);
      CandidatesAreListed(init, r);
      var earlier := Candidates(init, r);
      forall i | 0 <= i < |earlier| ensures earlier[i].id != last.profile.id {
        assert earlier[i] in earlier;
        var k :| 0 <= k < |init| && init[k].profile == earlier[i] && Passes(init[k], r);
        assert listings[k] == init[k];
      }
    }
  }

  lemma {:induction false} InsertedIsUnique(health: map<string, HealthState>, r: Requirements, p: Profile, ps: seq<Profile>)
    requires p.id in health && Listed(health, ps) && UniqueIds(ps)
    requires forall i :: 0 <= i < |ps| ==> ps[i].id != p.id
    ensures UniqueIds(Inserted(health, r, p, ps))
  {
    if ps != [] && Rank(health, r, p) > Rank(health, r, ps[0]) {
      var rest := Inserted(health, r, p, ps[1..]);
      InsertedIsUnique(health, r, p, ps[1..]);
      InsertedHolds(health, r, p, ps[1..]);
      forall j | 0 <= j < |rest| ensures rest[j].id != ps[0].id {
        assert rest[j] in multiset(rest);
        assert rest[j] == p || rest[j] in ps[1..];
      }
    }
  }

  lemma {:induction false} RankedIsUnique(health: map<string, HealthState>, r: Requirements, ps: seq<Profile>)
    requires Listed(health, ps) && UniqueIds(ps)
    ensures UniqueIds(Ranked(health, r, ps))
  {
    if ps != [] {
      var rest := Ranked(health, r, ps[1..]);
      RankedIsUnique(health, r, ps[1..]);
      RankingSorts(health, r, ps[1..]);
      forall i | 0 <= i < |rest| ensures rest[i].id != ps[0].id {
        assert rest[i] in multiset(rest);
        assert rest[i] in ps[1..];
      }
      InsertedIsUnique(health, r, ps[0], rest);
    }
  }

  /** The providers a request asks are registered ones, no id twice. */
  lemma OrderIsUnique(profiles: seq<Profile>, states: seq<HealthState>, r: Requirements, maxAttempts: Option<int>)
    requires |profiles| == |states| && UniqueIds(profiles)
    ensures
      var order := Budgeted(Eligible(Listings(profiles, states), r), maxAttempts);
      UniqueIds(order) && forall p :: p in order ==> FirstById(profiles, p.id) < |profiles|
  {
    var listings := Listings(profiles, states);
    CandidatesAreUnique(listings, r);
    CandidatesAreListed(listings, r);
    RankedIsUnique(HealthById(listings), r, Candidates(listings, r));
    EligibleIsRegistered(profiles, listings, r, Budgeted(Eligible(listings, r), maxAttempts));
  }

  lemma {:induction false} AttemptsRecordOnce(
      order: seq<Profile>, profiles: seq<Profile>, answers: Answers, n: nat, i: nat)
    requires n <= |order| && UniqueIds(order) && i < |profiles|
    ensures forall k :: 0 <= k < n && FirstById(profiles, order[k].id) == i ==>
      OutcomesFor(order, profiles, answers, n, i) == [answers(k).Some?]
    ensures (forall k :: 0 <= k < n ==> FirstById(profiles, order[k].id) != i) ==>
      OutcomesFor(order, profiles, answers, n, i) == []
  {
    if n > 0 {
      AttemptsRecordOnce(order, profiles, answers, n - 1, i);
      if FirstById(profiles, order[n - 1].id) == i {
        FirstByIdIs(profiles, order[n - 1].id);
        forall k | 0 <= k < n - 1 ensures FirstById(profiles, order[k].id) != i {
          if FirstById(profiles, order[k].id) == i { FirstByIdIs(profiles, order[k].id); }
          assert order[k].id != order[n - 1].id;
        }
      }
    }
  }

  /** With unique ids every provider asked records exactly the one outcome of its own attempt, and
      every other provider records nothing. */
  lemma OneOutcomeEach(
      profiles: seq<Profile>, states: seq<HealthState>, r: Requirements, maxAttempts: Option<int>, answers: Answers, n: nat)
    requires |profiles| == |states| && UniqueIds(profiles)
    requires n <= |Budgeted(Eligible(Listings(profiles, states), r), maxAttempts)|
    ensures
      var order := Budgeted(Eligible(Listings(profiles, states), r), maxAttempts);
      && (forall k :: 0 <= k < n ==>
            OutcomesFor(order, profiles, answers, n, FirstById(profiles, order[k].id)) == [answers(k).Some?])
      && (forall i :: 0 <= i < |profiles| && (forall k :: 0 <= k < n ==> order[k].id != profiles[i].id) ==>
            OutcomesFor(order, profiles, answers, n, i) == [])
  {
    var order := Budgeted(Eligible(Listings(profiles, states), r), maxAttempts);
    OrderIsUnique(profiles, states, r, maxAttempts);
    forall k | 0 <= k < n
      ensures OutcomesFor(order, profiles, answers, n, FirstById(profiles, order[k].id)) == [answers(k).Some?]
    {
      assert order[k] in order;
      AttemptsRecordOnce(order, profiles, answers, n, FirstById(profiles, order[k].id));
    }
    forall i | 0 <= i < |profiles| && (forall k :: 0 <= k < n ==> order[k].id != profiles[i].id)
      ensures OutcomesFor(order, profiles, answers, n, i) == []
    {
      forall k | 0 <= k < n ensures FirstById(profiles, order[k].id) != i {
        if FirstById(profiles, order[k].id) == i { FirstByIdIs(profiles, order[k].id); }
      }
      AttemptsRecordOnce(order, profiles, answers, n, i);
    }
  }

  lemma {:induction false} FirstByIdIs(profiles: seq<Profile>, id: string)
    requires FirstById(profiles, id) < |profiles|
    ensures profiles[FirstById(profiles, id)].id == id
  {
    if profiles[0].id != id { FirstByIdIs(profiles[1..], id); }
  }
}
