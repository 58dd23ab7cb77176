/** The retry budget, the backoff with its cap, and the authority a recovery inherits. */
module Retry {
  import opened Wrappers

  datatype RetryPolicy = RetryPolicy(
    maxAttempts: int, initialDelay: real, maxDelay: real, exponential: bool, jitter: bool)

  datatype RetryError = AttemptBelowOne

  predicate CanRetry(policy: RetryPolicy, attemptsMade: int) {
    attemptsMade < policy.maxAttempts
  }

  function Pow2(n: nat): (r: real)
    ensures r >= 1.0
  {
    if n == 0 then 1.0 else 2.0 * Pow2(n - 1)
  }

  function Min(a: real, b: real): real {
    if b < a then b else a
  }

  function Backoff(initial: real, doublings: nat): real {
    initial * Pow2(doublings)
  }

  /** The delay before jitter. */
  function BaseDelay(policy: RetryPolicy, attempt: nat): real
    requires attempt >= 1
  {
    Min(if policy.exponential then Backoff(policy.initialDelay, attempt - 1) else policy.initialDelay, policy.maxDelay)
  }

  /** `factor` is what the random source yields. */
  function DelayFor(policy: RetryPolicy, attempt: int, factor: real): Result<real, RetryError> {
    if attempt < 1 then Failure(AttemptBelowOne)
    else
      var base := BaseDelay(policy, attempt);
      Success(Min(if policy.jitter then base * factor else base, policy.maxDelay))
  }

  /** No delay exceeds the cap, and none is negative exactly when the policy's two bounds are not. */
  lemma DelayIsBounded(policy: RetryPolicy, attempt: nat, factor: real)
    requires attempt >= 1 && 0.5 <= factor <= 1.5
    ensures
      var delay := DelayFor(policy, attempt, factor).value;
      && delay <= policy.maxDelay
      && (delay >= 0.0 <==> policy.initialDelay >= 0.0 && policy.maxDelay >= 0.0)
  {
    SignOfProduct(policy.initialDelay, Pow2(attempt - 1));
    SignOfProduct(BaseDelay(policy, attempt), factor);
  }

  lemma SignOfProduct(x: real, factor: real)
    requires factor > 0.0
    ensures x * factor >= 0.0 <==> x >= 0.0
  {
    if x >= 0.0 {
      assert x * factor >= 0.0;
    } else {
      assert (-x) * factor > 0.0;
      assert x * factor == -((-x) * factor);
    }
  }

  lemma {:induction false} Pow2Grows(m: nat, n: nat)
    requires m <= n
    ensures Pow2(m) <= Pow2(n)
  {
    if m < n { Pow2Grows(m, n - 1); }
  }

  lemma {:induction false} Pow2Exceeds(n: nat)
    ensures Pow2(n) >= n as real
  {
    if n > 0 { Pow2Exceeds(n - 1); }
  }

  ghost predicate NeverShrinks(policy: RetryPolicy) {
    forall m: nat, n: nat :: 1 <= m <= n ==> BaseDelay(policy, m) <= BaseDelay(policy, n)
  }

  /** Without jitter the waits never get shorter, exactly when they are constant or start at zero or more. */
  lemma BackoffNeverShrinks(policy: RetryPolicy)
    ensures NeverShrinks(policy) <==> !policy.exponential || policy.initialDelay >= 0.0
  {
    if !policy.exponential {
      assert forall n: nat :: n >= 1 ==> BaseDelay(policy, n) == Min(policy.initialDelay, policy.maxDelay);
    } else if policy.initialDelay >= 0.0 {
      forall m: nat, n: nat | 1 <= m <= n ensures BaseDelay(policy, m) <= BaseDelay(policy, n) {
        GrowingBackoff(policy, m, n);
      }
    } else {
      var n := ShrinkingBackoff(policy);
    }
  }

  lemma GrowingBackoff(policy: RetryPolicy, m: nat, n: nat)
    requires policy.exponential && policy.initialDelay >= 0.0 && 1 <= m <= n
    ensures BaseDelay(policy, m) <= BaseDelay(policy, n)
  {
    var d := policy.initialDelay;
    Pow2Grows(m - 1, n - 1);
    Scale(d, Pow2(m - 1), Pow2(n - 1));
    MinGrows(Backoff(d, m - 1), Backoff(d, n - 1), policy.maxDelay);
  }

  lemma ShrinkingBackoff(policy: RetryPolicy) returns (n: nat)
    requires policy.exponential && policy.initialDelay < 0.0
    ensures n >= 1 && BaseDelay(policy, n) > BaseDelay(policy, n + 1)
  {
    var d := policy.initialDelay;
    var k := BelowCap(d, policy.maxDelay);
    Doubled(d, k);
    n := k + 1;
  }

  lemma Doubled(d: real, n: nat)
    requires d < 0.0
    ensures Backoff(d, n + 1) < Backoff(d, n)
  {
    var p := Pow2(n);
    assert d * (2.0 * p) == 2.0 * (d * p);
    assert (-d) * p > 0.0;
  }

  lemma Scale(x: real, a: real, b: real)
    requires x >= 0.0 && a <= b
    ensures x * a <= x * b
  {
    assert x * (b - a) >= 0.0;
  }

  /** A negative delay, doubled often enough, falls below any cap. */
  lemma BelowCap(x: real, cap: real) returns (n: nat)
    requires x < 0.0
    ensures Backoff(x, n) < cap
  {
    var q := if cap / x < 0.0 then 0.0 else cap / x;
    n := q.Floor + 1;
    Pow2Exceeds(n);
    var p := Pow2(n);
    assert p >= n as real > q >= cap / x;
    assert (p - cap / x) * (-x) > 0.0;
    assert (cap / x) * x == cap;
  }

  lemma MinGrows(a: real, b: real, cap: real)
    requires a <= b
    ensures Min(a, cap) <= Min(b, cap)
  {}

  /** Jitter moves a wait by at most half of itself, and never over the cap. */
  lemma JitterStaysNear(policy: RetryPolicy, attempt: nat, factor: real)
    requires attempt >= 1 && policy.jitter && 0.5 <= factor <= 1.5
    requires policy.initialDelay >= 0.0 && policy.maxDelay >= 0.0
    ensures
      var base := BaseDelay(policy, attempt);
      0.5 * base <= DelayFor(policy, attempt, factor).value <= Min(1.5 * base, policy.maxDelay)
  {
    SignOfProduct(policy.initialDelay, Pow2(attempt - 1));
    Stretched(BaseDelay(policy, attempt), factor, policy.maxDelay);
  }

  lemma Stretched(base: real, factor: real, cap: real)
    requires 0.0 <= base <= cap && 0.5 <= factor <= 1.5
    ensures 0.5 * base <= Min(base * factor, cap) <= Min(1.5 * base, cap)
  {
    Product(base, factor - 0.5);
    Product(base, 1.5 - factor);
    assert base * factor - 0.5 * base == base * (factor - 0.5);
    assert 1.5 * base - base * factor == base * (1.5 - factor);
  }

  lemma Product(x: real, y: real)
    requires x >= 0.0 && y >= 0.0
    ensures x * y >= 0.0
  {}

  function Total(delays: seq<real>): real {
    if delays == [] then 0.0 else delays[0] + Total(delays[1..])
  }

  /** All the waiting of a budget of attempts stays under the cap for each of them. */
  lemma {:induction false} TotalIsBounded(delays: seq<real>, cap: real, budget: nat)
    requires cap >= 0.0 && |delays| <= budget && forall i :: 0 <= i < |delays| ==> delays[i] <= cap
    ensures Total(delays) <= budget as real * cap
  {
    if delays == [] {
      SignOfBudget(budget, cap);
    } else {
      TotalIsBounded(delays[1..], cap, budget - 1);
      assert budget as real * cap == (budget - 1) as real * cap + cap;
    }
  }

  lemma SignOfBudget(budget: nat, cap: real)
    requires cap >= 0.0
    ensures budget as real * cap >= 0.0
  {
    Scale(cap, 0.0, budget as real);
    assert cap * budget as real == budget as real * cap;
  }

  // ---- Authority ----

  datatype Operation = RetryOperation | Compensate | ReconcileOperation | ResolveBlocked | OtherOperation

  datatype Authority = Authority(capabilities: set<string>, maxAttempts: int, expiresAt: int, permitted: set<Operation>)

  datatype Denial = NotGranted | AuthorityExpired | BudgetExhausted | NotPermitted | Broader

  /** Expires at the earlier of the original grant's expiry and its own lifetime. */
  function FromOriginal(
      capabilities: set<string>, granted: bool, expiresAt: Option<int>, maxAttempts: int, now: int, ttl: int)
    : Result<Authority, Denial>
  {
    if !granted then Failure(NotGranted)
    else
      var expiry := if expiresAt.Some? && expiresAt.value < now + ttl then expiresAt.value else now + ttl;
      Success(Authority(capabilities, maxAttempts, expiry, {RetryOperation, Compensate, ReconcileOperation, ResolveBlocked}))
  }

  function AssertCan(a: Authority, operation: Operation, now: int, attemptsMade: int, required: set<string>): Option<Denial> {
    if now >= a.expiresAt then Some(AuthorityExpired)
    else if attemptsMade >= a.maxAttempts then Some(BudgetExhausted)
    else if operation !in a.permitted then Some(NotPermitted)
    else if !(required <= a.capabilities) then Some(Broader)
    else None
  }

  /** A recovery may do exactly what the original grant still covers, within the budget. */
  lemma RecoveryNeverBroadens(
      capabilities: set<string>, granted: bool, expiresAt: Option<int>, maxAttempts: int, grantedAt: int, ttl: int,
      operation: Operation, now: int, attemptsMade: int, required: set<string>)
    ensures
      var a := FromOriginal(capabilities, granted, expiresAt, maxAttempts, grantedAt, ttl);
      (a.Success? && AssertCan(a.value, operation, now, attemptsMade, required).None?) <==>
        && granted && required <= capabilities && attemptsMade < maxAttempts && operation != OtherOperation
        && now < grantedAt + ttl && (expiresAt.Some? ==> now < expiresAt.value)
  {}
}
