/** Retry, backoff and failover of transcription providers, internal/asr/registry.go. */
module Retry {
  import opened Common
  import opened Strings

  datatype Class =
    | InvalidConfiguration | Authentication | Authorization | RateLimited | InvalidAudio
    | Unsupported | Transient | Rejected | Canceled

  datatype Policy = Policy(maxAttempts: int, baseDelay: int64, maxDelay: int64)

  /** The limits ValidateProfile puts on a policy (internal/asr/capability.go). */
  predicate ValidPolicy(p: Policy) {
    && 1 <= p.maxAttempts <= 10
    && 100 * MILLISECOND <= p.baseDelay <= 5 * MINUTE
    && p.baseDelay <= p.maxDelay <= 30 * MINUTE
  }

  /** Policies at either limit are valid. */
  lemma LimitsAreAllowed()
    ensures ValidPolicy(Policy(1, 100 * MILLISECOND, 100 * MILLISECOND))
    ensures ValidPolicy(Policy(10, 5 * MINUTE, 30 * MINUTE))
  {}

  // ---------------------------------------------------------------------------
  // Backoff
  // ---------------------------------------------------------------------------

  /** The exponential delay after the k-th failure, capped. */
  function Backoff(p: Policy, k: nat): int
    requires k >= 1
  {
    Min(p.maxDelay, p.baseDelay * Pow2(k - 1))
  }

  lemma {:induction false} BackoffStaysCapped(p: Policy, j: nat, k: nat)
    requires ValidPolicy(p) && 1 <= j <= k && Backoff(p, j) == p.maxDelay
    ensures Backoff(p, k) == p.maxDelay
    decreases k
  {
    if j < k {
      BackoffStaysCapped(p, j, k - 1);
      BackoffDoubles(p, k - 1);
    }
  }

  lemma BackoffDoubles(p: Policy, k: nat)
    requires ValidPolicy(p) && k >= 1
    ensures Backoff(p, k + 1) == Min(p.maxDelay, 2 * Backoff(p, k))
  {
    assert p.baseDelay * Pow2(k) == 2 * (p.baseDelay * Pow2(k - 1));
  }

  /** retryDelay, in 64-bit nanoseconds: the doubling loop computes the capped exponential, and
      the vendor's delay raises it up to the cap. */
  method RetryDelay(p: Policy, failedAttempt: nat, vendorDelay: int64) returns (delay: int64)
    requires ValidPolicy(p) && failedAttempt >= 1
    ensures delay == Min(p.maxDelay, Max(vendorDelay, Backoff(p, failedAttempt)))
    ensures p.baseDelay <= delay <= p.maxDelay
  {
    delay := p.baseDelay;
    var attempt := 1;
    while attempt < failedAttempt && delay < p.maxDelay
      invariant 1 <= attempt <= failedAttempt && p.baseDelay <= delay == Backoff(p, attempt)
    {
      BackoffDoubles(p, attempt);
      if delay > p.maxDelay / 2 {
        delay := p.maxDelay;
        BackoffStaysCapped(p, attempt + 1, failedAttempt);
        attempt := failedAttempt;
        break;
      }
      delay := delay * 2;
      attempt := attempt + 1;
    }
    if attempt < failedAttempt {
      BackoffStaysCapped(p, attempt, failedAttempt);
    }
    if vendorDelay > delay {
      delay := vendorDelay;
    }
    if delay > p.maxDelay {
      return p.maxDelay;
    }
  }

  // ---------------------------------------------------------------------------
  // One target
  // ---------------------------------------------------------------------------

  datatype Failure = Failure(kind: Class, retryAfter: int64)

  /** What a call to the provider comes back with, before it is normalized. */
  datatype Reply<T> =
    | Good(result: T)
    | InvalidResult
    | Classified(failure: Failure)
    | ContextCanceled
    | DeadlineExceeded
    | Unknown

  /** How a pause between two attempts ends: in full, or interrupted after some time. */
  datatype Pause = Slept | PauseCanceled(at: nat) | PauseDeadline(at: nat)

  /** normalizeProviderFailure and contextProviderFailure */
  function Normalize<T>(r: Reply<T>): Result<T, Failure> {
    match r
    case Good(x) => Ok(x)
    case InvalidResult => Err(Failure(Rejected, 0))
    case Classified(f) => Err(f)
    case ContextCanceled => Err(Failure(Canceled, 0))
    case DeadlineExceeded => Err(Failure(Transient, 0))
    case Unknown => Err(Failure(Rejected, 0))
  }

  predicate Retryable(f: Failure) { f.kind.RateLimited? || f.kind.Transient? }

  predicate CanFailover(f: Failure) {
    f.kind.Authentication? || f.kind.Authorization? || f.kind.RateLimited? || f.kind.Transient? || f.kind.Rejected?
        || f.kind.Unsupported?
  }

  /** The replies a target would give to its successive calls, and how the pauses after them end. */
  datatype Script<T> = Script(replies: nat -> Reply<T>, pauses: nat -> Pause)

  /** Attempt k is the last: it succeeds, fails beyond retry, uses up the attempts, or the pause
      after it is interrupted. */
  predicate Decisive<T>(p: Policy, s: Script<T>, k: nat) {
    var r := Normalize(s.replies(k));
    r.Ok? || !Retryable(r.error) || k == p.maxAttempts || !s.pauses(k).Slept?
  }

  /** What the loop reports when attempt k is the last. */
  function Verdict<T>(p: Policy, s: Script<T>, k: nat): Result<T, Failure> {
    var r := Normalize(s.replies(k));
    if r.Ok? || !Retryable(r.error) || k == p.maxAttempts then r
    else Err(Failure(if s.pauses(k).PauseDeadline? then Transient else Canceled, 0))
  }

  /** transcribeTarget: it stops at the first decisive attempt, whose verdict it reports. It sleeps at
      most the maximal delay after each call but the last allowed one, interrupted pauses included. */
  method TranscribeTarget<T>(p: Policy, s: Script<T>) returns (r: Result<T, Failure>, calls: nat, slept: int)
    requires ValidPolicy(p)
    ensures 1 <= calls <= p.maxAttempts && Decisive(p, s, calls) && forall k :: 1 <= k < calls ==> !Decisive(p, s, k)
    ensures r == Verdict(p, s, calls)
    ensures 0 <= slept <= calls * p.maxDelay && slept <= (p.maxAttempts - 1) * p.maxDelay
    ensures s.pauses(calls).Slept? ==> slept <= (calls - 1) * p.maxDelay
  {
    calls, slept := 1, 0;
    while true
      invariant 1 <= calls <= p.maxAttempts && 0 <= slept <= (calls - 1) * p.maxDelay
      invariant forall k :: 1 <= k < calls ==> !Decisive(p, s, k)
      decreases p.maxAttempts - calls
    {
      r := Normalize(s.replies(calls));
      OneMorePause(p, calls);
      if r.Ok? || !Retryable(r.error) || calls == p.maxAttempts {
        return;
      }
      var delay := RetryDelay(p, calls, r.error.retryAfter);
      var pause := s.pauses(calls);
      if !pause.Slept? {
        slept := slept + Min(pause.at, delay);
        r := Err(Failure(if pause.PauseDeadline? then Transient else Canceled, 0));
        return;
      }
      slept, calls := slept + delay, calls + 1;
    }
    assert false;
  }

  lemma ProductGrows(a: nat, b: nat, d: nat)
    requires a <= b
    ensures a * d <= b * d
  {}

  lemma OneMorePause(p: Policy, calls: nat)
    requires ValidPolicy(p) && 1 <= calls <= p.maxAttempts
    ensures calls * p.maxDelay == (calls - 1) * p.maxDelay + p.maxDelay
    ensures (calls - 1) * p.maxDelay <= (p.maxAttempts - 1) * p.maxDelay
    ensures calls < p.maxAttempts ==> calls * p.maxDelay <= (p.maxAttempts - 1) * p.maxDelay
  {
    ProductGrows(calls - 1, p.maxAttempts - 1, p.maxDelay);
    if calls < p.maxAttempts {
      ProductGrows(calls, p.maxAttempts - 1, p.maxDelay);
    }
  }

  /** The number of calls a target gets: up to the first decisive attempt. */
  function Calls<T>(p: Policy, s: Script<T>, k: nat): (n: nat)
    requires 1 <= k <= p.maxAttempts
    ensures k <= n <= p.maxAttempts && Decisive(p, s, n) && forall j :: k <= j < n ==> !Decisive(p, s, j)
    decreases p.maxAttempts - k
  {
    if Decisive(p, s, k) then k else Calls(p, s, k + 1)
  }

  function TargetVerdict<T>(p: Policy, s: Script<T>): Result<T, Failure>
    requires ValidPolicy(p)
  {
    Verdict(p, s, Calls(p, s, 1))
  }

  /** A reply that ends the calls to its target at once: whatever is not a rate limit, a transient
      failure or a deadline. */
  predicate Final<T>(r: Reply<T>) {
    match r
    case Classified(f) => f.kind !in {RateLimited, Transient}
    case DeadlineExceeded => false
    case _ => true
  }

  /** A target whose pauses are not interrupted is called again exactly while its replies are not
      final and attempts are left, and what it reports is the last of them. */
  lemma CalledUntilFinal<T>(p: Policy, s: Script<T>)
    requires ValidPolicy(p) && forall k :: s.pauses(k).Slept?
    ensures var n := Calls(p, s, 1);
            && (forall k :: 1 <= k < n ==> !Final(s.replies(k))) && (n < p.maxAttempts ==> Final(s.replies(n)))
            && TargetVerdict(p, s) == Normalize(s.replies(n))
  {
    var n := Calls(p, s, 1);
    forall k | 1 <= k < n
      ensures !Final(s.replies(k))
    {
      assert !Decisive(p, s, k);
    }
  }

  /** An interrupted pause ends the target: with a transient failure if its time ran out, which the
      next target may mend, and canceled otherwise, which none may. */
  lemma InterruptedPauseEnds<T>(p: Policy, s: Script<T>, k: nat)
    requires ValidPolicy(p) && 1 <= k < p.maxAttempts && !s.pauses(k).Slept? && !Final(s.replies(k))
    requires forall j :: 1 <= j < k ==> !Final(s.replies(j)) && s.pauses(j).Slept?
    ensures Calls(p, s, 1) == k && TargetVerdict(p, s).Err?
    ensures TargetVerdict(p, s).error.kind == (if s.pauses(k).PauseDeadline? then Transient else Canceled)
    ensures CanFailover(TargetVerdict(p, s).error) <==> s.pauses(k).PauseDeadline?
  {
    assert Decisive(p, s, k);
  }

  /** What a reply comes to: a canceled request stops the route, a deadline is worth another attempt, and a
      result that is not valid, like an error of no known class, is worth another target only. */
  lemma WhatRepliesMean<T>(r: Reply<T>)
    ensures Normalize(r).Ok? <==> r.Good?
    ensures r.Classified? ==> Normalize(r) == Err(r.failure)
    ensures r.ContextCanceled? ==> Normalize(r).error.kind == Canceled && !CanFailover(Normalize(r).error)
    ensures r.DeadlineExceeded? ==> Normalize(r).error.kind == Transient && Retryable(Normalize(r).error)
    ensures r.InvalidResult? || r.Unknown? ==>
              Normalize(r).error.kind == Rejected && !Retryable(Normalize(r).error) && CanFailover(Normalize(r).error)
  {}

  /** The failures that stop a route: a bad configuration, bad audio and cancellation. What is worth
      a retry is worth another target. */
  lemma StopsExactly(f: Failure)
    ensures !CanFailover(f) <==> f.kind in {InvalidConfiguration, InvalidAudio, Canceled}
    ensures Retryable(f) ==> CanFailover(f)
  {}

  // ---------------------------------------------------------------------------
  // The route
  // ---------------------------------------------------------------------------

  datatype Target = Target(profileId: string, policy: Policy)

  function AttemptSum(route: seq<Target>): int {
    if route == [] then 0 else AttemptSum(route[..|route| - 1]) + route[|route| - 1].policy.maxAttempts
  }

  /** The longest a route may sleep. */
  function SleepBound(route: seq<Target>): int {
    if route == [] then 0
    else
      SleepBound(route[..|route| - 1])
      + (route[|route| - 1].policy.maxAttempts - 1) * route[|route| - 1].policy.maxDelay
  }

  predicate WithinBounds(route: seq<Target>, calls: int, slept: int) {
    calls <= AttemptSum(route) && 0 <= slept <= SleepBound(route)
  }

  /** The target fails in a way that is safe to fail over. */
  predicate FailsSafely<T>(p: Policy, s: Script<T>) {
    ValidPolicy(p) && TargetVerdict(p, s).Err? && CanFailover(TargetVerdict(p, s).error)
  }

  /** Transcribe along a non-empty route: the result is that of the first target that succeeds or
      fails in a way that must not be failed over, or else the last failure; every target before
      it failed in a way that is safe to fail over. */
  method TranscribeRoute<T>(route: seq<Target>, scripts: seq<Script<T>>)
    returns (r: Result<(T, string), Failure>, used: nat, calls: nat, slept: int)
    requires route != [] && |scripts| == |route| && forall t :: t in route ==> ValidPolicy(t.policy)
    ensures 1 <= used <= |route|
    ensures forall i :: 0 <= i < used - 1 ==> FailsSafely(route[i].policy, scripts[i])
    ensures match TargetVerdict(route[used - 1].policy, scripts[used - 1])
            case Ok(x) => r == Ok((x, route[used - 1].profileId))
            case Err(f) => r == Err(f) && (used == |route| || !CanFailover(f))
    ensures 1 <= calls && WithinBounds(route[..used], calls, slept)
  {
    used, calls, slept := 0, 0, 0;
    while true
      invariant 0 <= used < |route| && WithinBounds(route[..used], calls, slept) && used <= calls
      invariant forall i :: 0 <= i < used ==> FailsSafely(route[i].policy, scripts[i])
      decreases |route| - used
    {
      var result, made, paused := TryTarget(route[used].policy, scripts[used]);
      SumsGrow(route, used, calls, slept, made, paused);
      used, calls, slept := used + 1, calls + made, slept + paused;
      if result.Ok? {
        r := Ok((result.value, route[used - 1].profileId));
        return;
      }
      r := Err(result.error);
      if !CanFailover(result.error) || used == |route| {
        return;
      }
    }
    assert false;
  }

  method TryTarget<T>(p: Policy, s: Script<T>) returns (r: Result<T, Failure>, calls: nat, slept: int)
    requires ValidPolicy(p)
    ensures r == TargetVerdict(p, s) && 1 <= calls <= p.maxAttempts && 0 <= slept <= (p.maxAttempts - 1) * p.maxDelay
  {
    r, calls, slept := TranscribeTarget(p, s);
    assert calls == Calls(p, s, 1);
  }

  /** One more target adds its own bounds. */
  lemma SumsGrow(route: seq<Target>, used: nat, calls: nat, slept: int, made: nat, paused: int)
    requires used < |route| && WithinBounds(route[..used], calls, slept)
    requires 1 <= made <= route[used].policy.maxAttempts
    requires 0 <= paused <= (route[used].policy.maxAttempts - 1) * route[used].policy.maxDelay
    ensures WithinBounds(route[..used + 1], calls + made, slept + paused)
  {
    assert route[..used + 1][..used] == route[..used];
  }

  lemma SleepGrows(calls: nat, p: Policy)
    requires ValidPolicy(p) && 1 <= calls <= p.maxAttempts
    ensures (calls - 1) * p.maxDelay <= (p.maxAttempts - 1) * p.maxDelay
  {}

  /** So a whole transcription is bounded by the policies of the route alone. */
  lemma {:induction false} RouteBounds(route: seq<Target>, n: nat)
    requires n <= |route| && forall t :: t in route ==> ValidPolicy(t.policy)
    ensures AttemptSum(route[..n]) <= AttemptSum(route) <= 10 * |route|
    ensures SleepBound(route[..n]) <= SleepBound(route)
    decreases |route|
  {
    if n == |route| {
      assert route[..n] == route;
      if route != [] {
        var front := route[..|route| - 1];
        RouteBounds(front, |front|);
      }
    } else {
      var front := route[..|route| - 1];
      assert route[|route| - 1] in route && route[..n] == front[..n];
      RouteBounds(front, n);
      SleepGrows(1, route[|route| - 1].policy);
    }
  }

  // ---------------------------------------------------------------------------
  // The registry
  // ---------------------------------------------------------------------------

  function TrimAll(ids: seq<string>): (r: seq<string>)
    ensures |r| == |ids| && forall i :: 0 <= i < |r| ==> r[i] == TrimSpace(ids[i])
  {
    seq(|ids|, i requires 0 <= i < |ids| => TrimSpace(ids[i]))
  }

  /** Set stores an identifier as it is given and Activate looks for trimmed ones, so one with blanks
      at its ends can be registered and can never be on the route. */
  lemma PaddedIsNeverActivated(id: string, ids: seq<string>)
    requires !Trimmed(id)
    ensures id !in TrimAll(ids)
  {
    forall i | 0 <= i < |ids|
      ensures TrimAll(ids)[i] != id
    {
      TrimSpaceTrims(ids[i]);
    }
  }

  predicate Distinct(ids: seq<string>) { forall i, j :: 0 <= i < j < |ids| ==> ids[i] != ids[j] }

  datatype RegistryError = InvalidProfile | AlreadyRegistered | NotRegistered | ProfileActive | NoActiveProfile
      | MissingActiveProfile

  class Registry {
    var targets: map<string, Policy>
    var active: seq<string>

    /** Every member of the route is registered, once, and every policy is within its limits. */
    ghost predicate Valid()
      reads this
    {
      && (forall id :: id in targets ==> ValidPolicy(targets[id]))
      && (forall i :: 0 <= i < |active| ==> active[i] in targets)
      && Distinct(active)
    }

    constructor ()
      ensures Valid() && targets == map[] && active == []
    {
      targets, active := map[], [];
    }

    /** Register and Replace: `accepted` is what the provider's own checks say. */
    method Set(id: string, policy: Policy, accepted: bool, replace: bool) returns (error: Option<RegistryError>)
      requires Valid()
      modifies this
      ensures Valid() && active == old(active)
      ensures error.None? <==>
              TrimSpace(id) != "" && accepted && ValidPolicy(policy) && (id in old(targets) <==> replace)
      ensures targets == if error.None? then old(targets)[id := policy] else old(targets)
    {
      if TrimSpace(id) == "" || !accepted || !ValidPolicy(policy) {
        return Some(InvalidProfile);
      }
      if id in targets && !replace {
        return Some(AlreadyRegistered);
      }
      if id !in targets && replace {
        return Some(NotRegistered);
      }
      targets := targets[id := policy];
      return None;
    }

    /** Activate trims the identifiers and installs the whole route or leaves the old one. */
    method Activate(ids: seq<string>) returns (error: Option<RegistryError>)
      requires Valid()
      modifies this
      ensures Valid() && targets == old(targets)
      ensures error.None? <==>
              ids != [] && (forall i :: 0 <= i < |ids| ==> TrimSpace(ids[i]) in targets) && Distinct(TrimAll(ids))
      ensures active == if error.None? then TrimAll(ids) else old(active)
    {
      if ids == [] {
        return Some(InvalidProfile);
      }
      var seen: set<string>, normalized: seq<string> := {}, [];
      for k := 0 to |ids|
        invariant active == old(active) && targets == old(targets)
        invariant normalized == TrimAll(ids)[..k] && Distinct(normalized)
        invariant forall id :: id in seen <==> id in normalized
        invariant forall i :: 0 <= i < k ==> TrimSpace(ids[i]) in targets
      {
        var id := TrimSpace(ids[k]);
        if id !in targets {
          return Some(NotRegistered);
        }
        if id in seen {
          var i :| 0 <= i < k && normalized[i] == id;
          assert TrimAll(ids)[i] == TrimAll(ids)[k];
          return Some(InvalidProfile);
        }
        seen, normalized := seen + {id}, normalized + [id];
      }
      active := normalized;
      return None;
    }

    method Remove(id: string) returns (error: Option<RegistryError>)
      requires Valid()
      modifies this
      ensures Valid() && active == old(active)
      ensures error.None? <==> id in old(targets) && id !in active
      ensures targets == if error.None? then old(targets) - {id} else old(targets)
    {
      if id !in targets {
        return Some(NotRegistered);
      }
      for i := 0 to |active|
        invariant id !in active[..i] && targets == old(targets) && active == old(active)
      {
        if active[i] == id {
          return Some(ProfileActive);
        }
      }
      targets := targets - {id};
      return None;
    }

    /** activeTargets: the error for a missing member of the route is never returned. */
    method ActiveTargets() returns (r: Result<seq<Target>, RegistryError>)
      requires Valid()
      ensures if active == [] then r == Err(NoActiveProfile)
              else r.Ok? && |r.value| == |active| && forall i :: 0 <= i < |active| ==>
                  active[i] in targets && r.value[i] == Target(active[i], targets[active[i]])
    {
      if active == [] {
        return Err(NoActiveProfile);
      }
      var found: seq<Target> := [];
      for i := 0 to |active|
        invariant |found| == i && forall k :: 0 <= k < i ==>
                  active[k] in targets && found[k] == Target(active[k], targets[active[k]])
      {
        if active[i] !in targets {
          return Err(MissingActiveProfile);
        }
        found := found + [Target(active[i], targets[active[i]])];
      }
      return Ok(found);
    }
  }
}
