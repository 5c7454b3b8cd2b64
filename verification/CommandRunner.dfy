/** The policy runner around device commands: retry, idempotent replay and ambiguous results
    (`DeviceCommandRunner`, `DeviceCommandPolicy`). */
module CommandRunner {
  import opened Wrappers

  type FaultCode = string

  const COMMAND_TIMEOUT: FaultCode := "command_timeout"
  const TRANSIENT_COMMAND_FAILURE: FaultCode := "transient_command_failure"
  const AMBIGUOUS_PHYSICAL_RESULT: FaultCode := "ambiguous_physical_result"

  datatype Policy = Policy(retryCount: nat, retryable: seq<FaultCode>, nonRetryable: seq<FaultCode>, reviewAmbiguous: bool) {
    predicate IsRetryable(code: FaultCode) {
      code !in nonRetryable && code in retryable
    }

    /** An exception's own mark goes before the policy's list of retryable faults. */
    predicate ShouldRetry(code: FaultCode, mark: Option<bool>) {
      if mark.Some? then mark.value && code !in nonRetryable else IsRetryable(code)
    }
  }

  /** `CommandError` carries the fault code and the retryable mark of a DeviceCommandError; `AdapterError` is any
      other DeviceAdapterError; `OtherError` is an exception the runner does not catch. */
  datatype Error = CommandError(code: FaultCode, retryable: Option<bool>) | AdapterError | OtherError

  /** How one run of the operation ends; `TimedOut` is the policy's own timeout. */
  datatype Attempt<+T> = Returned(result: T) | TimedOut | Raised(error: Error)

  datatype Reconciliation = NotApplicable | Confirmed | Mismatch | Unreconciled {
    predicate ManualReviewRequired() {
      Mismatch? || Unreconciled?
    }
  }

  /** How the caller reads a result. */
  datatype Reading<!T> = Reading(fault: T -> Option<FaultCode>, ambiguous: T -> bool, reconcile: T -> Reconciliation,
                                 raiseOnAmbiguous: bool)

  datatype Outcome<+T> = Returns(result: T) | Raises(error: Error)

  datatype Verdict<+T> = Retry | Finish(outcome: Outcome<T>, cached: Option<T>)

  /** What the runner makes of one attempt. */
  function Judge<T>(policy: Policy, reading: Reading<T>, attempt: Attempt<T>, last: bool): (v: Verdict<T>)
    ensures last ==> v.Finish?
    ensures v.Finish? && v.outcome.Returns? ==> attempt == Returned(v.outcome.result) && v.cached == Some(v.outcome.result)
  {
    match attempt
    case Returned(result) =>
      var fault := reading.fault(result);
      var ambiguous := reading.ambiguous(result) || reading.reconcile(result).ManualReviewRequired();
      if fault.Some? && policy.IsRetryable(fault.value) && !last then Retry
      else if ambiguous && policy.reviewAmbiguous && reading.raiseOnAmbiguous then
        Finish(Raises(CommandError(AMBIGUOUS_PHYSICAL_RESULT, Some(false))), Some(result))
      else Finish(Returns(result), Some(result))
    case Raised(CommandError(code, mark)) =>
      if policy.ShouldRetry(code, mark) && !last then Retry else Finish(Raises(CommandError(code, mark)), None)
    case TimedOut =>
      if policy.IsRetryable(COMMAND_TIMEOUT) && !last then Retry
      else Finish(Raises(CommandError(COMMAND_TIMEOUT, Some(true))), None)
    case Raised(error) => Finish(Raises(error), None)
  }

  datatype Ended<S, T> = Ended(world: S, outcome: Outcome<T>, cached: Option<T>, runs: nat)

  /** The retry loop from attempt `n` on. `operation` takes the state of the device to its next state. */
  function Attempts<S, T>(policy: Policy, reading: Reading<T>, operation: S -> (S, Attempt<T>), world: S, n: nat): Ended<S, T>
    requires 1 <= n <= policy.retryCount + 1
    decreases policy.retryCount + 1 - n
  {
    var (next, attempt) := operation(world);
    match Judge(policy, reading, attempt, n == policy.retryCount + 1)
    case Finish(outcome, cached) => Ended(next, outcome, cached, 1)
    case Retry =>
      var later := Attempts(policy, reading, operation, next, n + 1);
      later.(runs := later.runs + 1)
  }

  /** The device after `k` runs of the operation. */
  function After<S, T>(operation: S -> (S, Attempt<T>), world: S, k: nat): S {
    if k == 0 then world else operation(After(operation, world, k - 1)).0
  }

  lemma {:induction false} AfterFirst<S, T>(operation: S -> (S, Attempt<T>), world: S, k: nat)
    ensures After(operation, operation(world).0, k) == After(operation, world, k + 1)
  {
    if k > 0 {
      AfterFirst(operation, world, k - 1);
    }
  }

  /** The attempt made on the device after `k` runs. */
  function AttemptAt<S, T>(operation: S -> (S, Attempt<T>), world: S, k: nat): Attempt<T> {
    operation(After(operation, world, k)).1
  }

  /** The verdict on the attempt after `k` runs. */
  function VerdictAt<S, T>(policy: Policy, reading: Reading<T>, operation: S -> (S, Attempt<T>), world: S, k: nat,
                           n: nat): Verdict<T> {
    Judge(policy, reading, AttemptAt(operation, world, k), n + k == policy.retryCount + 1)
  }

  /** The operation runs once for every attempt that calls for a retry and once more, never more often than the policy
      allows; the last attempt decides. */
  lemma {:induction false} RunsWithinPolicy<S, T>(policy: Policy, reading: Reading<T>, operation: S -> (S, Attempt<T>),
                                                  world: S, n: nat)
    requires 1 <= n <= policy.retryCount + 1
    ensures var e := Attempts(policy, reading, operation, world, n);
            && 1 <= e.runs <= policy.retryCount + 2 - n
            && e.world == After(operation, world, e.runs)
            && (forall k: nat :: k < e.runs - 1 ==> VerdictAt(policy, reading, operation, world, k, n).Retry?)
            && VerdictAt(policy, reading, operation, world, e.runs - 1, n) == Finish(e.outcome, e.cached)
    decreases policy.retryCount + 1 - n
  {
    var (next, attempt) := operation(world);
    assert After(operation, world, 0) == world;
    if Judge(policy, reading, attempt, n == policy.retryCount + 1).Retry? {
      RunsWithinPolicy(policy, reading, operation, next, n + 1);
      var e := Attempts(policy, reading, operation, world, n);
      AfterFirst(operation, world, e.runs - 1);
      forall k: nat | 0 < k < e.runs
        ensures VerdictAt(policy, reading, operation, world, k, n) == VerdictAt(policy, reading, operation, next, k - 1, n + 1)
      {
        AfterFirst(operation, world, k - 1);
      }
    } else {
      assert After(operation, world, 1) == next;
    }
  }

  /* ---------- what is retried ---------- */

  /** A failure the policy's lists allow to be tried again: a listed fault that is not excluded, or an exception that says so
      itself and is not excluded. */
  predicate MayRepeat<T>(policy: Policy, reading: Reading<T>, attempt: Attempt<T>) {
    match attempt
    case Returned(result) =>
      var fault := reading.fault(result);
      fault.Some? && fault.value in policy.retryable && fault.value !in policy.nonRetryable
    case TimedOut => "command_timeout" in policy.retryable && "command_timeout" !in policy.nonRetryable
    case Raised(CommandError(code, None)) => code in policy.retryable && code !in policy.nonRetryable
    case Raised(CommandError(code, Some(again))) => again && code !in policy.nonRetryable
    case Raised(_) => false
  }

  /** An attempt is followed by another exactly when the lists allow it and the attempts are not used up. */
  lemma RetriesExactly<S, T>(policy: Policy, reading: Reading<T>, operation: S -> (S, Attempt<T>), world: S)
    ensures var e := Attempts(policy, reading, operation, world, 1);
            e.runs >= 2 <==> policy.retryCount >= 1 && MayRepeat(policy, reading, operation(world).1)
  {
    var (next, attempt) := operation(world);
    if policy.retryCount >= 1 && MayRepeat(policy, reading, attempt) {
      RunsWithinPolicy(policy, reading, operation, next, 2);
    }
  }

  /** The physical outcome is not known from the result. */
  predicate Unclear<T>(reading: Reading<T>, result: T) {
    reading.ambiguous(result) || reading.reconcile(result).Mismatch? || reading.reconcile(result).Unreconciled?
  }

  /** A result without a fault that the caller takes. */
  predicate Good<T>(policy: Policy, reading: Reading<T>, attempt: Attempt<T>) {
    && attempt.Returned? && reading.fault(attempt.result).None?
    && (Unclear(reading, attempt.result) ==> !(policy.reviewAmbiguous && reading.raiseOnAmbiguous))
  }

  /** Failures that may be repeated are repeated until the first good attempt, whose result is returned. */
  lemma {:induction false} RetriesUntilGood<S, T>(policy: Policy, reading: Reading<T>, operation: S -> (S, Attempt<T>), world: S,
                                                  n: nat, failures: nat)
    requires 1 <= n && n + failures <= policy.retryCount + 1
    requires forall k: nat :: k < failures ==> MayRepeat(policy, reading, AttemptAt(operation, world, k))
    requires Good(policy, reading, AttemptAt(operation, world, failures))
    ensures var e := Attempts(policy, reading, operation, world, n);
            && e.runs == failures + 1 && e.world == After(operation, world, failures + 1)
            && e.outcome.Returns? && AttemptAt(operation, world, failures) == Returned(e.outcome.result)
            && e.cached == Some(e.outcome.result)
    decreases failures
  {
    var next := operation(world).0;
    assert After(operation, world, 0) == world;
    assert operation(world).1 == AttemptAt(operation, world, 0);
    if failures > 0 {
      assert MayRepeat(policy, reading, AttemptAt(operation, world, 0));
      forall k: nat | k < failures ensures AttemptAt(operation, next, k) == AttemptAt(operation, world, k + 1) {
        AfterFirst(operation, world, k);
      }
      AfterFirst(operation, world, failures);
      AfterFirst(operation, world, failures - 1);
      RetriesUntilGood(policy, reading, operation, next, n + 1, failures - 1);
    }
  }

  /** Failures that last until the attempts are used up end the call with the last of them: as it was returned or raised, a
      timeout of the policy as a command timeout. */
  lemma {:induction false} RetriesRunOut<S, T>(policy: Policy, reading: Reading<T>, operation: S -> (S, Attempt<T>), world: S, n: nat)
    requires 1 <= n <= policy.retryCount + 1
    requires forall k: nat :: k < policy.retryCount + 1 - n ==> MayRepeat(policy, reading, AttemptAt(operation, world, k))
    requires !AttemptAt(operation, world, policy.retryCount + 1 - n).Returned?
    ensures var e := Attempts(policy, reading, operation, world, n);
            var last := AttemptAt(operation, world, policy.retryCount + 1 - n);
            && e.runs == policy.retryCount + 2 - n && e.cached.None?
            && e.outcome == Raises(if last.TimedOut? then CommandError("command_timeout", Some(true)) else last.error)
    decreases policy.retryCount + 1 - n
  {
    var next := operation(world).0;
    assert After(operation, world, 0) == world;
    assert operation(world).1 == AttemptAt(operation, world, 0);
    if n < policy.retryCount + 1 {
      assert MayRepeat(policy, reading, AttemptAt(operation, world, 0));
      forall k: nat | k < policy.retryCount + 1 - n ensures AttemptAt(operation, next, k) == AttemptAt(operation, world, k + 1) {
        AfterFirst(operation, world, k);
      }
      RetriesRunOut(policy, reading, operation, next, n + 1);
    }
  }

  /** A first result that is unclear ends the call: as an error where the caller asks for one, and the result is kept. */
  lemma UnclearResultRaises<S, T>(policy: Policy, reading: Reading<T>, operation: S -> (S, Attempt<T>), world: S, result: T)
    requires operation(world).1 == Returned(result) && !MayRepeat(policy, reading, Returned(result))
    ensures var e := Attempts(policy, reading, operation, world, 1);
            && e.runs == 1 && e.cached == Some(result)
            && e.outcome == if Unclear(reading, result) && policy.reviewAmbiguous && reading.raiseOnAmbiguous
                            then Raises(CommandError("ambiguous_physical_result", Some(false))) else Returns(result)
  {
  }

  /* ---------- keyed calls ---------- */

  /** One call of the runner: a known key is answered from the cache without running anything. */
  function CallOnce<S, K, T>(policy: Policy, reading: Reading<T>, cache: map<K, T>, key: Option<K>,
                             operation: S -> (S, Attempt<T>), world: S): (map<K, T>, Ended<S, T>) {
    if key.Some? && key.value in cache then (cache, Ended(world, Returns(cache[key.value]), Some(cache[key.value]), 0))
    else
      var e := Attempts(policy, reading, operation, world, 1);
      (if key.Some? && e.cached.Some? then cache[key.value := e.cached.value] else cache, e)
  }

  datatype Call<!S, K, !T> = Call(reading: Reading<T>, key: Option<K>, operation: S -> (S, Attempt<T>))

  /** Cache and device after a sequence of calls. */
  function Calls<S, K, T>(policy: Policy, cache: map<K, T>, world: S, calls: seq<Call<S, K, T>>): (map<K, T>, S) {
    if calls == [] then (cache, world)
    else
      var (before, w) := Calls(policy, cache, world, calls[..|calls| - 1]);
      var last := calls[|calls| - 1];
      var (after, e) := CallOnce(policy, last.reading, before, last.key, last.operation, w);
      (after, e.world)
  }

  lemma {:induction false} CacheKeeps<S, K, T>(policy: Policy, cache: map<K, T>, world: S, calls: seq<Call<S, K, T>>, key: K)
    requires key in cache
    ensures key in Calls(policy, cache, world, calls).0 && Calls(policy, cache, world, calls).0[key] == cache[key]
  {
    if calls != [] {
      CacheKeeps(policy, cache, world, calls[..|calls| - 1], key);
    }
  }

  /** Once a keyed call has returned, every later call with that key returns the same result without running its
      operation, whatever was called in between. */
  lemma KeyedCallRunsOnce<S, K, T>(policy: Policy, cache: map<K, T>, world: S, first: Call<S, K, T>,
                                   between: seq<Call<S, K, T>>, again: Call<S, K, T>)
    requires first.key.Some? && again.key == first.key
    requires CallOnce(policy, first.reading, cache, first.key, first.operation, world).1.outcome.Returns?
    ensures var (cached, e) := CallOnce(policy, first.reading, cache, first.key, first.operation, world);
            var (later, w) := Calls(policy, cached, e.world, between);
            var (_, replay) := CallOnce(policy, again.reading, later, again.key, again.operation, w);
            replay.runs == 0 && replay.outcome == e.outcome && replay.world == w
  {
    var (cached, e) := CallOnce(policy, first.reading, cache, first.key, first.operation, world);
    if first.key.value !in cache {
      RunsWithinPolicy(policy, first.reading, first.operation, world, 1);
    }
    CacheKeeps(policy, cached, e.world, between, first.key.value);
  }

  /* ---------- effects ---------- */

  /** Attempts that will be retried or raise leave the physical part of the device alone. */
  ghost predicate EffectOnlyWhenCached<S(!new), P, T>(policy: Policy, reading: Reading<T>,
                                                      operation: S -> (S, Attempt<T>), physical: S -> P) {
    forall w: S, last: bool {:trigger Judge(policy, reading, operation(w).1, last)} ::
      var v := Judge(policy, reading, operation(w).1, last);
      v.Retry? || v.cached.None? ==> physical(operation(w).0) == physical(w)
  }

  lemma {:induction false} RetriesHaveNoEffect<S(!new), P, T>(policy: Policy, reading: Reading<T>,
                                                              operation: S -> (S, Attempt<T>), physical: S -> P,
                                                              world: S, n: nat, k: nat)
    requires EffectOnlyWhenCached(policy, reading, operation, physical)
    requires forall j: nat :: j < k ==> VerdictAt(policy, reading, operation, world, j, n).Retry?
    ensures physical(After(operation, world, k)) == physical(world)
  {
    if k > 0 {
      RetriesHaveNoEffect(policy, reading, operation, physical, world, n, k - 1);
      assert VerdictAt(policy, reading, operation, world, k - 1, n).Retry?;
    }
  }

  /** Such a call either changes nothing physical or does what exactly one successful run of the operation does to the
      device as it was found. */
  lemma EffectAtMostOnce<S(!new), P, T>(policy: Policy, reading: Reading<T>, operation: S -> (S, Attempt<T>),
                                        physical: S -> P, world: S)
    returns (at: S)
    requires EffectOnlyWhenCached(policy, reading, operation, physical)
    ensures var e := Attempts(policy, reading, operation, world, 1);
            && physical(at) == physical(world) && e.world == operation(at).0
            && Judge(policy, reading, operation(at).1, e.runs == policy.retryCount + 1) == Finish(e.outcome, e.cached)
            && (e.cached.None? ==> physical(e.world) == physical(world))
  {
    var e := Attempts(policy, reading, operation, world, 1);
    RunsWithinPolicy(policy, reading, operation, world, 1);
    at := After(operation, world, e.runs - 1);
    RetriesHaveNoEffect(policy, reading, operation, physical, world, 1, e.runs - 1);
    assert VerdictAt(policy, reading, operation, world, e.runs - 1, 1) == Finish(e.outcome, e.cached);
  }

  /* ---------- the runner ---------- */

  class DeviceCommandRunner<K(==), T> {
    const policy: Policy
    var cache: map<K, T>

    constructor (policy: Policy)
      ensures this.policy == policy && cache == map[]
    {
      this.policy, cache := policy, map[];
    }

    /** The code after the loop is never reached. */
    method Run<S>(reading: Reading<T>, key: Option<K>, operation: S -> (S, Attempt<T>), world: S)
      returns (after: S, outcome: Outcome<T>, runs: nat)
      modifies this
      ensures var (cached, e) := CallOnce(policy, reading, old(cache), key, operation, world);
              cache == cached && after == e.world && outcome == e.outcome && runs == e.runs
    {
      after, outcome, runs := world, Raises(AdapterError), 0;
      if key.Some? && key.value in cache {
        return world, Returns(cache[key.value]), 0;
      }
      var maxAttempts := policy.retryCount + 1;
      for n := 1 to maxAttempts + 1
        invariant n <= maxAttempts && runs == n - 1
        invariant cache == old(cache)
        invariant Attempts(policy, reading, operation, world, 1)
               == Attempts(policy, reading, operation, after, n).(runs := Attempts(policy, reading, operation, after, n).runs + runs)
      {
        var (next, attempt) := operation(after);
        after, runs := next, runs + 1;
        match attempt {
          case Returned(result) =>
            var fault := reading.fault(result);
            var ambiguous := reading.ambiguous(result) || reading.reconcile(result).ManualReviewRequired();
            if fault.Some? && policy.IsRetryable(fault.value) && n < maxAttempts {
              continue;
            }
            if key.Some? {
              cache := cache[key.value := result];
            }
            if ambiguous && policy.reviewAmbiguous && reading.raiseOnAmbiguous {
              return after, Raises(CommandError(AMBIGUOUS_PHYSICAL_RESULT, Some(false))), runs;
            }
            return after, Returns(result), runs;
          case TimedOut =>
            if policy.IsRetryable(COMMAND_TIMEOUT) && n < maxAttempts {
              continue;
            }
            return after, Raises(CommandError(COMMAND_TIMEOUT, Some(true))), runs;
          case Raised(error) =>
            if error.CommandError? && policy.ShouldRetry(error.code, error.retryable) && n < maxAttempts {
              continue;
            }
            return after, Raises(error), runs;
        }
      }
      assert false;
    }
  }
}
