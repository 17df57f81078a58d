/**
 * The circuit breaker and the retry/backoff loop of network_resilience.py.
 *
 * The protected call and the HTTP request are not run: their outcomes and the
 * clock readings are parameters. A breaker's state is both a class (fields the
 * source updates in place) and a value (Snapshot) on which the transition
 * functions Admit, Complete and Step are defined; CircuitBreaker.Call is proved
 * to perform exactly Step.
 */
module NetworkResilience {
  import opened Wrappers

  datatype BreakerState = Closed | Open | HalfOpen

  /** The constructor arguments of CircuitBreaker other than its name. */
  datatype BreakerConfig = BreakerConfig(failureThreshold: int, recoveryTimeout: int, halfOpenMaxCalls: int)

  const DefaultBreakerConfig := BreakerConfig(5, 30, 3)

  /** Every field `call` reads or writes. Times are seconds on one clock. */
  datatype Snapshot = Snapshot(
    state: BreakerState,
    failureCount: nat,
    lastFailureTime: Option<real>,
    halfOpenCalls: nat,
    totalCalls: nat,
    successfulCalls: nat,
    failedCalls: nat)

  /** How the protected function ended when it was invoked. */
  datatype Outcome = Success | Failure

  /** What `call` did: returned the result, re-raised the failure, or raised CircuitBreakerError without invoking. */
  datatype CallResult = Returned | Raised | Rejected

  function Initial(): (b: Snapshot)
    ensures b.state == Closed && b.lastFailureTime == None
    ensures b.failureCount == b.halfOpenCalls == b.totalCalls == b.successfulCalls == b.failedCalls == 0
  {
    Snapshot(Closed, 0, None, 0, 0, 0, 0)
  }

  function Max0(n: int): nat {
    if n < 0 then 0 else n
  }

  /**
   * The breaker invariant between calls: the call accounting balances, an
   * OPEN breaker has a failure time, a HALF_OPEN breaker is within capacity,
   * and a CLOSED breaker is below its failure threshold.
   */
  predicate Valid(cfg: BreakerConfig, b: Snapshot) {
    && b.totalCalls == b.successfulCalls + b.failedCalls
    && (b.state == Open ==> b.lastFailureTime.Some?)
    && (b.state == HalfOpen ==> b.halfOpenCalls <= Max0(cfg.halfOpenMaxCalls))
    && (b.state == Closed && cfg.failureThreshold >= 1 ==> b.failureCount < cfg.failureThreshold)
  }

  datatype Admission = Admitted(b: Snapshot) | Refused(b: Snapshot)

  /** True when an OPEN breaker may try again: strictly more than the recovery timeout has passed. */
  predicate RecoveryElapsed(cfg: BreakerConfig, b: Snapshot, now: real) {
    b.lastFailureTime.Some? && now - b.lastFailureTime.value > cfg.recoveryTimeout as real
  }

  /** The part of `call` before the protected function runs: counting, OPEN timeout, HALF_OPEN capacity. */
  function Admit(cfg: BreakerConfig, b: Snapshot, now: real): (a: Admission)
    ensures a.b.totalCalls == b.totalCalls + 1 && a.b.successfulCalls == b.successfulCalls
    ensures a.b.failedCalls == b.failedCalls + (if a.Refused? then 1 else 0)
    ensures a.Admitted? ==> a.b.state != Open
    ensures a.Admitted? && a.b.state == HalfOpen ==> 1 <= a.b.halfOpenCalls <= cfg.halfOpenMaxCalls
  {
    var b1 := b.(totalCalls := b.totalCalls + 1);
    var b2 := if b1.state == Open && RecoveryElapsed(cfg, b1, now)
      then b1.(state := HalfOpen, halfOpenCalls := 0) else b1;
    if b2.state == Open then Refused(b2.(failedCalls := b2.failedCalls + 1))
    else if b2.state == HalfOpen && b2.halfOpenCalls >= cfg.halfOpenMaxCalls then
      Refused(b2.(failedCalls := b2.failedCalls + 1))
    else if b2.state == HalfOpen then Admitted(b2.(halfOpenCalls := b2.halfOpenCalls + 1))
    else Admitted(b2)
  }

  /** The part of `call` after the protected function ended, at time `doneAt`. */
  function Complete(cfg: BreakerConfig, b: Snapshot, doneAt: real, outcome: Outcome): (c: Snapshot)
    ensures c.totalCalls == b.totalCalls && c.halfOpenCalls == b.halfOpenCalls
    ensures outcome == Success ==> c.successfulCalls == b.successfulCalls + 1 && c.failedCalls == b.failedCalls
    ensures outcome == Failure ==> c.successfulCalls == b.successfulCalls && c.failedCalls == b.failedCalls + 1
    ensures outcome == Failure ==> c.lastFailureTime == Some(doneAt) && c.failureCount == b.failureCount + 1
  {
    if outcome == Success then
      var b1 := b.(successfulCalls := b.successfulCalls + 1);
      var b2 := if b1.state == HalfOpen && b1.halfOpenCalls >= cfg.halfOpenMaxCalls
        then b1.(state := Closed, failureCount := 0) else b1;
      if b2.state == Closed then b2.(failureCount := 0) else b2
    else
      var b1 := b.(failedCalls := b.failedCalls + 1, failureCount := b.failureCount + 1,
                   lastFailureTime := Some(doneAt));
      var b2 := if b1.state == Closed && b1.failureCount >= cfg.failureThreshold
        then b1.(state := Open) else b1;
      if b2.state == HalfOpen then b2.(state := Open) else b2
  }

  datatype StepResult = StepResult(next: Snapshot, result: CallResult)

  /**
   * One whole `call`: the protected function runs only when admitted. Every
   * call is counted once in totalCalls and once in exactly one of
   * successfulCalls and failedCalls.
   */
  function Step(cfg: BreakerConfig, b: Snapshot, now: real, doneAt: real, outcome: Outcome): (r: StepResult)
    ensures r.next.totalCalls == b.totalCalls + 1
    ensures r.next.successfulCalls == b.successfulCalls + (if r.result == Returned then 1 else 0)
    ensures r.next.failedCalls == b.failedCalls + (if r.result == Returned then 0 else 1)
    ensures r.result != Rejected ==> r.result == (if outcome == Success then Returned else Raised)
  {
    match Admit(cfg, b, now)
    case Refused(b1) => StepResult(b1, Rejected)
    case Admitted(b1) =>
      StepResult(Complete(cfg, b1, doneAt, outcome), if outcome == Success then Returned else Raised)
  }

  /** Every call keeps the breaker invariant. */
  lemma StepKeepsValid(cfg: BreakerConfig, b: Snapshot, now: real, doneAt: real, outcome: Outcome)
    requires Valid(cfg, b)
    ensures Valid(cfg, Step(cfg, b, now, doneAt, outcome).next)
  {
  }

  /** OPEN with no recorded failure time, or within the recovery timeout: rejected, still OPEN, nothing else moves. */
  lemma OpenRejects(cfg: BreakerConfig, b: Snapshot, now: real, doneAt: real, outcome: Outcome)
    requires b.state == Open && !RecoveryElapsed(cfg, b, now)
    ensures Step(cfg, b, now, doneAt, outcome) ==
      StepResult(b.(totalCalls := b.totalCalls + 1, failedCalls := b.failedCalls + 1), Rejected)
  {
  }

  /**
   * OPEN once the recovery timeout has strictly passed: the breaker becomes
   * HALF_OPEN with its call counter reset, and the call goes through when the
   * capacity is positive (it is then the first of the HALF_OPEN calls).
   */
  lemma OpenRecovers(cfg: BreakerConfig, b: Snapshot, now: real)
    requires b.state == Open && RecoveryElapsed(cfg, b, now)
    ensures var a := Admit(cfg, b, now);
      a.b.state == HalfOpen
      && (cfg.halfOpenMaxCalls >= 1 ==> a.Admitted? && a.b.halfOpenCalls == 1)
      && (cfg.halfOpenMaxCalls < 1 ==> a.Refused? && a.b.halfOpenCalls == 0)
  {
  }

  /** HALF_OPEN at capacity: rejected without invoking, state and counter unchanged. */
  lemma HalfOpenAtCapacityRejects(cfg: BreakerConfig, b: Snapshot, now: real, doneAt: real, outcome: Outcome)
    requires b.state == HalfOpen && b.halfOpenCalls >= cfg.halfOpenMaxCalls
    ensures Step(cfg, b, now, doneAt, outcome) ==
      StepResult(b.(totalCalls := b.totalCalls + 1, failedCalls := b.failedCalls + 1), Rejected)
  {
  }

  /**
   * Leaving HALF_OPEN: a failure reopens the breaker; a success closes it,
   * resetting the failure count, exactly when this call reaches the capacity.
   */
  lemma HalfOpenOutcome(cfg: BreakerConfig, b: Snapshot, now: real, doneAt: real, outcome: Outcome)
    requires b.state == HalfOpen && b.halfOpenCalls < cfg.halfOpenMaxCalls
    ensures var r := Step(cfg, b, now, doneAt, outcome);
      && r.next.halfOpenCalls == b.halfOpenCalls + 1
      && (outcome == Failure ==> r.result == Raised && r.next.state == Open)
      && (outcome == Success ==>
            && r.result == Returned
            && (r.next.state == Closed <==> b.halfOpenCalls + 1 >= cfg.halfOpenMaxCalls)
            && (r.next.state == Closed ==> r.next.failureCount == 0)
            && (r.next.state != Closed ==> r.next.state == HalfOpen))
  {
  }

  /** CLOSED: a success resets the failure count; the failure that reaches the threshold opens the circuit. */
  lemma ClosedOutcome(cfg: BreakerConfig, b: Snapshot, now: real, doneAt: real, outcome: Outcome)
    requires b.state == Closed
    ensures var r := Step(cfg, b, now, doneAt, outcome);
      && (outcome == Success ==> r.result == Returned && r.next.state == Closed && r.next.failureCount == 0)
      && (outcome == Failure ==>
            && r.result == Raised
            && r.next.failureCount == b.failureCount + 1
            && r.next.lastFailureTime == Some(doneAt)
            && r.next.state == (if b.failureCount + 1 >= cfg.failureThreshold then Open else Closed))
  {
  }

  /** One call of a sequence: the clock at entry, the clock when the protected call ended, its outcome. */
  datatype Event = Event(now: real, doneAt: real, outcome: Outcome)

  /** The breaker after a sequence of calls, one after the other. */
  function Run(cfg: BreakerConfig, b: Snapshot, events: seq<Event>): Snapshot
    decreases |events|
  {
    if events == [] then b
    else Run(cfg, Step(cfg, b, events[0].now, events[0].doneAt, events[0].outcome).next, events[1..])
  }

  /** Over any sequence of calls the invariant holds and every call is counted exactly once. */
  lemma {:induction false} RunKeepsValid(cfg: BreakerConfig, b: Snapshot, events: seq<Event>)
    requires Valid(cfg, b)
    ensures Valid(cfg, Run(cfg, b, events))
    ensures Run(cfg, b, events).totalCalls == b.totalCalls + |events|
    decreases |events|
  {
    if events != [] {
      var e := events[0];
      StepKeepsValid(cfg, b, e.now, e.doneAt, e.outcome);
      RunKeepsValid(cfg, Step(cfg, b, e.now, e.doneAt, e.outcome).next, events[1..]);
    }
  }

  /**
   * Consecutive failures from CLOSED count up one by one, whatever the clock
   * says, and the circuit opens exactly at the failure that reaches the threshold.
   */
  lemma {:induction false} FailuresOpenAtThreshold(cfg: BreakerConfig, b: Snapshot, events: seq<Event>)
    requires b.state == Closed && b.failureCount < cfg.failureThreshold
    requires b.failureCount + |events| <= cfg.failureThreshold
    requires forall k :: 0 <= k < |events| ==> events[k].outcome == Failure
    ensures Run(cfg, b, events).failureCount == b.failureCount + |events|
    ensures Run(cfg, b, events).state ==
      (if b.failureCount + |events| == cfg.failureThreshold then Open else Closed)
    decreases |events|
  {
    if events != [] {
      var e := events[0];
      var b1 := Step(cfg, b, e.now, e.doneAt, e.outcome).next;
      ClosedOutcome(cfg, b, e.now, e.doneAt, e.outcome);
      if |events| > 1 {
        FailuresOpenAtThreshold(cfg, b1, events[1..]);
      }
    }
  }

  /** A fresh breaker opens after exactly `failureThreshold` consecutive failures, not before. */
  lemma FreshBreakerOpensAtThreshold(cfg: BreakerConfig, events: seq<Event>)
    requires cfg.failureThreshold >= 1 && |events| <= cfg.failureThreshold
    requires forall k :: 0 <= k < |events| ==> events[k].outcome == Failure
    ensures Run(cfg, Initial(), events).state == (if |events| == cfg.failureThreshold then Open else Closed)
  {
    FailuresOpenAtThreshold(cfg, Initial(), events);
  }

  class CircuitBreaker {
    const name: string
    const failureThreshold: int
    const recoveryTimeout: int
    const halfOpenMaxCalls: int

    var state: BreakerState
    var failureCount: nat
    var lastFailureTime: Option<real>
    var halfOpenCalls: nat
    var totalCalls: nat
    var successfulCalls: nat
    var failedCalls: nat

    function Config(): BreakerConfig {
      BreakerConfig(failureThreshold, recoveryTimeout, halfOpenMaxCalls)
    }

    function Snap(): Snapshot
      reads this
    {
      Snapshot(state, failureCount, lastFailureTime, halfOpenCalls, totalCalls, successfulCalls, failedCalls)
    }

    /** A new breaker is CLOSED with every counter at zero and no failure time. */
    constructor (name: string, failureThreshold: int := 5, recoveryTimeout: int := 30, halfOpenMaxCalls: int := 3)
      ensures Config() == BreakerConfig(failureThreshold, recoveryTimeout, halfOpenMaxCalls)
      ensures this.name == name && Snap() == Initial()
    {
      this.name := name;
      this.failureThreshold := failureThreshold;
      this.recoveryTimeout := recoveryTimeout;
      this.halfOpenMaxCalls := halfOpenMaxCalls;
      state := Closed;
      failureCount := 0;
      lastFailureTime := None;
      halfOpenCalls := 0;
      totalCalls := 0;
      successfulCalls := 0;
      failedCalls := 0;
    }

    method StateTransition(newState: BreakerState)
      modifies this`state
      ensures state == newState
    {
      state := newState;
    }

    /**
     * Calls the protected function, whose outcome is `outcome` when it is
     * invoked, on a clock reading `now` at entry and `doneAt` when it ends.
     */
    method Call(now: real, doneAt: real, outcome: Outcome) returns (r: CallResult)
      modifies this
      ensures StepResult(Snap(), r) == Step(Config(), old(Snap()), now, doneAt, outcome)
    {
      totalCalls := totalCalls + 1;
      if state == Open {
        if lastFailureTime.Some? && now - lastFailureTime.value > recoveryTimeout as real {
          StateTransition(HalfOpen);
          halfOpenCalls := 0;
        } else {
          failedCalls := failedCalls + 1;
          return Rejected;
        }
      }
      if state == HalfOpen && halfOpenCalls >= halfOpenMaxCalls {
        failedCalls := failedCalls + 1;
        return Rejected;
      }
      if state == HalfOpen {
        halfOpenCalls := halfOpenCalls + 1;
      }
      if outcome == Success {
        successfulCalls := successfulCalls + 1;
        if state == HalfOpen {
          if halfOpenCalls >= halfOpenMaxCalls {
            StateTransition(Closed);
            failureCount := 0;
          }
        }
        if state == Closed {
          failureCount := 0;
        }
        r := Returned;
      } else {
        failedCalls := failedCalls + 1;
        failureCount := failureCount + 1;
        lastFailureTime := Some(doneAt);
        if state == Closed && failureCount >= failureThreshold {
          StateTransition(Open);
        }
        if state == HalfOpen {
          StateTransition(Open);
        }
        r := Raised;
      }
    }
  }

  /** RetryConfig; the default is 3 retries, backoff 1.0 doubling up to 30.0, with jitter. */
  datatype RetryConfig = RetryConfig(
    maxRetries: int,
    initialBackoff: real,
    maxBackoff: real,
    backoffFactor: real,
    jitter: bool)

  const DefaultRetryConfig := RetryConfig(3, 1.0, 30.0, 2.0, true)

  /** How one request attempt ended: a parsed body, an error of a retryable class, or any other error. */
  datatype Attempt<T> = Succeeded(payload: T) | RetryableError(cause: string) | OtherError(cause: string)

  datatype FetchError =
    | RaisedError(cause: string)   // the attempt's own exception, re-raised
    | UnknownFailure               // the loop never ran (negative max_retries)
    | CircuitOpen                  // the circuit breaker refused the call

  datatype FetchResult<T> = Fetched(payload: T) | FetchFailed(error: FetchError)

  function MinReal(a: real, b: real): real {
    if a <= b then a else b
  }

  /** Attempts the loop may make: max_retries + 1, or none when max_retries is negative. */
  function MaxAttempts(cfg: RetryConfig): nat {
    if cfg.maxRetries < 0 then 0 else cfg.maxRetries + 1
  }

  /** The backoff before the (k+2)-th attempt: initial_backoff, then min(backoff * factor, max_backoff). */
  function BackoffAt(cfg: RetryConfig, k: nat): real
    decreases k
  {
    if k == 0 then cfg.initialBackoff
    else MinReal(BackoffAt(cfg, k - 1) * cfg.backoffFactor, cfg.maxBackoff)
  }

  /** The first n backoffs. */
  function Backoffs(cfg: RetryConfig, n: nat): (s: seq<real>)
    ensures |s| == n
    decreases n
  {
    if n == 0 then [] else Backoffs(cfg, n - 1) + [BackoffAt(cfg, n - 1)]
  }

  /** The k-th backoff slept is BackoffAt(k). */
  lemma {:induction false} BackoffsAt(cfg: RetryConfig, n: nat)
    ensures forall k :: 0 <= k < n ==> Backoffs(cfg, n)[k] == BackoffAt(cfg, k)
    decreases n
  {
    if n > 0 {
      BackoffsAt(cfg, n - 1);
    }
  }

  /** What the attempt loop ends with: its result and the number of attempts made. */
  datatype Tried<T> = Tried(result: FetchResult<T>, made: nat)

  /**
   * The attempt loop of `_fetch_with_retry` entered after `attempt`
   * attempts: attempt number k (from 1) ends as `outcome(k)`; a success
   * returns, a non-retryable error is re-raised at once, and a retryable
   * one is re-raised once max_retries retries have been used.
   */
  function RetryFrom<T>(cfg: RetryConfig, outcome: nat -> Attempt<T>, attempt: nat): Tried<T>
    decreases cfg.maxRetries + 1 - attempt
  {
    if attempt > cfg.maxRetries then Tried(FetchFailed(UnknownFailure), attempt)
    else match outcome(attempt + 1)
      case Succeeded(p) => Tried(Fetched(p), attempt + 1)
      case OtherError(c) => Tried(FetchFailed(RaisedError(c)), attempt + 1)
      case RetryableError(c) =>
        if attempt + 1 > cfg.maxRetries then Tried(FetchFailed(RaisedError(c)), attempt + 1)
        else RetryFrom(cfg, outcome, attempt + 1)
  }

  /**
   * The loop makes at most max_retries + 1 attempts and none when
   * max_retries is negative; every attempt before the last was a retryable
   * failure; the last one's success is returned, a non-retryable error is
   * re-raised as soon as it happens, and a retryable one is re-raised only
   * on the final attempt.
   */
  lemma {:induction false} RetryFromMeaning<T>(cfg: RetryConfig, outcome: nat -> Attempt<T>, attempt: nat)
    requires attempt == 0 || attempt <= cfg.maxRetries
    ensures var t := RetryFrom(cfg, outcome, attempt);
      && t.made <= MaxAttempts(cfg)
      && (cfg.maxRetries < 0 ==> t == Tried(FetchFailed(UnknownFailure), 0))
      && (cfg.maxRetries >= 0 ==> t.made > attempt)
      && (forall k :: attempt < k < t.made ==> outcome(k).RetryableError?)
      && (t.made > attempt ==> match outcome(t.made)
            case Succeeded(p) => t.result == Fetched(p)
            case OtherError(c) => t.result == FetchFailed(RaisedError(c))
            case RetryableError(c) => t.made == MaxAttempts(cfg) && t.result == FetchFailed(RaisedError(c)))
    decreases cfg.maxRetries + 1 - attempt
  {
    if attempt <= cfg.maxRetries && outcome(attempt + 1).RetryableError? && attempt + 1 <= cfg.maxRetries {
      RetryFromMeaning(cfg, outcome, attempt + 1);
    }
  }

  /**
   * The attempt loop of `_fetch_with_retry`: its result and attempt count
   * are RetryFrom's from no attempts, and `sleeps` lists the backoff slept
   * after each failed attempt that was retried (before jitter).
   */
  method FetchWithRetry<T>(cfg: RetryConfig, outcome: nat -> Attempt<T>)
    returns (r: FetchResult<T>, made: nat, sleeps: seq<real>)
    ensures Tried(r, made) == RetryFrom(cfg, outcome, 0)
    ensures sleeps == Backoffs(cfg, if made == 0 then 0 else made - 1)
  {
    var attempt: nat := 0;
    var backoff := cfg.initialBackoff;
    sleeps := [];
    while attempt <= cfg.maxRetries
      invariant attempt == 0 || attempt <= cfg.maxRetries
      invariant RetryFrom(cfg, outcome, attempt) == RetryFrom(cfg, outcome, 0)
      invariant sleeps == Backoffs(cfg, attempt)
      invariant backoff == BackoffAt(cfg, attempt)
      decreases cfg.maxRetries - attempt
    {
      attempt := attempt + 1;
      match outcome(attempt)
      case Succeeded(p) =>
        return Fetched(p), attempt, sleeps;
      case OtherError(c) =>
        return FetchFailed(RaisedError(c)), attempt, sleeps;
      case RetryableError(c) =>
        if attempt > cfg.maxRetries {
          return FetchFailed(RaisedError(c)), attempt, sleeps;
        }
        sleeps := sleeps + [backoff];
        backoff := MinReal(backoff * cfg.backoffFactor, cfg.maxBackoff);
        assert backoff == BackoffAt(cfg, attempt);
    }
    r, made := FetchFailed(UnknownFailure), attempt;
  }

  /** Every backoff after the first is capped at max_backoff. */
  lemma BackoffCapped(cfg: RetryConfig, k: nat)
    requires k >= 1
    ensures BackoffAt(cfg, k) <= cfg.maxBackoff
  {
  }

  /**
   * With a non-negative start within the cap and a factor of at least 1, the
   * schedule never decreases and never exceeds max_backoff.
   */
  lemma {:induction false} BackoffMonotone(cfg: RetryConfig, k: nat)
    requires 0.0 <= cfg.initialBackoff <= cfg.maxBackoff && cfg.backoffFactor >= 1.0
    ensures 0.0 <= BackoffAt(cfg, k) <= BackoffAt(cfg, k + 1) <= cfg.maxBackoff
    decreases k
  {
    if k > 0 {
      BackoffMonotone(cfg, k - 1);
    }
    StepUp(BackoffAt(cfg, k), cfg.backoffFactor, cfg.maxBackoff);
  }

  lemma ScaleUp(b: real, f: real)
    requires b >= 0.0 && f >= 1.0
    ensures b <= b * f
  {
    assert b * f == b + b * (f - 1.0);
    assert b * (f - 1.0) >= 0.0;
  }

  /** One step of the schedule from a backoff within [0, cap] stays within [backoff, cap]. */
  lemma StepUp(b: real, f: real, cap: real)
    requires 0.0 <= b <= cap && f >= 1.0
    ensures b <= MinReal(b * f, cap) <= cap
  {
    ScaleUp(b, f);
  }

  /** With the defaults the three retries sleep 1, 2 and 4 seconds before jitter. */
  lemma DefaultSchedule()
    ensures MaxAttempts(DefaultRetryConfig) == 4
    ensures Backoffs(DefaultRetryConfig, 3) == [1.0, 2.0, 4.0]
  {
    assert BackoffAt(DefaultRetryConfig, 1) == 2.0;
    assert BackoffAt(DefaultRetryConfig, 2) == 4.0;
  }

  /**
   * `resilient_fetch`: the retry loop, run inside the circuit breaker's
   * `call` when a breaker is given. A refused call makes no attempt.
   */
  method ResilientFetch<T>(cfg: RetryConfig, breaker: CircuitBreaker?, now: real, doneAt: real, outcome: nat -> Attempt<T>)
    returns (r: FetchResult<T>, made: nat)
    modifies breaker
    ensures breaker != null ==>
      var step := Step(breaker.Config(), old(breaker.Snap()), now, doneAt, if r.Fetched? then Success else Failure);
      && breaker.Snap() == step.next
      && (step.result == Rejected <==> r == FetchFailed(CircuitOpen))
      && (step.result == Rejected ==> made == 0)
    ensures breaker == null || r != FetchFailed(CircuitOpen) ==> Tried(r, made) == RetryFrom(cfg, outcome, 0)
    ensures made <= MaxAttempts(cfg)
    ensures r.Fetched? ==> made >= 1 && outcome(made) == Succeeded(r.payload)
  {
    var fetched, attempts, _ := FetchWithRetry(cfg, outcome);
    RetryFromMeaning(cfg, outcome, 0);
    if breaker == null {
      r, made := fetched, attempts;
    } else {
      var res := breaker.Call(now, doneAt, if fetched.Fetched? then Success else Failure);
      if res == Rejected {
        r, made := FetchFailed(CircuitOpen), 0;
      } else {
        r, made := fetched, attempts;
      }
    }
  }
}
