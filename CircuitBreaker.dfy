/** `CircuitBreaker` of `server/error_handling.py`: a three-state machine
    around an awaited operation. The operation is represented by what it
    would do if called (`Outcome`). The clock is read twice per call: `now`
    when the call is admitted, before the await, and `done` when a failure
    is recorded, after it. */
module CircuitBreakers {
  import opened Common

  datatype BreakerState = Closed | Open | HalfOpen

  /** The mutable part of a breaker. */
  datatype BreakerView = BreakerView(state: BreakerState, failureCount: nat, lastFailureTime: Option<int>)

  /** The settings fixed at construction. */
  datatype BreakerConfig = BreakerConfig(failureThreshold: int, recoveryTimeout: int, expectedException: string)

  const INITIAL: BreakerView := BreakerView(Closed, 0, None)

  /** The invariant every reachable breaker keeps: an open or half-open
      breaker has reached the threshold and knows when it last failed, and a
      closed breaker is below the threshold unless it has never failed. */
  predicate Consistent(cfg: BreakerConfig, v: BreakerView) {
    && (v.state != Closed ==> v.failureCount >= cfg.failureThreshold && v.lastFailureTime.Some?)
    && (v.state == Closed ==> v.failureCount < cfg.failureThreshold || v.failureCount == 0)
  }

  /** `_should_attempt_reset`: strictly more than `recovery_timeout` seconds
      since the last failure. */
  predicate ShouldAttemptReset(cfg: BreakerConfig, v: BreakerView, now: int) {
    v.lastFailureTime.Some? && now - v.lastFailureTime.value > cfg.recoveryTimeout
  }

  /** `_on_success` */
  function AfterSuccess(v: BreakerView): BreakerView {
    BreakerView(Closed, 0, v.lastFailureTime)
  }

  /** `_on_failure` */
  function AfterFailure(cfg: BreakerConfig, v: BreakerView, now: int): BreakerView {
    var count := v.failureCount + 1;
    BreakerView(if count >= cfg.failureThreshold then Open else v.state, count, Some(now))
  }

  /** The gate at the top of the wrapper: an open breaker either moves to
      half-open or rejects. Returns the new view and whether the operation
      is attempted. */
  function Admit(cfg: BreakerConfig, v: BreakerView, now: int): (BreakerView, bool) {
    if v.state != Open then (v, true)
    else if ShouldAttemptReset(cfg, v, now) then (v.(state := HalfOpen), true)
    else (v, false)
  }

  /** The message of the rejection. */
  function OpenMessage(funcName: string): string {
    "Circuit breaker OPEN for " + funcName
  }

  /** One call through the wrapper, admitted at `now` and finished at
      `done`: the new view and what the caller sees. */
  function Step<T>(cfg: BreakerConfig, v: BreakerView, op: Outcome<T>, funcName: string, now: int, done: int)
    : (BreakerView, Outcome<T>)
  {
    var (admitted, attempt) := Admit(cfg, v, now);
    if !attempt then (v, Raises(GenericException(OpenMessage(funcName))))
    else match op
      case Returns(_) => (AfterSuccess(admitted), op)
      case Raises(e) =>
        if IsInstance(e, cfg.expectedException) then (AfterFailure(cfg, admitted, done), op)
        else (admitted, op)
  }

  class CircuitBreaker {
    const config: BreakerConfig
    var failureCount: nat
    var lastFailureTime: Option<int>
    var state: BreakerState

    function View(): BreakerView
      reads this
    {
      BreakerView(state, failureCount, lastFailureTime)
    }

    ghost predicate Valid()
      reads this
    {
      Consistent(config, View())
    }

    constructor (failureThreshold: int, recoveryTimeout: int, expectedException: string)
      ensures config == BreakerConfig(failureThreshold, recoveryTimeout, expectedException)
      ensures View() == INITIAL && Valid()
    {
      config := BreakerConfig(failureThreshold, recoveryTimeout, expectedException);
      failureCount := 0;
      lastFailureTime := None;
      state := Closed;
    }

    method OnSuccess()
      modifies this
      ensures View() == AfterSuccess(old(View()))
    {
      failureCount := 0;
      state := Closed;
    }

    method OnFailure(now: int)
      modifies this
      ensures View() == AfterFailure(config, old(View()), now)
    {
      failureCount := failureCount + 1;
      lastFailureTime := Some(now);
      if failureCount >= config.failureThreshold {
        state := Open;
      }
    }

    /** The wrapper `__call__` builds: `op` is what the wrapped coroutine
        would do; `invoked` says whether it was awaited. The clock reads
        `now` at admission and `done` once the operation has finished. */
    method Call<T>(op: Outcome<T>, funcName: string, now: int, done: int) returns (r: Outcome<T>, invoked: bool)
      requires Valid()
      modifies this
      ensures Valid()
      ensures (View(), r) == Step(config, old(View()), op, funcName, now, done)
      ensures invoked == Admit(config, old(View()), now).1
    {
      invoked := true;
      if state == Open {
        if lastFailureTime.Some? && now - lastFailureTime.value > config.recoveryTimeout {
          state := HalfOpen;
        } else {
          invoked := false;
          r := Raises(GenericException(OpenMessage(funcName)));
          return;
        }
      }
      match op {
        case Returns(_) =>
          OnSuccess();
          r := op;
        case Raises(e) =>
          if IsInstance(e, config.expectedException) {
            OnFailure(done);
          }
          r := op;
      }
      StepPreservesConsistency(config, old(View()), op, funcName, now, done);
    }
  }

  // ---------------------------------------------------------------------
  // Properties of the state machine

  /** Every call keeps the breaker consistent. */
  lemma StepPreservesConsistency<T>(cfg: BreakerConfig, v: BreakerView, op: Outcome<T>, funcName: string,
                                    now: int, done: int)
    requires Consistent(cfg, v)
    ensures Consistent(cfg, Step(cfg, v, op, funcName, now, done).0)
  {
  }

  /** While open and within the recovery timeout, a call is rejected with a
      generic Exception, the operation is not attempted and nothing
      changes. */
  lemma OpenRejects<T>(cfg: BreakerConfig, v: BreakerView, op: Outcome<T>, funcName: string, now: int, done: int)
    requires v.state == Open && !ShouldAttemptReset(cfg, v, now)
    ensures !Admit(cfg, v, now).1
    ensures Step(cfg, v, op, funcName, now, done) == (v, Raises(GenericException(OpenMessage(funcName))))
  {
  }

  /** Once the recovery timeout has strictly elapsed, an open breaker lets
      the call through, as a half-open trial. */
  lemma OpenAttemptsAfterTimeout(cfg: BreakerConfig, v: BreakerView, now: int)
    requires v.state == Open && v.lastFailureTime.Some?
    requires now - v.lastFailureTime.value > cfg.recoveryTimeout
    ensures Admit(cfg, v, now) == (v.(state := HalfOpen), true)
  {
  }

  /** A successful call from any state closes the breaker and clears the
      failure count. */
  lemma SuccessCloses<T>(cfg: BreakerConfig, v: BreakerView, value: T, funcName: string, now: int, done: int)
    requires Admit(cfg, v, now).1
    ensures Step(cfg, v, Returns(value), funcName, now, done) ==
              (BreakerView(Closed, 0, v.lastFailureTime), Returns(value))
  {
  }

  /** An expected failure is counted, stamped with the instant it was
      recorded (not the admission instant) and re-raised; an exception of
      another type passes through and only the half-open move remains. */
  lemma FailureCounted<T>(cfg: BreakerConfig, v: BreakerView, e: Exc, funcName: string, now: int, done: int)
    requires Admit(cfg, v, now).1
    ensures var (v', r) := Step<T>(cfg, v, Raises(e), funcName, now, done);
      && r == Raises(e)
      && (IsInstance(e, cfg.expectedException) ==>
            v'.failureCount == v.failureCount + 1 && v'.lastFailureTime == Some(done)
            && v'.state == (if v.failureCount + 1 >= cfg.failureThreshold then Open else Admit(cfg, v, now).0.state))
      && (!IsInstance(e, cfg.expectedException) ==> v' == Admit(cfg, v, now).0)
  {
  }

  /** A failed half-open trial re-opens a consistent breaker. */
  lemma HalfOpenFailureReopens<T>(cfg: BreakerConfig, v: BreakerView, e: Exc, funcName: string,
                                  now: int, done: int)
    requires Consistent(cfg, v) && v.state == HalfOpen
    requires IsInstance(e, cfg.expectedException)
    ensures Step<T>(cfg, v, Raises(e), funcName, now, done).0.state == Open
  {
  }

  /** Replays calls that all raise `e`, each failing at the instant it was
      made. */
  function Failures(cfg: BreakerConfig, v: BreakerView, e: Exc, times: seq<int>): BreakerView
    decreases |times|
  {
    if times == [] then v
    else
      var t := times[|times| - 1];
      Step<int>(cfg, Failures(cfg, v, e, times[..|times| - 1]), Raises(e), "op", t, t).0
  }

  /** From a fresh breaker, expected failures keep it closed below the
      threshold and open it exactly when the count reaches the threshold. */
  lemma {:induction false} ConsecutiveFailuresOpen(cfg: BreakerConfig, e: Exc, times: seq<int>)
    requires IsInstance(e, cfg.expectedException)
    requires cfg.failureThreshold >= 1 && |times| <= cfg.failureThreshold
    ensures Failures(cfg, INITIAL, e, times).failureCount == |times|
    ensures Failures(cfg, INITIAL, e, times).state == (if |times| == cfg.failureThreshold then Open else Closed)
    ensures times != [] ==> Failures(cfg, INITIAL, e, times).lastFailureTime == Some(times[|times| - 1])
    decreases |times|
  {
    if times != [] {
      ConsecutiveFailuresOpen(cfg, e, times[..|times| - 1]);
    }
  }

  /** The full cycle: `f` failures open the breaker, the next call within
      the timeout is rejected unattempted, a call after the timeout is
      attempted half-open, and its success closes the breaker with the
      count reset. */
  lemma {:induction false} RecoveryCycle(cfg: BreakerConfig, e: Exc, times: seq<int>, early: int, late: int)
    requires IsInstance(e, cfg.expectedException)
    requires cfg.failureThreshold >= 1 && |times| == cfg.failureThreshold
    requires early - times[|times| - 1] <= cfg.recoveryTimeout
    requires late - times[|times| - 1] > cfg.recoveryTimeout
    ensures var tripped := Failures(cfg, INITIAL, e, times);
      && tripped.state == Open
      && Step(cfg, tripped, Returns(0), "op", early, early) == (tripped, Raises(GenericException(OpenMessage("op"))))
      && Admit(cfg, tripped, late) == (tripped.(state := HalfOpen), true)
      && Step(cfg, tripped, Returns(0), "op", late, late).0 == BreakerView(Closed, 0, Some(times[|times| - 1]))
  {
    ConsecutiveFailuresOpen(cfg, e, times);
  }

  /** The recovery timeout runs from the end of the failed call: with a
      threshold of one, a call admitted at `start` that fails at `done`
      opens the breaker, and a later call is still rejected whenever it
      comes within the timeout of `done`, however long ago `start` was. */
  lemma TimeoutFromFailure(cfg: BreakerConfig, e: Exc, start: int, done: int, later: int)
    requires cfg.failureThreshold == 1 && IsInstance(e, cfg.expectedException)
    requires later - done <= cfg.recoveryTimeout
    ensures var tripped := Step<int>(cfg, INITIAL, Raises(e), "op", start, done).0;
      && tripped == BreakerView(Open, 1, Some(done))
      && Step(cfg, tripped, Returns(0), "op", later, later) == (tripped, Raises(GenericException(OpenMessage("op"))))
  {
  }
}
