/**
 The circuit breaker of internal/producer/circuit.go: its state as a value, one function
 per locked section, and the class whose methods perform those sections in place.

 A clock reading is a number of nanoseconds passed in by the caller. `lastFailure` is None
 while the Go field still holds the zero time, which lies infinitely far in the past.
 */
module Circuit {
  import opened Prelude

  datatype CircuitState = Closed | Open | HalfOpen

  datatype Config = Config(
    failureThreshold: int,
    successThreshold: int,
    recoveryTimeout: int,
    windowDuration: int,
    maxConcurrentRequests: int)
  {
    // What the constructor guarantees of the configuration it keeps.
    predicate Valid() {
      && failureThreshold > 0
      && successThreshold > 0
      && recoveryTimeout > 0
      && windowDuration > 0
      && maxConcurrentRequests > 0
    }
  }

  const SECOND := 1_000_000_000

  function WithDefaults(c: Config): (r: Config)
    ensures r.Valid()
    ensures c.failureThreshold > 0 ==> r.failureThreshold == c.failureThreshold
    ensures c.successThreshold > 0 ==> r.successThreshold == c.successThreshold
    ensures c.recoveryTimeout > 0 ==> r.recoveryTimeout == c.recoveryTimeout
    ensures c.windowDuration > 0 ==> r.windowDuration == c.windowDuration
    ensures c.maxConcurrentRequests > 0 ==> r.maxConcurrentRequests == c.maxConcurrentRequests
    ensures c.Valid() ==> r == c
    ensures c.failureThreshold <= 0 && c.successThreshold <= 0 && c.recoveryTimeout <= 0 &&
            c.windowDuration <= 0 && c.maxConcurrentRequests <= 0 ==>
              r == Config(5, 2, 30 * SECOND, 60 * SECOND, 1)
  {
    Config(
      if c.failureThreshold <= 0 then 5 else c.failureThreshold,
      if c.successThreshold <= 0 then 2 else c.successThreshold,
      if c.recoveryTimeout <= 0 then 30 * SECOND else c.recoveryTimeout,
      if c.windowDuration <= 0 then 60 * SECOND else c.windowDuration,
      if c.maxConcurrentRequests <= 0 then 1 else c.maxConcurrentRequests)
  }

  datatype Breaker = Breaker(
    state: CircuitState,
    failureCount: int,
    successCount: int,
    halfOpenRequests: int,
    lastFailure: Option<int>,
    totalRequests: int,
    totalFailures: int,
    totalSuccesses: int,
    totalRejected: int,
    circuitOpenCount: int)

  const NEW_BREAKER := Breaker(Closed, 0, 0, 0, None, 0, 0, 0, 0, 0)

  // ---------- the locked sections, as functions ----------

  function ToClosed(b: Breaker): Breaker {
    if b.state == Closed then b
    else b.(state := Closed, failureCount := 0, successCount := 0, halfOpenRequests := 0)
  }

  function ToOpen(b: Breaker): Breaker {
    if b.state == Open then b
    else b.(state := Open, successCount := 0, halfOpenRequests := 0, circuitOpenCount := b.circuitOpenCount + 1)
  }

  function ToHalfOpen(b: Breaker): Breaker {
    if b.state == HalfOpen then b
    else b.(state := HalfOpen, successCount := 0, halfOpenRequests := 0)
  }

  predicate Recovered(b: Breaker, cfg: Config, now: int) {
    b.lastFailure.None? || now - b.lastFailure.value >= cfg.recoveryTimeout
  }

  predicate Admits(b: Breaker, cfg: Config, now: int) {
    match b.state
    case Closed => true
    case Open => Recovered(b, cfg, now)
    case HalfOpen => b.halfOpenRequests < cfg.maxConcurrentRequests
  }

  // The state canExecute leaves behind: only an Open breaker that has recovered changes.
  function AfterCheck(b: Breaker, cfg: Config, now: int): Breaker {
    if b.state == Open && Recovered(b, cfg, now) then ToHalfOpen(b) else b
  }

  function SuccessRecorded(b: Breaker, cfg: Config): Breaker {
    var b1 := b.(totalSuccesses := b.totalSuccesses + 1);
    match b.state
    case Closed => b1.(failureCount := 0)
    case Open => b1
    case HalfOpen =>
      var b2 := b1.(successCount := b.successCount + 1);
      if b2.successCount >= cfg.successThreshold then ToClosed(b2) else b2
  }

  // recordFailure reads the clock twice under the lock: `at` becomes lastFailureTime and
  // `checked` is the later reading that the window test compares with it.
  function FailureRecorded(b: Breaker, cfg: Config, at: int, checked: int): Breaker {
    var b1 := b.(
      totalFailures := b.totalFailures + 1,
      lastFailure := Some(at),
      failureCount := if checked - at <= cfg.windowDuration then b.failureCount + 1 else 1);
    match b.state
    case Closed => if b1.failureCount >= cfg.failureThreshold then ToOpen(b1) else b1
    case Open => b1
    case HalfOpen => ToOpen(b1)
  }

  function Decremented(b: Breaker): Breaker {
    if b.halfOpenRequests > 0 then b.(halfOpenRequests := b.halfOpenRequests - 1) else b
  }

  // ---------- one undisturbed call of Execute ----------

  datatype Outcome = Succeeded | Failed

  // `arrival` is the reading of canExecute, `outcome` what the operation returns, and
  // `finished` / `checked` the two readings recordFailure makes.
  datatype Call = Call(arrival: int, outcome: Outcome, finished: int, checked: int)

  datatype Reply = Rejected(failures: int, state: CircuitState) | Returned(outcome: Outcome)

  function Executed(b: Breaker, cfg: Config, call: Call): Breaker {
    if !Admits(b, cfg, call.arrival) then
      b.(totalRejected := b.totalRejected + 1)
    else
      var b1 := AfterCheck(b, cfg, call.arrival);
      var counted := b1.state == HalfOpen;
      var b2 := if counted then b1.(halfOpenRequests := b1.halfOpenRequests + 1) else b1;
      var b3 := b2.(totalRequests := b2.totalRequests + 1);
      var b4 := match call.outcome
        case Failed => FailureRecorded(b3, cfg, call.finished, call.checked)
        case Succeeded => SuccessRecorded(b3, cfg);
      if counted then Decremented(b4) else b4
  }

  // ---------- the object ----------

  class CircuitBreaker {
    const config: Config
    var state: CircuitState
    var failureCount: int
    var successCount: int
    var lastFailureTime: Option<int>
    var halfOpenRequests: int
    var totalRequests: int
    var totalFailures: int
    var totalSuccesses: int
    var totalRejected: int
    var circuitOpenCount: int

    ghost function Value(): Breaker
      reads this
    {
      Breaker(state, failureCount, successCount, halfOpenRequests, lastFailureTime,
              totalRequests, totalFailures, totalSuccesses, totalRejected, circuitOpenCount)
    }

    constructor (config: Config)
      ensures this.config == WithDefaults(config)
      ensures Value() == NEW_BREAKER
    {
      this.config := WithDefaults(config);
      state := Closed;
      failureCount, successCount, halfOpenRequests := 0, 0, 0;
      lastFailureTime := None;
      totalRequests, totalFailures, totalSuccesses, totalRejected, circuitOpenCount := 0, 0, 0, 0, 0;
    }

    method TransitionToClosed()
      modifies this
      ensures Value() == ToClosed(old(Value()))
    {
      if state != Closed {
        state := Closed;
        failureCount := 0;
        successCount := 0;
        halfOpenRequests := 0;
      }
    }

    method TransitionToOpen()
      modifies this
      ensures Value() == ToOpen(old(Value()))
    {
      if state != Open {
        state := Open;
        successCount := 0;
        halfOpenRequests := 0;
        circuitOpenCount := circuitOpenCount + 1;
      }
    }

    method TransitionToHalfOpen()
      modifies this
      ensures Value() == ToHalfOpen(old(Value()))
    {
      if state != HalfOpen {
        state := HalfOpen;
        successCount := 0;
        halfOpenRequests := 0;
      }
    }

    method CanExecute(now: int) returns (ok: bool)
      modifies this
      ensures ok == Admits(old(Value()), config, now)
      ensures Value() == AfterCheck(old(Value()), config, now)
    {
      match state {
        case Closed =>
          ok := true;
        case Open =>
          if lastFailureTime.None? || now - lastFailureTime.value >= config.recoveryTimeout {
            TransitionToHalfOpen();
            ok := true;
          } else {
            ok := false;
          }
        case HalfOpen =>
          ok := halfOpenRequests < config.maxConcurrentRequests;
      }
    }

    method RecordRequest()
      modifies this
      ensures Value() == old(Value()).(totalRequests := old(totalRequests) + 1)
    {
      totalRequests := totalRequests + 1;
    }

    method RecordRejection()
      modifies this
      ensures Value() == old(Value()).(totalRejected := old(totalRejected) + 1)
    {
      totalRejected := totalRejected + 1;
    }

    method RecordSuccess()
      modifies this
      ensures Value() == SuccessRecorded(old(Value()), config)
    {
      totalSuccesses := totalSuccesses + 1;
      match state {
        case Closed =>
          failureCount := 0;
        case Open =>
        case HalfOpen =>
          successCount := successCount + 1;
          if successCount >= config.successThreshold {
            TransitionToClosed();
          }
      }
    }

    method RecordFailure(at: int, checked: int)
      modifies this
      ensures Value() == FailureRecorded(old(Value()), config, at, checked)
    {
      totalFailures := totalFailures + 1;
      lastFailureTime := Some(at);
      if checked - at <= config.windowDuration {
        failureCount := failureCount + 1;
      } else {
        failureCount := 1;
      }
      match state {
        case Closed =>
          if failureCount >= config.failureThreshold {
            TransitionToOpen();
          }
        case Open =>
        case HalfOpen =>
          TransitionToOpen();
      }
    }

    method IncrementHalfOpenRequests()
      modifies this
      ensures Value() == old(Value()).(halfOpenRequests := old(halfOpenRequests) + 1)
    {
      halfOpenRequests := halfOpenRequests + 1;
    }

    method DecrementHalfOpenRequests()
      modifies this
      ensures Value() == Decremented(old(Value()))
    {
      if halfOpenRequests > 0 {
        halfOpenRequests := halfOpenRequests - 1;
      }
    }

    method Reset()
      modifies this
      ensures Value() == NEW_BREAKER
    {
      state := Closed;
      failureCount, successCount, halfOpenRequests := 0, 0, 0;
      totalRequests, totalFailures, totalSuccesses, totalRejected, circuitOpenCount := 0, 0, 0, 0, 0;
      lastFailureTime := None;
    }

    // A call that no other call overlaps. The operation's result and the clock readings it
    // leads to are the environment's choice, fixed in `call`.
    method Execute(call: Call) returns (reply: Reply)
      modifies this
      ensures Value() == Executed(old(Value()), config, call)
      ensures reply == if Admits(old(Value()), config, call.arrival) then Returned(call.outcome)
                       else Rejected(old(failureCount), old(state))
    {
      var ok := CanExecute(call.arrival);
      if !ok {
        RecordRejection();
        return Rejected(failureCount, state);
      }
      var counted := state == HalfOpen;
      if counted {
        IncrementHalfOpenRequests();
      }
      RecordRequest();
      match call.outcome {
        case Failed => RecordFailure(call.finished, call.checked);
        case Succeeded => RecordSuccess();
      }
      if counted {
        DecrementHalfOpenRequests();
      }
      reply := Returned(call.outcome);
    }
  }
}
