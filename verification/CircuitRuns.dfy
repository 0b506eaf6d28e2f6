/**
 Interleaved runs of the circuit breaker. Execute takes the lock about five times, so a call
 in progress is a program counter and any number of calls may stand at each one; calls hold
 no other local data, so the number at each counter is all there is to know of them. A step is
 one locked section of one call, or a manual override; the scheduler chooses freely and the
 clock never runs backwards.
 */
module CircuitRuns {
  import opened Prelude
  import opened Circuit

  // How many calls stand at each program counter of Execute.
  datatype Calls = Calls(
    rejecting: nat,        // refused by canExecute, rejection not yet recorded
    admitted: nat,         // admitted, state not yet read
    counting: nat,         // read HalfOpen, halfOpenRequests not yet incremented
    starting: nat,         // request not yet recorded
    startingCounted: nat,  // the same, after incrementing halfOpenRequests
    running: nat,          // operation in progress, outcome not yet recorded
    runningCounted: nat,   // the same, after incrementing halfOpenRequests
    finishing: nat)        // deferred decrement still to run

  const NO_CALLS := Calls(0, 0, 0, 0, 0, 0, 0, 0)

  datatype System = System(breaker: Breaker, calls: Calls, clock: int)

  datatype Step =
    | Arrive(now: int)
    | Reject
    | ReadState
    | Count
    | Start(counted: bool)
    | Succeed(counted: bool)
    | Fail(counted: bool, at: int, checked: int)
    | Finish
    | ForceOpen
    | ForceClose
    | Reset

  function Initial(clock: int): System {
    System(NEW_BREAKER, NO_CALLS, clock)
  }

  predicate Enabled(s: System, step: Step) {
    var c := s.calls;
    match step
    case Arrive(now) => s.clock <= now
    case Reject => c.rejecting > 0
    case ReadState => c.admitted > 0
    case Count => c.counting > 0
    case Start(counted) => if counted then c.startingCounted > 0 else c.starting > 0
    case Succeed(counted) => if counted then c.runningCounted > 0 else c.running > 0
    case Fail(counted, at, checked) =>
      (if counted then c.runningCounted > 0 else c.running > 0) && s.clock <= at <= checked
    case Finish => c.finishing > 0
    case ForceOpen => true
    case ForceClose => true
    case Reset => true
  }

  function NextCalls(cfg: Config, s: System, step: Step): Calls
    requires Enabled(s, step)
  {
    var c := s.calls;
    match step
    case Arrive(now) =>
      if Admits(s.breaker, cfg, now) then c.(admitted := c.admitted + 1) else c.(rejecting := c.rejecting + 1)
    case Reject => c.(rejecting := c.rejecting - 1)
    case ReadState =>
      if s.breaker.state == HalfOpen then c.(admitted := c.admitted - 1, counting := c.counting + 1)
      else c.(admitted := c.admitted - 1, starting := c.starting + 1)
    case Count => c.(counting := c.counting - 1, startingCounted := c.startingCounted + 1)
    case Start(counted) =>
      if counted then c.(startingCounted := c.startingCounted - 1, runningCounted := c.runningCounted + 1)
      else c.(starting := c.starting - 1, running := c.running + 1)
    case Succeed(counted) => Recorded(c, counted)
    case Fail(counted, _, _) => Recorded(c, counted)
    case Finish => c.(finishing := c.finishing - 1)
    case _ => c
  }

  // The call has recorded its outcome: a counted one still owes its deferred decrement.
  function Recorded(c: Calls, counted: bool): Calls
    requires (counted ==> c.runningCounted > 0) && (!counted ==> c.running > 0)
  {
    if counted then c.(runningCounted := c.runningCounted - 1, finishing := c.finishing + 1)
    else c.(running := c.running - 1)
  }

  function NextBreaker(cfg: Config, b: Breaker, step: Step): Breaker {
    match step
    case Arrive(now) => AfterCheck(b, cfg, now)
    case Reject => b.(totalRejected := b.totalRejected + 1)
    case ReadState => b
    case Count => b.(halfOpenRequests := b.halfOpenRequests + 1)
    case Start(_) => b.(totalRequests := b.totalRequests + 1)
    case Succeed(_) => SuccessRecorded(b, cfg)
    case Fail(_, at, checked) => FailureRecorded(b, cfg, at, checked)
    case Finish => Decremented(b)
    case ForceOpen => ToOpen(b)
    case ForceClose => ToClosed(b)
    case Reset => NEW_BREAKER
  }

  function Next(cfg: Config, s: System, step: Step): System
    requires Enabled(s, step)
  {
    System(
      NextBreaker(cfg, s.breaker, step),
      NextCalls(cfg, s, step),
      match step case Arrive(now) => now case Fail(_, _, checked) => checked case _ => s.clock)
  }

  predicate Override(step: Step) {
    step.ForceOpen? || step.ForceClose? || step.Reset?
  }

  // `run` leads from s to s'.
  predicate Leads(cfg: Config, s: System, run: seq<Step>, s': System)
    decreases |run|
  {
    if run == [] then s' == s
    else Enabled(s, run[0]) && Leads(cfg, Next(cfg, s, run[0]), run[1..], s')
  }

  predicate NoOverrides(run: seq<Step>) {
    forall i | 0 <= i < |run| :: !Override(run[i])
  }

  // ---------- what every step keeps ----------

  // Calls that have incremented halfOpenRequests and not yet decremented it.
  function Counted(s: System): nat {
    s.calls.startingCounted + s.calls.runningCounted + s.calls.finishing
  }

  ghost predicate BreakerInv(cfg: Config, b: Breaker, clock: int) {
    && 0 <= b.failureCount && 0 <= b.successCount
    && (b.state == Closed ==> b.failureCount < cfg.failureThreshold && b.successCount == 0)
    && (b.state == HalfOpen ==> b.successCount < cfg.successThreshold)
    && (b.state == Open ==> b.successCount == 0)
    && (b.lastFailure.Some? ==> b.lastFailure.value <= clock)
  }

  ghost predicate Inv(cfg: Config, s: System) {
    && cfg.Valid()
    && 0 <= s.breaker.halfOpenRequests <= Counted(s)
    && BreakerInv(cfg, s.breaker, s.clock)
  }

  // How a step moves calls between program counters.
  lemma CallsMoved(cfg: Config, s: System, step: Step)
    requires Enabled(s, step)
    ensures
      var s1 := Next(cfg, s, step);
      && Counted(s1) == Counted(s) + (if step.Count? then 1 else if step.Finish? then -1 else 0)
      && s1.calls.counting == s.calls.counting
           + (if step.ReadState? && s.breaker.state == HalfOpen then 1 else if step.Count? then -1 else 0)
      && Pending(s1) == Pending(s)
           + (if step.Arrive? && Admits(s.breaker, cfg, step.now) then 1
              else if step.Count? || (step.ReadState? && s.breaker.state != HalfOpen) then -1 else 0)
      && s1.calls.runningCounted + s1.calls.running == s.calls.runningCounted + s.calls.running
           + (if step.Start? then 1 else if step.Succeed? || step.Fail? then -1 else 0)
  {
  }

  // How a step changes halfOpenRequests.
  lemma RequestsMoved(cfg: Config, s: System, step: Step)
    requires Enabled(s, step)
    ensures
      var b, b' := s.breaker, Next(cfg, s, step).breaker;
      && (step.Count? ==> b'.halfOpenRequests == b.halfOpenRequests + 1)
      && (step.Finish? ==>
            b'.halfOpenRequests == if b.halfOpenRequests > 0 then b.halfOpenRequests - 1 else b.halfOpenRequests)
      && (!step.Count? && !step.Finish? ==> b'.halfOpenRequests == b.halfOpenRequests || b'.halfOpenRequests == 0)
      && (b'.state != b.state ==> b'.halfOpenRequests == 0)
      && (b'.state == HalfOpen && b.state != HalfOpen ==> step.Arrive?)
      && (step.Arrive? ==> b'.state == if Admits(b, cfg, step.now) && b.state == Open then HalfOpen else b.state)
  {
  }

  lemma BreakerInvKept(cfg: Config, s: System, step: Step)
    requires cfg.Valid() && BreakerInv(cfg, s.breaker, s.clock) && Enabled(s, step)
    ensures BreakerInv(cfg, Next(cfg, s, step).breaker, Next(cfg, s, step).clock)
    ensures s.clock <= Next(cfg, s, step).clock
  {
  }

  lemma InvKept(cfg: Config, s: System, step: Step)
    requires Inv(cfg, s) && Enabled(s, step)
    ensures Inv(cfg, Next(cfg, s, step))
    ensures s.clock <= Next(cfg, s, step).clock
  {
    var s1 := Next(cfg, s, step);
    CallsMoved(cfg, s, step);
    RequestsMoved(cfg, s, step);
    BreakerInvKept(cfg, s, step);
    assert 0 <= s1.breaker.halfOpenRequests <= Counted(s1);
  }

  // Holds in every interleaving, manual overrides included: the counts stay below their
  // thresholds, and halfOpenRequests never exceeds the number of calls that still owe a decrement.
  lemma {:induction false} InvAlong(cfg: Config, s: System, run: seq<Step>, s': System)
    requires Inv(cfg, s) && Leads(cfg, s, run, s')
    ensures Inv(cfg, s')
    ensures s.clock <= s'.clock
    decreases |run|
  {
    if run != [] {
      InvKept(cfg, s, run[0]);
      InvAlong(cfg, Next(cfg, s, run[0]), run[1..], s');
    }
  }

  // No wedge: whenever a half-open breaker refuses an arrival, at least
  // MaxConcurrentRequests counted calls are in progress, so one that has none admits.
  lemma NoWedge(cfg: Config, clock: int, run: seq<Step>, s: System, now: int)
    requires cfg.Valid() && Leads(cfg, Initial(clock), run, s)
    ensures s.breaker.state == HalfOpen && !Admits(s.breaker, cfg, now) ==> Counted(s) >= cfg.maxConcurrentRequests
    ensures s.breaker.state == HalfOpen && Counted(s) == 0 ==> Admits(s.breaker, cfg, now)
  {
    InvAlong(cfg, Initial(clock), run, s);
  }

  // Every request that was started has succeeded, failed or is still running.
  ghost predicate InFlight(s: System) {
    s.breaker.totalRequests ==
    s.breaker.totalSuccesses + s.breaker.totalFailures + s.calls.runningCounted + s.calls.running
  }

  lemma TotalsMoved(cfg: Config, s: System, step: Step)
    requires Enabled(s, step) && !step.Reset?
    ensures
      var b, b' := s.breaker, Next(cfg, s, step).breaker;
      && b'.totalRequests == b.totalRequests + (if step.Start? then 1 else 0)
      && b'.totalSuccesses == b.totalSuccesses + (if step.Succeed? then 1 else 0)
      && b'.totalFailures == b.totalFailures + (if step.Fail? then 1 else 0)
      && b'.totalRejected == b.totalRejected + (if step.Reject? then 1 else 0)
  {
  }

  // How many steps of the run satisfy p.
  function CountIf(run: seq<Step>, p: Step -> bool): nat {
    if run == [] then 0 else (if p(run[0]) then 1 else 0) + CountIf(run[1..], p)
  }

  // Every call is accounted for exactly once, in every run without a metrics reset, and the totals
  // count what happened in the run.
  lemma {:induction false} CallsAccounted(cfg: Config, s: System, run: seq<Step>, s': System)
    requires Leads(cfg, s, run, s')
    requires forall i | 0 <= i < |run| :: !run[i].Reset?
    requires InFlight(s)
    ensures InFlight(s')
    ensures
      var b, b' := s.breaker, s'.breaker;
      && b'.totalRequests == b.totalRequests + CountIf(run, (x: Step) => x.Start?)
      && b'.totalSuccesses == b.totalSuccesses + CountIf(run, (x: Step) => x.Succeed?)
      && b'.totalFailures == b.totalFailures + CountIf(run, (x: Step) => x.Fail?)
      && b'.totalRejected == b.totalRejected + CountIf(run, (x: Step) => x.Reject?)
    decreases |run|
  {
    if run != [] {
      assert !run[0].Reset?;
      TotalsMoved(cfg, s, run[0]);
      CallsMoved(cfg, s, run[0]);
      CallsAccounted(cfg, Next(cfg, s, run[0]), run[1..], s');
    }
  }

  // ---------- amortised counting ----------

  // How often `run` takes the breaker from state x to state y.
  function Crossings(cfg: Config, s: System, run: seq<Step>, x: CircuitState, y: CircuitState): nat
    decreases |run|
  {
    if run == [] || !Enabled(s, run[0]) then 0
    else
      var s1 := Next(cfg, s, run[0]);
      Crossed(s.breaker, s1.breaker, x, y) + Crossings(cfg, s1, run[1..], x, y)
  }

  // Failures already spent towards the next trip, and successes towards the next closing.
  function FailureCredit(b: Breaker): int { if b.state == Closed then b.failureCount else 0 }

  function SuccessCredit(b: Breaker): int { if b.state == HalfOpen then b.successCount else 0 }

  function Crossed(b: Breaker, b': Breaker, x: CircuitState, y: CircuitState): nat {
    if b.state == x && b'.state == y then 1 else 0
  }

  lemma StepCredits(cfg: Config, s: System, step: Step)
    requires cfg.Valid() && BreakerInv(cfg, s.breaker, s.clock) && Enabled(s, step) && !Override(step)
    ensures
      var b, b' := s.breaker, Next(cfg, s, step).breaker;
      && (if Crossed(b, b', Closed, Open) == 1 then cfg.failureThreshold else 0) + Crossed(b, b', HalfOpen, Open)
         + FailureCredit(b') - FailureCredit(b) <= b'.totalFailures - b.totalFailures
      && (if Crossed(b, b', HalfOpen, Closed) == 1 then cfg.successThreshold else 0)
         + SuccessCredit(b') - SuccessCredit(b) <= b'.totalSuccesses - b.totalSuccesses
      && b'.circuitOpenCount - b.circuitOpenCount == Crossed(b, b', Closed, Open) + Crossed(b, b', HalfOpen, Open)
  {
  }

  lemma OneMore(a: int, n: int)
    ensures a * (n + 1) == a * n + a
  {
  }

  lemma {:induction false} CreditsAlong(cfg: Config, s: System, run: seq<Step>, s': System)
    requires Inv(cfg, s) && Leads(cfg, s, run, s') && NoOverrides(run)
    ensures
      var trips, reopens, closings :=
        Crossings(cfg, s, run, Closed, Open),
        Crossings(cfg, s, run, HalfOpen, Open),
        Crossings(cfg, s, run, HalfOpen, Closed);
      && cfg.failureThreshold * trips + reopens + FailureCredit(s'.breaker) - FailureCredit(s.breaker)
         <= s'.breaker.totalFailures - s.breaker.totalFailures
      && cfg.successThreshold * closings + SuccessCredit(s'.breaker) - SuccessCredit(s.breaker)
         <= s'.breaker.totalSuccesses - s.breaker.totalSuccesses
      && s'.breaker.circuitOpenCount - s.breaker.circuitOpenCount == trips + reopens
    decreases |run|
  {
    if run != [] {
      var step, s1, rest := run[0], Next(cfg, s, run[0]), run[1..];
      assert !Override(step);
      assert NoOverrides(rest);
      StepCredits(cfg, s, step);
      InvKept(cfg, s, step);
      CreditsAlong(cfg, s1, rest, s');
      CrossingsUnfold(cfg, s, run, Closed, Open);
      CrossingsUnfold(cfg, s, run, HalfOpen, Open);
      CrossingsUnfold(cfg, s, run, HalfOpen, Closed);
      OneMore(cfg.failureThreshold, Crossings(cfg, s1, rest, Closed, Open));
      OneMore(cfg.successThreshold, Crossings(cfg, s1, rest, HalfOpen, Closed));
    }
  }

  lemma CrossingsUnfold(cfg: Config, s: System, run: seq<Step>, x: CircuitState, y: CircuitState)
    requires run != [] && Enabled(s, run[0])
    ensures
      var s1 := Next(cfg, s, run[0]);
      Crossings(cfg, s, run, x, y) == Crossed(s.breaker, s1.breaker, x, y) + Crossings(cfg, s1, run[1..], x, y)
  {
  }

  // Each trip of a closed breaker is paid for by FailureThreshold failures of its own, each
  // reopening by one more, and each closing by SuccessThreshold successes.
  lemma AmortisedTrips(cfg: Config, clock: int, run: seq<Step>, s: System)
    requires cfg.Valid() && Leads(cfg, Initial(clock), run, s) && NoOverrides(run)
    ensures
      var s0 := Initial(clock);
      && cfg.failureThreshold * Crossings(cfg, s0, run, Closed, Open) + Crossings(cfg, s0, run, HalfOpen, Open)
         <= s.breaker.totalFailures
      && cfg.successThreshold * Crossings(cfg, s0, run, HalfOpen, Closed) <= s.breaker.totalSuccesses
      && s.breaker.circuitOpenCount == Crossings(cfg, s0, run, Closed, Open) + Crossings(cfg, s0, run, HalfOpen, Open)
  {
    CreditsAlong(cfg, Initial(clock), run, s);
    InvAlong(cfg, Initial(clock), run, s);
  }

  // ---------- spacing of openings ----------

  // The time of the run's latest failure, whatever the state it met; `before` is that of the
  // latest one before the run. A reset forgets it.
  function LatestFail(run: seq<Step>, before: Option<int>): Option<int>
    decreases |run|
  {
    if run == [] then before
    else
      match run[|run| - 1]
      case Fail(_, at, _) => Some(at)
      case Reset => None
      case _ => LatestFail(run[..|run| - 1], before)
  }

  lemma {:induction false} LatestFailUnfolds(run: seq<Step>, before: Option<int>)
    requires run != []
    ensures LatestFail(run, before) == LatestFail(run[1..], LatestFail(run[..1], before))
    decreases |run|
  {
    if |run| > 1 {
      var init := run[..|run| - 1];
      LatestFailUnfolds(init, before);
      assert init[1..] == run[1..][..|run[1..]| - 1] && init[..1] == run[..1];
    } else {
      assert run[..1] == run && run[1..] == [];
    }
  }

  // In every run the breaker knows the time of the latest failure.
  lemma {:induction false} LatestFailKnown(cfg: Config, s: System, run: seq<Step>, s': System)
    requires Leads(cfg, s, run, s')
    ensures s'.breaker.lastFailure == LatestFail(run, s.breaker.lastFailure)
    decreases |run|
  {
    if run != [] {
      LatestFailKnown(cfg, Next(cfg, s, run[0]), run[1..], s');
      LatestFailUnfolds(run, s.breaker.lastFailure);
      assert run[..1] == [run[0]] && [run[0]][..0] == [];
    }
  }

  // An open breaker half-opens only for an arrival, and then exactly if there was no failure, as
  // after a manual opening, or the latest one is RecoveryTimeout old.
  lemma HalfOpeningWaits(cfg: Config, clock: int, run: seq<Step>, s: System, step: Step)
    requires Leads(cfg, Initial(clock), run, s) && Enabled(s, step) && s.breaker.state == Open
    ensures
      var latest := LatestFail(run, None);
      Next(cfg, s, step).breaker.state == HalfOpen <==>
        step.Arrive? && (latest.None? || step.now >= latest.value + cfg.recoveryTimeout)
  {
    LatestFailKnown(cfg, Initial(clock), run, s);
  }

  ghost predicate OpenHasFailure(s: System) {
    s.breaker.state == Open ==> s.breaker.lastFailure.Some?
  }

  // The earliest time at which the breaker could next open.
  function NextOpening(cfg: Config, s: System): int
    requires OpenHasFailure(s)
  {
    if s.breaker.state == Open then s.breaker.lastFailure.value + cfg.recoveryTimeout else s.clock
  }

  lemma NextOpeningKept(cfg: Config, s: System, step: Step)
    requires Inv(cfg, s) && OpenHasFailure(s) && Enabled(s, step) && !Override(step)
    ensures
      var s1 := Next(cfg, s, step);
      && OpenHasFailure(s1)
      && NextOpening(cfg, s) + (s1.breaker.circuitOpenCount - s.breaker.circuitOpenCount) * cfg.recoveryTimeout
         <= NextOpening(cfg, s1)
      && s.breaker.circuitOpenCount <= s1.breaker.circuitOpenCount <= s.breaker.circuitOpenCount + 1
      && (s1.breaker.circuitOpenCount > s.breaker.circuitOpenCount ==> NextOpening(cfg, s) <= s1.clock)
  {
    var s1 := Next(cfg, s, step);
    if s1.breaker.circuitOpenCount > s.breaker.circuitOpenCount {
      assert step.Fail? && s1.breaker.lastFailure == Some(step.at);
    }
  }

  lemma {:induction false} OpeningsSpaced(cfg: Config, s: System, run: seq<Step>, s': System)
    requires Inv(cfg, s) && OpenHasFailure(s) && Leads(cfg, s, run, s') && NoOverrides(run)
    ensures
      var openings := s'.breaker.circuitOpenCount - s.breaker.circuitOpenCount;
      && openings >= 0
      && (openings >= 1 ==> NextOpening(cfg, s) + (openings - 1) * cfg.recoveryTimeout <= s'.clock)
    decreases |run|
  {
    if run != [] {
      var s1 := Next(cfg, s, run[0]);
      NextOpeningKept(cfg, s, run[0]);
      InvKept(cfg, s, run[0]);
      OpeningsSpaced(cfg, s1, run[1..], s');
      InvAlong(cfg, s1, run[1..], s');
      var rest := s'.breaker.circuitOpenCount - s1.breaker.circuitOpenCount;
      if s1.breaker.circuitOpenCount > s.breaker.circuitOpenCount && rest >= 1 {
        assert (rest - 1) * cfg.recoveryTimeout + cfg.recoveryTimeout == rest * cfg.recoveryTimeout;
      }
    }
  }

  // Over a run that lasts `s.clock - clock`, the breaker opens at most once plus once for
  // every RecoveryTimeout that fits in.
  lemma OpeningsBounded(cfg: Config, clock: int, run: seq<Step>, s: System)
    requires cfg.Valid() && Leads(cfg, Initial(clock), run, s) && NoOverrides(run)
    ensures (s.breaker.circuitOpenCount - 1) * cfg.recoveryTimeout <= s.clock - clock
  {
    OpeningsSpaced(cfg, Initial(clock), run, s);
    InvAlong(cfg, Initial(clock), run, s);
    if s.breaker.circuitOpenCount == 0 {
      assert (s.breaker.circuitOpenCount - 1) * cfg.recoveryTimeout == -cfg.recoveryTimeout;
    }
  }

  // ---------- the half-open limit under concurrency ----------

  // Calls that were admitted but have not yet been counted.
  function Pending(s: System): nat {
    s.calls.admitted + s.calls.counting
  }

  // No state of the run has more than m pending calls.
  predicate PendingAtMost(cfg: Config, s: System, run: seq<Step>, m: nat)
    decreases |run|
  {
    Pending(s) <= m && (run != [] && Enabled(s, run[0]) ==> PendingAtMost(cfg, Next(cfg, s, run[0]), run[1..], m))
  }

  ghost predicate CapInv(cfg: Config, s: System, m: nat) {
    if s.breaker.state == HalfOpen then s.breaker.halfOpenRequests + Pending(s) <= cfg.maxConcurrentRequests - 1 + m
    else s.breaker.halfOpenRequests + s.calls.counting <= m
  }

  lemma {:induction false} CapAlong(cfg: Config, s: System, run: seq<Step>, s': System, m: nat)
    requires Inv(cfg, s) && m >= 1 && CapInv(cfg, s, m)
    requires Leads(cfg, s, run, s') && PendingAtMost(cfg, s, run, m)
    ensures CapInv(cfg, s', m)
    decreases |run|
  {
    if run != [] {
      var s1 := Next(cfg, s, run[0]);
      InvKept(cfg, s, run[0]);
      assert CapInv(cfg, s1, m) by { assert Pending(s1) <= m; }
      CapAlong(cfg, s1, run[1..], s', m);
    }
  }

  // The check and the increment are separate sections, so the counter can exceed the limit, but
  // by no more than the number of calls that stand between the two at once, less one. With at
  // most one such call (m == 1) the counter keeps the limit.
  lemma HalfOpenCap(cfg: Config, clock: int, run: seq<Step>, s: System, m: nat)
    requires cfg.Valid() && m >= 1
    requires Leads(cfg, Initial(clock), run, s) && PendingAtMost(cfg, Initial(clock), run, m)
    ensures s.breaker.halfOpenRequests <= cfg.maxConcurrentRequests - 1 + m
  {
    CapAlong(cfg, Initial(clock), run, s, m);
  }
}
