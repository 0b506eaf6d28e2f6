/**
 Concrete interleavings showing that the bounds on the half-open limit are attained, and what
 the limit does not bound.
 */
module CircuitWitness {
  import opened Prelude
  import opened Circuit
  import opened CircuitRuns

  // A run together with the states it passes through.
  datatype Trace = Trace(run: seq<Step>, states: seq<System>)

  lemma Begin(cfg: Config, m: nat) returns (tr: Trace, s: System)
    ensures Path(cfg, m, tr, s)
    ensures s.breaker.state == Closed && s.breaker.failureCount == s.breaker.halfOpenRequests == 0
    ensures s.calls == NO_CALLS && s.clock == 0
  {
    tr, s := Trace([], [Initial(0)]), Initial(0);
  }

  ghost predicate Path(cfg: Config, m: nat, tr: Trace, s: System) {
    && |tr.states| == |tr.run| + 1
    && tr.states[0] == Initial(0) && tr.states[|tr.run|] == s
    && forall i {:trigger tr.run[i]} | 0 <= i < |tr.run| :: Follows(cfg, m, tr.states[i], tr.run[i], tr.states[i + 1])
  }

  ghost predicate Follows(cfg: Config, m: nat, s: System, step: Step, s': System) {
    Enabled(s, step) && s' == Next(cfg, s, step) && Pending(s') <= m
  }

  lemma Do(cfg: Config, m: nat, tr: Trace, s: System, step: Step) returns (tr': Trace, s': System)
    requires Path(cfg, m, tr, s) && Enabled(s, step) && Pending(Next(cfg, s, step)) <= m
    ensures s' == Next(cfg, s, step) && Path(cfg, m, tr', s')
  {
    s' := Next(cfg, s, step);
    tr' := Trace(tr.run + [step], tr.states + [s']);
    assert Follows(cfg, m, s, step, s');
    forall i | 0 <= i < |tr'.run|
      ensures Follows(cfg, m, tr'.states[i], tr'.run[i], tr'.states[i + 1])
    {
      if i < |tr.run| {
        assert Follows(cfg, m, tr.states[i], tr.run[i], tr.states[i + 1]);
      }
    }
  }

  // A path from its k-th state on is a run in the sense of CircuitRuns.
  lemma {:induction false} PathLeads(cfg: Config, m: nat, tr: Trace, s: System, k: nat)
    requires Path(cfg, m, tr, s) && k <= |tr.run| && Pending(tr.states[k]) <= m
    ensures Leads(cfg, tr.states[k], tr.run[k..], s)
    ensures PendingAtMost(cfg, tr.states[k], tr.run[k..], m)
    decreases |tr.run| - k
  {
    if k < |tr.run| {
      assert Follows(cfg, m, tr.states[k], tr.run[k], tr.states[k + 1]);
      PathLeads(cfg, m, tr, s, k + 1);
      assert tr.run[k..][1..] == tr.run[k + 1..];
    }
  }

  lemma PathInv(cfg: Config, m: nat, tr: Trace, s: System)
    requires cfg.Valid() && Path(cfg, m, tr, s)
    ensures Inv(cfg, s)
    ensures Leads(cfg, Initial(0), tr.run, s) && PendingAtMost(cfg, Initial(0), tr.run, m)
  {
    PathLeads(cfg, m, tr, s, 0);
    assert tr.run[0..] == tr.run;
    InvAlong(cfg, Initial(0), tr.run, s);
  }

  function TestConfig(cap: int): Config {
    Config(1, 2, 10, 10, cap)
  }

  // One call fails while the breaker is closed, beside `other` calls that are still running.
  lemma Trip(cap: nat, m: nat, tr: Trace, s: System) returns (tr': Trace, s': System)
    requires cap >= 1 && m >= 1 && Path(TestConfig(cap), m, tr, s)
    requires s.breaker.state == Closed && s.breaker.failureCount >= 0 && s.breaker.halfOpenRequests == 0
    requires s.clock == 0 && Pending(s) == 0
    ensures Path(TestConfig(cap), m, tr', s')
    ensures s'.calls == s.calls && s'.clock == 0
    ensures s'.breaker.state == Open && s'.breaker.lastFailure == Some(0)
    ensures s'.breaker.halfOpenRequests == 0 && s'.breaker.successCount == 0
  {
    var cfg := TestConfig(cap);
    tr', s' := Do(cfg, m, tr, s, Arrive(0));
    tr', s' := Do(cfg, m, tr', s', ReadState);
    tr', s' := Do(cfg, m, tr', s', Start(false));
    tr', s' := Do(cfg, m, tr', s', Fail(false, 0, 0));
  }

  // A call is admitted to the recovered breaker and reads its state.
  lemma StartProbe1(cap: nat, m: nat, tr: Trace, s: System, now: int) returns (tr': Trace, s': System)
    requires cap >= 1 && m >= 1 && Path(TestConfig(cap), m, tr, s)
    requires s.breaker.state == HalfOpen || (s.breaker.state == Open && s.breaker.successCount == 0)
    requires Admits(s.breaker, TestConfig(cap), now) && s.clock <= now
    requires s.breaker.halfOpenRequests == 0 && Pending(s) == 0
    ensures Path(TestConfig(cap), m, tr', s')
    ensures s' == System(s.breaker.(state := HalfOpen), s.calls.(counting := 1), now)
  {
    var cfg := TestConfig(cap);
    tr', s' := Do(cfg, m, tr, s, Arrive(now));
    assert s' == System(s.breaker.(state := HalfOpen), s.calls.(admitted := 1), now);
    tr', s' := Do(cfg, m, tr', s', ReadState);
  }

  // The same call is counted and starts its operation.
  lemma StartProbe(cap: nat, m: nat, tr: Trace, s: System, now: int) returns (tr': Trace, s': System)
    requires cap >= 1 && m >= 1 && Path(TestConfig(cap), m, tr, s)
    requires s.breaker.state == HalfOpen || (s.breaker.state == Open && s.breaker.successCount == 0)
    requires Admits(s.breaker, TestConfig(cap), now) && s.clock <= now
    requires s.breaker.halfOpenRequests == 0 && Pending(s) == 0
    ensures Path(TestConfig(cap), m, tr', s')
    ensures s'.breaker ==
            s.breaker.(state := HalfOpen, halfOpenRequests := 1, totalRequests := s.breaker.totalRequests + 1)
    ensures s'.calls == s.calls.(runningCounted := s.calls.runningCounted + 1) && s'.clock == now
  {
    var cfg := TestConfig(cap);
    tr', s' := StartProbe1(cap, m, tr, s, now);
    tr', s' := Do(cfg, m, tr', s', Count);
    tr', s' := Do(cfg, m, tr', s', Start(true));
  }

  // The first probing call of a phase succeeds and gives its slot back.
  lemma FinishProbe(cap: nat, m: nat, tr: Trace, s: System) returns (tr': Trace, s': System)
    requires cap >= 1 && m >= 1 && Path(TestConfig(cap), m, tr, s) && Pending(s) == 0
    requires s.breaker.state == HalfOpen && s.breaker.successCount == 0 && s.breaker.halfOpenRequests == 1
    requires s.calls.runningCounted >= 1
    ensures Path(TestConfig(cap), m, tr', s')
    ensures s'.breaker.state == HalfOpen && s'.breaker.halfOpenRequests == 0 && s'.clock == s.clock
    ensures s'.calls == s.calls.(runningCounted := s.calls.runningCounted - 1)
  {
    var cfg := TestConfig(cap);
    tr', s' := Do(cfg, m, tr, s, Succeed(true));
    assert s'.breaker.state == HalfOpen && s'.breaker.halfOpenRequests == 1;
    tr', s' := Do(cfg, m, tr', s', Finish);
  }

  // Trip the breaker, let it recover, and let one probing call succeed.
  lemma ReachHalfOpen(cap: nat, m: nat) returns (tr: Trace, s: System)
    requires cap >= 1 && m >= 1
    ensures Path(TestConfig(cap), m, tr, s)
    ensures s.breaker.state == HalfOpen && s.breaker.halfOpenRequests == 0 && s.calls == NO_CALLS && s.clock == 10
  {
    tr, s := Begin(TestConfig(cap), m);
    tr, s := Trip(cap, m, tr, s);
    tr, s := StartProbe(cap, m, tr, s, 10);
    tr, s := FinishProbe(cap, m, tr, s);
  }

  // k calls pass check and increment one after the other.
  lemma {:induction false} CountOneByOne(cap: nat, m: nat, tr: Trace, s: System, k: nat)
      returns (tr': Trace, s': System)
    requires cap >= 1 && m >= 1 && Path(TestConfig(cap), m, tr, s)
    requires s.breaker.state == HalfOpen && Pending(s) == 0 && s.breaker.halfOpenRequests + k <= cap
    ensures Path(TestConfig(cap), m, tr', s')
    ensures s'.breaker.state == HalfOpen && Pending(s') == 0
    ensures s'.breaker.halfOpenRequests == s.breaker.halfOpenRequests + k
    decreases k
  {
    var cfg := TestConfig(cap);
    tr', s' := tr, s;
    if k > 0 {
      tr', s' := Do(cfg, m, tr', s', Arrive(s.clock));
      tr', s' := Do(cfg, m, tr', s', ReadState);
      tr', s' := Do(cfg, m, tr', s', Count);
      tr', s' := CountOneByOne(cap, m, tr', s', k - 1);
    }
  }

  // k calls pass the check before any of them increments.
  lemma {:induction false} AdmitTogether(cap: nat, m: nat, tr: Trace, s: System, k: nat)
      returns (tr': Trace, s': System)
    requires cap >= 1 && Path(TestConfig(cap), m, tr, s)
    requires s.breaker.state == HalfOpen && s.breaker.halfOpenRequests < cap
    requires s.calls.counting == 0 && s.calls.admitted + k == m
    ensures Path(TestConfig(cap), m, tr', s')
    ensures s'.breaker == s.breaker && s'.calls.admitted == m && s'.calls.counting == 0
    decreases k
  {
    tr', s' := tr, s;
    if k > 0 {
      tr', s' := Do(TestConfig(cap), m, tr', s', Arrive(s.clock));
      tr', s' := AdmitTogether(cap, m, tr', s', k - 1);
    }
  }

  lemma {:induction false} CountAll(cap: nat, m: nat, tr: Trace, s: System) returns (tr': Trace, s': System)
    requires cap >= 1 && Path(TestConfig(cap), m, tr, s)
    requires s.breaker.state == HalfOpen && s.calls.counting == 0 && s.calls.admitted <= m
    ensures Path(TestConfig(cap), m, tr', s')
    ensures s'.breaker.halfOpenRequests == s.breaker.halfOpenRequests + s.calls.admitted
    decreases s.calls.admitted
  {
    tr', s' := tr, s;
    if s.calls.admitted > 0 {
      tr', s' := Do(TestConfig(cap), m, tr', s', ReadState);
      tr', s' := Do(TestConfig(cap), m, tr', s', Count);
      tr', s' := CountAll(cap, m, tr', s');
    }
  }

  // The bound of HalfOpenCap is exact: for every limit and every number m of calls standing
  // between check and increment, some run reaches limit - 1 + m half-open requests.
  lemma HalfOpenCapAttained(cap: nat, m: nat) returns (cfg: Config, run: seq<Step>, s: System)
    requires cap >= 1 && m >= 1
    ensures cfg.Valid() && cfg.maxConcurrentRequests == cap
    ensures Leads(cfg, Initial(0), run, s) && PendingAtMost(cfg, Initial(0), run, m)
    ensures s.breaker.halfOpenRequests == cap - 1 + m
  {
    cfg := TestConfig(cap);
    var tr: Trace;
    tr, s := ReachHalfOpen(cap, m);
    tr, s := CountOneByOne(cap, m, tr, s, cap - 1);
    tr, s := AdmitTogether(cap, m, tr, s, m);
    tr, s := CountAll(cap, m, tr, s);
    PathInv(cfg, m, tr, s);
    run := tr.run;
  }

  // Even when admission and counting never overlap, a limit of one lets two probing calls
  // run at once: a transition zeroes the counter, and the decrement of a call from an
  // earlier half-open phase then releases a slot that belongs to a later call.
  lemma StaleDecrementReleasesSlot() returns (cfg: Config, run: seq<Step>, s: System)
    ensures cfg.Valid() && cfg.maxConcurrentRequests == 1
    ensures Leads(cfg, Initial(0), run, s) && PendingAtMost(cfg, Initial(0), run, 1)
    ensures s.breaker.state == HalfOpen && s.calls == NO_CALLS.(runningCounted := 2)
  {
    cfg := TestConfig(1);
    // C starts while the breaker is closed, then another call trips it
    var tr: Trace;
    tr, s := Begin(cfg, 1);
    tr, s := Do(cfg, 1, tr, s, Arrive(0));
    tr, s := Do(cfg, 1, tr, s, ReadState);
    tr, s := Do(cfg, 1, tr, s, Start(false));
    tr, s := Trip(1, 1, tr, s);
    assert s.calls == NO_CALLS.(running := 1);
    // A probes
    tr, s := StartProbe(1, 1, tr, s, 10);
    // C fails and reopens the breaker; E probes after the next recovery
    tr, s := Do(cfg, 1, tr, s, Fail(false, 10, 10));
    assert s.breaker.state == Open && s.breaker.successCount == 0 && s.breaker.lastFailure == Some(10);
    tr, s := StartProbe(1, 1, tr, s, 20);
    // A ends and gives up the slot that E holds, so F is admitted
    tr, s := Do(cfg, 1, tr, s, Succeed(true));
    assert s.breaker.state == HalfOpen && s.calls == NO_CALLS.(runningCounted := 1, finishing := 1);
    tr, s := Do(cfg, 1, tr, s, Finish);
    tr, s := StartProbe(1, 1, tr, s, 20);
    PathInv(cfg, 1, tr, s);
    run := tr.run;
  }
}
