/**
 How many calls probe a half-open breaker at once. The limit bounds the counter
 halfOpenRequests, which transitions set to zero; it bounds the calls themselves exactly if the
 breaker half-opens only while no counted call of an earlier phase is left.
 */
module CircuitProbes {
  import opened Circuit
  import opened CircuitRuns

  predicate HalfOpens(cfg: Config, s: System, step: Step)
    requires Enabled(s, step)
  {
    s.breaker.state != HalfOpen && Next(cfg, s, step).breaker.state == HalfOpen
  }

  // Along the run the breaker half-opens only when every counted call has given its slot back.
  predicate CleanHalfOpenings(cfg: Config, s: System, run: seq<Step>)
    decreases |run|
  {
    run != [] && Enabled(s, run[0]) ==>
      && (HalfOpens(cfg, s, run[0]) ==> Counted(s) == 0)
      && CleanHalfOpenings(cfg, Next(cfg, s, run[0]), run[1..])
  }

  // The counter is the number of probing calls.
  ghost predicate CounterExact(s: System) {
    s.breaker.state == HalfOpen ==> s.breaker.halfOpenRequests == Counted(s)
  }

  lemma CounterExactKept(cfg: Config, s: System, step: Step)
    requires Inv(cfg, s) && CounterExact(s) && Enabled(s, step)
    requires HalfOpens(cfg, s, step) ==> Counted(s) == 0
    ensures CounterExact(Next(cfg, s, step))
  {
    CallsMoved(cfg, s, step);
    RequestsMoved(cfg, s, step);
    if s.breaker.state == HalfOpen && !step.Count? && !step.Finish? {
      StaysHalfOpen(cfg, s, step);
    }
  }

  lemma StaysHalfOpen(cfg: Config, s: System, step: Step)
    requires Enabled(s, step) && s.breaker.state == HalfOpen && !step.Count? && !step.Finish?
    ensures
      var b := Next(cfg, s, step).breaker;
      b.state == HalfOpen ==> b.halfOpenRequests == s.breaker.halfOpenRequests
  {
  }

  lemma {:induction false} CounterExactAlong(cfg: Config, s: System, run: seq<Step>, s': System)
    requires Inv(cfg, s) && CounterExact(s) && Leads(cfg, s, run, s') && CleanHalfOpenings(cfg, s, run)
    ensures CounterExact(s')
    decreases |run|
  {
    if run != [] {
      InvKept(cfg, s, run[0]);
      CounterExactKept(cfg, s, run[0]);
      CounterExactAlong(cfg, Next(cfg, s, run[0]), run[1..], s');
    }
  }

  // If every half-opening is clean, the calls that probe a half-open breaker number at most the
  // limit, and one more for each call but one that stands between check and increment.
  lemma ProbesBounded(cfg: Config, clock: int, run: seq<Step>, s: System, m: nat)
    requires cfg.Valid() && m >= 1
    requires Leads(cfg, Initial(clock), run, s) && PendingAtMost(cfg, Initial(clock), run, m)
    requires CleanHalfOpenings(cfg, Initial(clock), run)
    ensures s.breaker.state == HalfOpen ==>
              Counted(s) == s.breaker.halfOpenRequests <= cfg.maxConcurrentRequests - 1 + m
  {
    HalfOpenCap(cfg, clock, run, s, m);
    CounterExactAlong(cfg, Initial(clock), run, s);
  }

  // ---------- the converse ----------

  // The run keeps at most m calls between check and increment, and counts `more` further calls.
  ghost predicate Counts(cfg: Config, m: nat, s: System, run: seq<Step>, s': System, more: int) {
    && Leads(cfg, s, run, s') && PendingAtMost(cfg, s, run, m) && s'.breaker.state == HalfOpen
    && Counted(s') == Counted(s) + more
  }

  lemma CountsCons(cfg: Config, m: nat, s: System, step: Step, rest: seq<Step>, s': System, more: int)
    requires Enabled(s, step) && Pending(s) <= m && Counts(cfg, m, Next(cfg, s, step), rest, s', more)
    requires step.Arrive? || step.ReadState? || step.Count?
    ensures Counts(cfg, m, s, [step] + rest, s', if step.Count? then more + 1 else more)
  {
    assert ([step] + rest)[1..] == rest;
    CallsMoved(cfg, s, step);
  }

  // The next step towards limit - 1 + m half-open requests: fill up to one below the limit, let
  // calls arrive until m stand between check and increment, and count them all.
  function NextMove(cfg: Config, s: System, m: nat): Step {
    var h, cap := s.breaker.halfOpenRequests, cfg.maxConcurrentRequests;
    if Pending(s) == 0 || (h == cap - 1 && Pending(s) < m) then Arrive(s.clock)
    else if s.calls.counting > 0 then Count
    else ReadState
  }

  ghost predicate OnTheWay(cfg: Config, s: System, m: nat) {
    && s.breaker.state == HalfOpen && 0 <= s.breaker.halfOpenRequests && Pending(s) <= m
    && (s.breaker.halfOpenRequests >= cfg.maxConcurrentRequests ==>
          s.breaker.halfOpenRequests + Pending(s) == cfg.maxConcurrentRequests - 1 + m)
  }

  lemma MoveOn(cfg: Config, s: System, m: nat)
    requires cfg.Valid() && m >= 1 && OnTheWay(cfg, s, m)
    requires s.breaker.halfOpenRequests < cfg.maxConcurrentRequests - 1 + m
    ensures
      var step := NextMove(cfg, s, m);
      && Enabled(s, step)
      && var s1 := Next(cfg, s, step);
         && OnTheWay(cfg, s1, m)
         && s1.breaker.halfOpenRequests == s.breaker.halfOpenRequests + (if step.Count? then 1 else 0)
         && (step.Arrive? ==> Pending(s1) == Pending(s) + 1)
         && (step.ReadState? ==> Pending(s1) == Pending(s) && s1.calls.admitted < s.calls.admitted)
  {
  }

  lemma {:induction false} CountUp(cfg: Config, s: System, m: nat) returns (run: seq<Step>, s': System)
    requires cfg.Valid() && m >= 1 && OnTheWay(cfg, s, m)
    requires s.breaker.halfOpenRequests <= cfg.maxConcurrentRequests - 1 + m
    ensures Counts(cfg, m, s, run, s', cfg.maxConcurrentRequests - 1 + m - s.breaker.halfOpenRequests)
    decreases cfg.maxConcurrentRequests - 1 + m - s.breaker.halfOpenRequests, m - Pending(s), s.calls.admitted
  {
    if s.breaker.halfOpenRequests == cfg.maxConcurrentRequests - 1 + m {
      run, s' := [], s;
    } else {
      var step := NextMove(cfg, s, m);
      var s1 := Next(cfg, s, step);
      MoveOn(cfg, s, m);
      var rest: seq<Step>;
      rest, s' := CountUp(cfg, s1, m);
      CountsCons(cfg, m, s, step, rest, s', cfg.maxConcurrentRequests - 1 + m - s1.breaker.halfOpenRequests);
      run := [step] + rest;
    }
  }

  // From a half-opening on that leaves counted calls behind, the scheduler can exceed the bound
  // by just as many, even without a further call standing between check and increment.
  lemma LeftoverExceeds(cfg: Config, s: System, step: Step, m: nat) returns (run: seq<Step>, s': System)
    requires Inv(cfg, s) && Enabled(s, step) && HalfOpens(cfg, s, step) && m >= Pending(Next(cfg, s, step))
    ensures Leads(cfg, Next(cfg, s, step), run, s') && PendingAtMost(cfg, Next(cfg, s, step), run, m)
    ensures s'.breaker.state == HalfOpen && Counted(s') == Counted(s) + cfg.maxConcurrentRequests - 1 + m
  {
    CallsMoved(cfg, s, step);
    RequestsMoved(cfg, s, step);
    run, s' := CountUp(cfg, Next(cfg, s, step), m);
  }
}
