/**
 The breaker seen from outside when calls do not overlap: its state is a function of the
 outcomes recorded since the last change of phase, stated here without any counter.
 */
module CircuitTrace {
  import opened Prelude
  import opened Circuit
  import CR = CircuitRuns

  datatype Phase =
    | Serving(log: seq<Outcome>)  // closed; outcomes since closing
    | Tripped(since: int)         // open; time of the failure that opened it
    | Probing(log: seq<Outcome>)  // half-open; outcomes since half-opening

  predicate AllFailed(log: seq<Outcome>) {
    forall i | 0 <= i < |log| :: log[i] == Failed
  }

  predicate LastAllFailed(log: seq<Outcome>, n: int) {
    0 <= n <= |log| && AllFailed(log[|log| - n..])
  }

  // A failure whose two clock readings lie further apart than the window restarts the count.
  predicate Stalled(cfg: Config, call: Call) {
    call.outcome == Failed && call.checked - call.finished > cfg.windowDuration
  }

  function Serve(cfg: Config, log: seq<Outcome>, call: Call): Phase {
    var log' := if Stalled(cfg, call) then [Failed] else log + [call.outcome];
    if LastAllFailed(log', cfg.failureThreshold) then Tripped(call.finished) else Serving(log')
  }

  function Probe(cfg: Config, log: seq<Outcome>, call: Call): Phase {
    if call.outcome == Failed then Tripped(call.finished)
    else if |log| + 1 == cfg.successThreshold then Serving([])
    else Probing(log + [Succeeded])
  }

  function Observe(cfg: Config, ph: Phase, call: Call): Phase {
    match ph
    case Serving(log) => Serve(cfg, log, call)
    case Tripped(since) => if call.arrival - since < cfg.recoveryTimeout then ph else Probe(cfg, [], call)
    case Probing(log) => Probe(cfg, log, call)
  }

  function ObserveAll(cfg: Config, ph: Phase, calls: seq<Call>): Phase
    decreases |calls|
  {
    if calls == [] then ph else ObserveAll(cfg, Observe(cfg, ph, calls[0]), calls[1..])
  }

  function ExecuteAll(cfg: Config, b: Breaker, calls: seq<Call>): Breaker
    decreases |calls|
  {
    if calls == [] then b else ExecuteAll(cfg, Executed(b, cfg, calls[0]), calls[1..])
  }

  // Length of the run of failures that ends the log.
  function TrailingFailures(log: seq<Outcome>): (n: nat)
    ensures n <= |log|
  {
    if log == [] || log[|log| - 1] == Succeeded then 0 else 1 + TrailingFailures(log[..|log| - 1])
  }

  lemma {:induction false} TrailingMeansLast(log: seq<Outcome>, n: nat)
    ensures LastAllFailed(log, n) <==> TrailingFailures(log) >= n
  {
    if 0 < n <= |log| {
      var init, last := log[..|log| - 1], log[|log| - 1];
      var suffix := init[|init| - (n - 1)..];
      assert log[|log| - n..] == suffix + [last];
      assert AllFailed(suffix + [last]) <==> AllFailed(suffix) && last == Failed by {
        assert (suffix + [last])[..n - 1] == suffix && (suffix + [last])[n - 1] == last;
      }
      TrailingMeansLast(init, n - 1);
    }
  }

  ghost predicate Matches(cfg: Config, b: Breaker, ph: Phase) {
    && b.halfOpenRequests == 0
    && match ph
       case Serving(log) =>
         b.state == Closed && b.failureCount == TrailingFailures(log) < cfg.failureThreshold && b.successCount == 0
       case Tripped(since) =>
         b.state == Open && b.lastFailure == Some(since) && b.successCount == 0
       case Probing(log) =>
         && b.state == HalfOpen && b.successCount == |log| < cfg.successThreshold
         && (forall o | o in log :: o == Succeeded)
  }

  lemma TrailingGrows(log: seq<Outcome>, o: Outcome)
    ensures TrailingFailures(log + [o]) == if o == Failed then TrailingFailures(log) + 1 else 0
  {
    assert (log + [o])[..|log|] == log;
  }

  lemma ClosedExecutes(cfg: Config, b: Breaker, call: Call)
    requires cfg.Valid() && b.state == Closed && b.halfOpenRequests == b.successCount == 0
    ensures
      var b' := Executed(b, cfg, call);
      var n := if call.outcome == Succeeded then 0 else if Stalled(cfg, call) then 1 else b.failureCount + 1;
      && b'.halfOpenRequests == b'.successCount == 0 && b'.failureCount == n
      && b'.state == (if n >= cfg.failureThreshold then Open else Closed)
      && (call.outcome == Failed ==> b'.lastFailure == Some(call.finished))
  {
  }

  // The failures that a closed breaker counts after the call.
  function CountAfter(cfg: Config, log: seq<Outcome>, call: Call): nat {
    if call.outcome == Succeeded then 0 else if Stalled(cfg, call) then 1 else TrailingFailures(log) + 1
  }

  lemma ServeCounts(cfg: Config, log: seq<Outcome>, call: Call)
    requires cfg.failureThreshold >= 1
    ensures
      var log' := if Stalled(cfg, call) then [Failed] else log + [call.outcome];
      && TrailingFailures(log') == CountAfter(cfg, log, call)
      && (LastAllFailed(log', cfg.failureThreshold) <==> CountAfter(cfg, log, call) >= cfg.failureThreshold)
  {
    var log' := if Stalled(cfg, call) then [Failed] else log + [call.outcome];
    TrailingMeansLast(log', cfg.failureThreshold);
    TrailingGrows(if Stalled(cfg, call) then [] else log, call.outcome);
    assert [] + [Failed] == [Failed];
  }

  // A breaker that counts the failures after the call matches what is observed of the call.
  lemma ServedMatches(cfg: Config, b: Breaker, log: seq<Outcome>, call: Call)
    requires b.halfOpenRequests == b.successCount == 0 && b.failureCount == CountAfter(cfg, log, call)
    requires cfg.failureThreshold >= 1 && b.state == (if b.failureCount >= cfg.failureThreshold then Open else Closed)
    requires call.outcome == Failed ==> b.lastFailure == Some(call.finished)
    ensures Matches(cfg, b, Serve(cfg, log, call))
  {
    ServeCounts(cfg, log, call);
  }

  lemma ServeMatches(cfg: Config, b: Breaker, log: seq<Outcome>, call: Call)
    requires cfg.Valid() && Matches(cfg, b, Serving(log))
    ensures Matches(cfg, Executed(b, cfg, call), Serve(cfg, log, call))
  {
    ClosedExecutes(cfg, b, call);
    ServedMatches(cfg, Executed(b, cfg, call), log, call);
  }

  // A probe admitted to a half-open breaker whose successes so far are `log`.
  lemma ProbeMatches(cfg: Config, b: Breaker, log: seq<Outcome>, call: Call)
    requires cfg.Valid() && Admits(b, cfg, call.arrival) && AfterCheck(b, cfg, call.arrival) == b
    requires Matches(cfg, b, Probing(log))
    ensures Matches(cfg, Executed(b, cfg, call), Probe(cfg, log, call))
  {
  }

  lemma CallMatches(cfg: Config, b: Breaker, ph: Phase, call: Call)
    requires cfg.Valid() && Matches(cfg, b, ph)
    ensures Matches(cfg, Executed(b, cfg, call), Observe(cfg, ph, call))
  {
    match ph
    case Serving(log) => ServeMatches(cfg, b, log, call);
    case Probing(log) => ProbeMatches(cfg, b, log, call);
    case Tripped(since) =>
      if call.arrival - since >= cfg.recoveryTimeout {
        var b1 := ToHalfOpen(b);
        assert Executed(b, cfg, call) == Executed(b1, cfg, call);
        ProbeMatches(cfg, b1, [], call);
      }
  }

  // For every sequence of non-overlapping calls the breaker is in exactly the state that the
  // outcome trace prescribes: it trips when, and only when, the last FailureThreshold
  // outcomes since closing failed, it closes after exactly SuccessThreshold successes and no
  // failure, and it reopens on the first failed probe.
  lemma {:induction false} TraceRefinement(cfg: Config, b: Breaker, ph: Phase, calls: seq<Call>)
    requires cfg.Valid() && Matches(cfg, b, ph)
    ensures Matches(cfg, ExecuteAll(cfg, b, calls), ObserveAll(cfg, ph, calls))
    decreases |calls|
  {
    if calls != [] {
      CallMatches(cfg, b, ph, calls[0]);
      TraceRefinement(cfg, Executed(b, cfg, calls[0]), Observe(cfg, ph, calls[0]), calls[1..]);
    }
  }

  lemma TraceRefinementFromStart(cfg: Config, calls: seq<Call>)
    requires cfg.Valid()
    ensures Matches(cfg, ExecuteAll(cfg, NEW_BREAKER, calls), ObserveAll(cfg, Serving([]), calls))
  {
    TraceRefinement(cfg, NEW_BREAKER, Serving([]), calls);
  }

  // ---------- the same call as a run of locked sections ----------

  function OutcomeStep(call: Call, counted: bool): CR.Step {
    match call.outcome
    case Failed => CR.Fail(counted, call.finished, call.checked)
    case Succeeded => CR.Succeed(counted)
  }

  function Sections(b: Breaker, cfg: Config, call: Call): seq<CR.Step> {
    if !Admits(b, cfg, call.arrival) then [CR.Arrive(call.arrival), CR.Reject]
    else if AfterCheck(b, cfg, call.arrival).state == HalfOpen then
      [CR.Arrive(call.arrival), CR.ReadState, CR.Count, CR.Start(true), OutcomeStep(call, true), CR.Finish]
    else
      [CR.Arrive(call.arrival), CR.ReadState, CR.Start(false), OutcomeStep(call, false)]
  }

  lemma LeadsCons(cfg: Config, s: CR.System, step: CR.Step, rest: seq<CR.Step>, s': CR.System)
    requires CR.Enabled(s, step) && CR.Leads(cfg, CR.Next(cfg, s, step), rest, s')
    ensures CR.Leads(cfg, s, [step] + rest, s')
  {
    assert ([step] + rest)[1..] == rest;
  }

  // From the start of the operation on, for a counted and for an uncounted call.
  lemma TailComposes(cfg: Config, s: CR.System, call: Call, counted: bool) returns (s': CR.System)
    requires s.clock <= call.finished <= call.checked
    requires s.calls == if counted then CR.NO_CALLS.(startingCounted := 1) else CR.NO_CALLS.(starting := 1)
    ensures CR.Leads(cfg, s,
              [CR.Start(counted), OutcomeStep(call, counted)] + (if counted then [CR.Finish] else []), s')
    ensures s'.calls == CR.NO_CALLS
    ensures
      var b := s.breaker.(totalRequests := s.breaker.totalRequests + 1);
      var b' := match call.outcome
        case Failed => FailureRecorded(b, cfg, call.finished, call.checked)
        case Succeeded => SuccessRecorded(b, cfg);
      s'.breaker == if counted then Decremented(b') else b'
  {
    var s1 := CR.Next(cfg, s, CR.Start(counted));
    assert s1.calls == if counted then CR.NO_CALLS.(runningCounted := 1) else CR.NO_CALLS.(running := 1);
    s' := CR.Next(cfg, s1, OutcomeStep(call, counted));
    var last := if counted then [CR.Finish] else [];
    if counted {
      var s2 := s';
      s' := CR.Next(cfg, s2, CR.Finish);
      assert CR.Leads(cfg, s', [], s');
      LeadsCons(cfg, s2, CR.Finish, [], s');
      assert [CR.Finish] + [] == last;
    } else {
      assert CR.Leads(cfg, s', [], s');
    }
    LeadsCons(cfg, s1, OutcomeStep(call, counted), last, s');
    LeadsCons(cfg, s, CR.Start(counted), [OutcomeStep(call, counted)] + last, s');
    assert [CR.Start(counted)] + ([OutcomeStep(call, counted)] + last) ==
           [CR.Start(counted), OutcomeStep(call, counted)] + last;
  }

  // From the read of the state on, for a call that was admitted.
  lemma AdmittedComposes(cfg: Config, s: CR.System, call: Call, counted: bool) returns (s': CR.System)
    requires s.clock <= call.finished <= call.checked
    requires s.calls == CR.NO_CALLS.(admitted := 1) && (counted <==> s.breaker.state == HalfOpen)
    ensures CR.Leads(cfg, s,
              [CR.ReadState] + (if counted then [CR.Count] else [])
              + ([CR.Start(counted), OutcomeStep(call, counted)] + (if counted then [CR.Finish] else [])), s')
    ensures s'.calls == CR.NO_CALLS
    ensures
      var b1 := if counted then s.breaker.(halfOpenRequests := s.breaker.halfOpenRequests + 1) else s.breaker;
      var b := b1.(totalRequests := b1.totalRequests + 1);
      var b' := match call.outcome
        case Failed => FailureRecorded(b, cfg, call.finished, call.checked)
        case Succeeded => SuccessRecorded(b, cfg);
      s'.breaker == if counted then Decremented(b') else b'
  {
    var tail := [CR.Start(counted), OutcomeStep(call, counted)] + (if counted then [CR.Finish] else []);
    var s1 := CR.Next(cfg, s, CR.ReadState);
    if counted {
      var s2 := CR.Next(cfg, s1, CR.Count);
      s' := TailComposes(cfg, s2, call, true);
      LeadsCons(cfg, s1, CR.Count, tail, s');
      LeadsCons(cfg, s, CR.ReadState, [CR.Count] + tail, s');
      assert [CR.ReadState] + ([CR.Count] + tail) == [CR.ReadState] + [CR.Count] + tail;
    } else {
      s' := TailComposes(cfg, s1, call, false);
      LeadsCons(cfg, s, CR.ReadState, tail, s');
      assert [CR.ReadState] + [] + tail == [CR.ReadState] + tail;
    }
  }

  // Running the locked sections of one call back to back does what Execute does.
  lemma SectionsCompose(cfg: Config, b: Breaker, clock: int, call: Call) returns (s': CR.System)
    requires clock <= call.arrival <= call.finished <= call.checked
    ensures CR.Leads(cfg, CR.System(b, CR.NO_CALLS, clock), Sections(b, cfg, call), s')
    ensures s'.breaker == Executed(b, cfg, call) && s'.calls == CR.NO_CALLS
  {
    var s0 := CR.System(b, CR.NO_CALLS, clock);
    var run := Sections(b, cfg, call);
    var s1 := CR.Next(cfg, s0, run[0]);
    if !Admits(b, cfg, call.arrival) {
      s' := CR.Next(cfg, s1, run[1]);
      assert CR.Leads(cfg, s', [], s');
      LeadsCons(cfg, s1, run[1], [], s');
      assert run[1..] == [run[1]] + [];
    } else {
      var counted := s1.breaker.state == HalfOpen;
      s' := AdmittedComposes(cfg, s1, call, counted);
      assert run[1..] == [CR.ReadState] + (if counted then [CR.Count] else [])
             + ([CR.Start(counted), OutcomeStep(call, counted)] + (if counted then [CR.Finish] else []));
    }
    LeadsCons(cfg, s0, run[0], run[1..], s');
    assert run == [run[0]] + run[1..];
  }

  // ---------- WindowDuration ----------

  predicate NeverStalls(cfg: Config, run: seq<CR.Step>) {
    forall i | 0 <= i < |run| && run[i].Fail? :: run[i].checked - run[i].at <= cfg.windowDuration
  }

  // lastFailureTime is overwritten before the window test reads it, so old failures count as
  // much as recent ones: unless recordFailure itself takes longer than the window, no run
  // under any interleaving depends on WindowDuration.
  lemma {:induction false} WindowHasNoEffect(cfg: Config, cfg': Config, s: CR.System, run: seq<CR.Step>, s': CR.System)
    requires cfg' == cfg.(windowDuration := cfg'.windowDuration)
    requires NeverStalls(cfg, run) && NeverStalls(cfg', run)
    requires CR.Leads(cfg, s, run, s')
    ensures CR.Leads(cfg', s, run, s')
    decreases |run|
  {
    if run != [] {
      assert CR.Next(cfg, s, run[0]) == CR.Next(cfg', s, run[0]) by {
        if run[0].Fail? {
          assert run[0].checked - run[0].at <= cfg.windowDuration;
          assert run[0].checked - run[0].at <= cfg'.windowDuration;
        }
      }
      WindowHasNoEffect(cfg, cfg', CR.Next(cfg, s, run[0]), run[1..], s');
    }
  }

  // The purpose of the window is defeated: two failures further apart than the window trip a
  // breaker whose threshold is two.
  lemma OldFailuresCount(cfg: Config, first: int, second: int)
    requires cfg.Valid() && cfg.failureThreshold == 2 && second - first > cfg.windowDuration
    ensures
      var b1 := Executed(NEW_BREAKER, cfg, Call(first, Failed, first, first));
      var b2 := Executed(b1, cfg, Call(second, Failed, second, second));
      b1.state == Closed && b2.state == Open
  {
  }
}
