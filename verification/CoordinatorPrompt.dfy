/**
 The prompt schedule of CoordinatorDeadline is a run of the interleaving machine: one worker and
 the flush manager do everything that follows from an arrival, or from a timer that fires, before
 anything else happens.
 */
module CoordinatorPrompt {
  import opened Batches
  import opened Coordination
  import opened CoordinatorRuns
  import opened CoordinatorDeadline

  // Nothing is under way but timers.
  function Rest(store: Store, log: Log): System {
    System(store, [], [], [], [Idle], Waiting, [], multiset{}, false, log, {})
  }

  // Batches handed off with messages in them.
  function NonEmpty(batches: seq<BatchValue>): nat {
    if batches == [] then 0
    else NonEmpty(batches[..|batches| - 1]) + (if batches[|batches| - 1].messages != [] then 1 else 0)
  }

  lemma NonEmptyAppend(batches: seq<BatchValue>, b: BatchValue)
    ensures NonEmpty(batches + [b]) == NonEmpty(batches) + (if b.messages != [] then 1 else 0)
  {
    assert (batches + [b])[..|batches|] == batches;
  }

  // A queued request is served: the topic's batch leaves and is dispatched.
  lemma RequestServed(cfg: Config, s0: System, run: seq<Step>, store: Store, log: Log, topic: string)
    returns (run': seq<Step>, log': Log)
    requires Leads(cfg, s0, run, Rest(store, log).(channel := [topic])) && Current(store, topic) != []
    ensures Leads(cfg, s0, run', Rest(Taken(store, topic), log'))
    ensures NonEmpty(log'.detached) == NonEmpty(log.detached) + 1
  {
    var s: System;
    run', s := Go(cfg, s0, run, Rest(store, log).(channel := [topic]), ManagerTake);
    assert s == Rest(store, log).(manager := Requested(topic));
    var b := store.batches[topic];
    run', s := Go(cfg, s0, run', s, ManagerDetach);
    log' := log.(detached := log.detached + [b]);
    assert Rest(store, log).lost - {topic} == {};
    assert s == Rest(Taken(store, topic), log').(manager := Dispatching(b));
    run', s := Go(cfg, s0, run', s, ManagerDispatch);
    log' := s.log;
    NonEmptyAppend(log.detached, b);
  }

  lemma FiredTaken(s: Store, topic: string)
    requires Armed(s, topic)
    ensures Taken(s.(armed := s.armed - {s.flushTimers[topic]}), topic) == Taken(s, topic) || topic !in s.batches
  {
    if topic in s.batches {
      var i := s.flushTimers[topic];
      assert s.armed - {i} - {i} == s.armed - {i};
    }
  }

  // The timer fires, its callback asks for a flush, and the manager serves it.
  lemma SettledIsRun(cfg: Config, t: Timed, topic: string, interval: int, now: int, log: Log)
    returns (run: seq<Step>, log': Log)
    requires StoreSound(cfg, t.store) && (Current(t.store, topic) != [] ==> Armed(t.store, topic))
    ensures Leads(cfg, Rest(t.store, log), run, Rest(Settled(t, topic, interval, now).store, log'))
    ensures NonEmpty(log'.detached) - NonEmpty(log.detached) == |Settled(t, topic, interval, now).stays| - |t.stays|
  {
    var s0 := Rest(t.store, log);
    var s := s0;
    run, log' := [], log;
    if Settled(t, topic, interval, now) != t && Current(t.store, topic) != [] && t.last + interval < now {
      var timer := t.store.flushTimers[topic];
      var fired := t.store.(armed := t.store.armed - {timer});
      assert t.store.armed[timer] == topic;
      run, s := Go(cfg, s0, run, s, Fire(timer));
      assert s == Rest(fired, log).(firing := multiset{topic});
      run, s := Go(cfg, s0, run, s, Callback(topic));
      assert multiset{topic} - multiset{topic} == multiset{};
      assert s == Rest(fired, log).(channel := [topic]);
      FiredTaken(t.store, topic);
      run, log' := RequestServed(cfg, s0, run, fired, log, topic);
    }
  }

  // The message is submitted, taken and processed.
  lemma ProcessedIsRun(cfg: Config, store: Store, log: Log, m: Message, freshId: string)
    returns (run: seq<Step>, log': Log)
    requires StoreSound(cfg, store) && cfg.queueSize >= 1
    ensures
      var r := Processed(cfg, store, m, freshId);
      && Leads(cfg, Rest(store, log), run,
               Rest(r.store, log').(workers := [if r.accepted then Arming(m.topic, r.full) else Idle]))
      && NonEmpty(log'.detached) ==
           NonEmpty(log.detached) + (if r.handedOff.Some? && Current(store, m.topic) != [] then 1 else 0)
  {
    var s0 := Rest(store, log);
    var s: System;
    run, s := Go(cfg, s0, [], s0, Call(m));
    run, s := Go(cfg, s0, run, s, Submit(0));
    assert s.clients == [] && s.queue == [m];
    run, s := Go(cfg, s0, run, s, Take(0));
    assert s.workers == [Holding(m)] && s.queue == [];
    var before := s;
    run, s := Go(cfg, s0, run, s, Process(0, freshId));
    log' := s.log;
    var r := Processed(cfg, store, m, freshId);
    assert s.workers == [if r.accepted then Arming(m.topic, r.full) else Idle];
    assert before.lost - {m.topic} == {};
    HandedOff(cfg, store, m, freshId);
    if r.handedOff.Some? {
      NonEmptyAppend(log.detached, r.handedOff.value);
    } else {
      assert log.detached + [] == log.detached;
    }
  }

  lemma HandedOff(cfg: Config, store: Store, m: Message, freshId: string)
    ensures
      var handedOff := Processed(cfg, store, m, freshId).handedOff;
      handedOff.Some? ==> handedOff.value.messages == Current(store, m.topic)
  {
  }

  // The timer is restarted, and a full batch is flushed.
  lemma ArmedIsRun(cfg: Config, s0: System, run: seq<Step>, store: Store, log: Log, topic: string, full: bool)
    returns (run': seq<Step>, log': Log)
    requires Leads(cfg, s0, run, Rest(store, log).(workers := [Arming(topic, full)])) && Current(store, topic) != []
    ensures
      var started := Started(store, topic);
      && Leads(cfg, s0, run', Rest(if full then Taken(started, topic) else started, log'))
      && NonEmpty(log'.detached) == NonEmpty(log.detached) + (if full then 1 else 0)
  {
    var started := Started(store, topic);
    var s: System;
    run', s := Go(cfg, s0, run, Rest(store, log).(workers := [Arming(topic, full)]), Arm(0));
    assert s == Rest(started, log).(workers := [if full then Requesting(topic) else Idle]);
    log' := log;
    if full {
      run', s := Go(cfg, s0, run', s, RequestFlush(0));
      assert s == Rest(started, log).(channel := [topic]);
      run', log' := RequestServed(cfg, s0, run', started, log, topic);
    }
  }

  // One arrival, with everything that follows from it.
  lemma ArrivedIsRun(cfg: Config, t: Timed, a: Arrival, log: Log) returns (run: seq<Step>, log': Log)
    requires StoreSound(cfg, t.store) && cfg.queueSize >= 1
    ensures Leads(cfg, Rest(t.store, log), run, Rest(Arrived(cfg, t, a).store, log'))
    ensures NonEmpty(log'.detached) - NonEmpty(log.detached) == |Arrived(cfg, t, a).stays| - |t.stays|
    ensures Current(Arrived(cfg, t, a).store, a.message.topic) != [] ==>
        Armed(Arrived(cfg, t, a).store, a.message.topic)
  {
    var topic, r := a.message.topic, Processed(cfg, t.store, a.message, a.freshId);
    run, log' := ProcessedIsRun(cfg, t.store, log, a.message, a.freshId);
    ProcessedSuits(cfg, t.store, a.message, a.freshId);
    AnsweredStays(t, r, topic, a.time);
    if r.accepted {
      run, log' := ArmedIsRun(cfg, Rest(t.store, log), run, r.store, log', topic, r.full);
    }
  }

  lemma AnsweredStays(t: Timed, r: Reply, topic: string, now: int)
    ensures
      var t' := Answered(t, r, topic, now);
      && |t'.stays| - |t.stays| == (if r.handedOff.Some? && Current(t.store, topic) != [] then 1 else 0)
           + (if r.accepted && r.full then 1 else 0)
      && t'.store == (if !r.accepted then r.store
                      else if r.full then Taken(Started(r.store, topic), topic) else Started(r.store, topic))
      && (r.accepted && !r.full ==> Armed(t'.store, topic))
  {
  }

  lemma {:induction false} LeadsConcat(cfg: Config, s: System, run1: seq<Step>, s1: System,
                                        run2: seq<Step>, s2: System)
    requires Leads(cfg, s, run1, s1) && Leads(cfg, s1, run2, s2)
    ensures Leads(cfg, s, run1 + run2, s2)
    decreases |run1|
  {
    if run1 == [] {
      assert run1 + run2 == run2;
    } else {
      assert (run1 + run2)[1..] == run1[1..] + run2;
      LeadsConcat(cfg, Next(cfg, s, run1[0]), run1[1..], s1, run2, s2);
    }
  }

  lemma FollowsIsRun(cfg: Config, interval: int, t: Timed, a: Arrival, t': Timed, log: Log)
    returns (run: seq<Step>, log': Log)
    requires StoreSound(cfg, t.store) && cfg.queueSize >= 1 && Follows(cfg, interval, t, a, t')
    requires Current(t.store, a.message.topic) != [] ==> Armed(t.store, a.message.topic)
    ensures Leads(cfg, Rest(t.store, log), run, Rest(t'.store, log'))
    ensures NonEmpty(log'.detached) - NonEmpty(log.detached) == |t'.stays| - |t.stays|
    ensures Current(t'.store, a.message.topic) != [] ==> Armed(t'.store, a.message.topic)
  {
    var topic := a.message.topic;
    var s1 := Settled(t, topic, interval, a.time);
    SettledClock(cfg, t, topic, interval, a.time);
    run, log' := SettledIsRun(cfg, t, topic, interval, a.time, log);
    var run2: seq<Step>;
    var log1 := log';
    run2, log' := ArrivedIsRun(cfg, s1, a, log1);
    LeadsConcat(cfg, Rest(t.store, log), run, Rest(s1.store, log1), run2, Rest(t'.store, log'));
    run := run + run2;
  }

  // Every stream of arrivals is a run of the interleaving machine, and its stays are the batches
  // with messages that the run hands off.
  lemma {:induction false} StreamIsRun(cfg: Config, interval: int, topic: string, arrivals: seq<Arrival>,
                                       states: seq<Timed>, k: nat, log: Log)
    returns (run: seq<Step>, log': Log)
    requires interval >= 0 && cfg.maxMessages >= 1 && cfg.queueSize >= 1 && k <= |arrivals|
    requires Stream(cfg, interval, topic, arrivals, states)
    ensures Leads(cfg, Rest(states[0].store, log), run, Rest(states[k].store, log'))
    ensures NonEmpty(log'.detached) - NonEmpty(log.detached) == |states[k].stays|
    ensures Current(states[k].store, topic) != [] ==> Armed(states[k].store, topic)
  {
    if k == 0 {
      run, log' := [], log;
    } else {
      run, log' := StreamIsRun(cfg, interval, topic, arrivals, states, k - 1, log);
      PromptAlong(cfg, interval, topic, arrivals, states, k - 1);
      assert StepAt(cfg, interval, arrivals, states, k - 1);
      var run2: seq<Step>;
      var log1 := log';
      run2, log' := FollowsIsRun(cfg, interval, states[k - 1], arrivals[k - 1], states[k], log1);
      LeadsConcat(cfg, Rest(states[0].store, log), run, Rest(states[k - 1].store, log1),
                   run2, Rest(states[k].store, log'));
      run := run + run2;
    }
  }
}
