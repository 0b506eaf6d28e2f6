/**
 Concrete interleavings of the batch coordinator: what the guarantees of CoordinatorOrder and
 CoordinatorFlush leave open does happen.
 */
module CoordinatorWitness {
  import opened Batches
  import opened Coordination
  import opened CoordinatorRuns
  import opened CoordinatorFlush

  // A run together with the states it passes through.
  datatype Trace = Trace(run: seq<Step>, states: seq<System>)

  ghost predicate Follows(cfg: Config, s: System, step: Step, s': System) {
    Enabled(cfg, s, step) && s' == Next(cfg, s, step)
  }

  ghost predicate Path(cfg: Config, tr: Trace, s: System) {
    && |tr.states| == |tr.run| + 1
    && tr.states[0] == Initial(1) && tr.states[|tr.run|] == s
    && forall i {:trigger tr.run[i]} | 0 <= i < |tr.run| :: Follows(cfg, tr.states[i], tr.run[i], tr.states[i + 1])
  }

  lemma Begin(cfg: Config) returns (tr: Trace, s: System)
    ensures Path(cfg, tr, s)
    ensures s.store == EMPTY_STORE && s.channel == [] && s.clients == s.queue == []
    ensures s.workers == [Idle] && s.manager == Waiting && s.flushers == [] && s.firing == multiset{}
    ensures !s.stopped && s.lost == {}
    ensures s.log == Log([], [], [], [], [])
  {
    tr, s := Trace([], [Initial(1)]), Initial(1);
  }

  lemma Do(cfg: Config, tr: Trace, s: System, step: Step) returns (tr': Trace, s': System)
    requires Path(cfg, tr, s) && Enabled(cfg, s, step)
    ensures s' == Next(cfg, s, step) && Path(cfg, tr', s')
  {
    s' := Next(cfg, s, step);
    tr' := Trace(tr.run + [step], tr.states + [s']);
    assert Follows(cfg, s, step, s');
    forall i | 0 <= i < |tr'.run|
      ensures Follows(cfg, tr'.states[i], tr'.run[i], tr'.states[i + 1])
    {
      if i < |tr.run| {
        assert Follows(cfg, tr.states[i], tr.run[i], tr.states[i + 1]);
      }
    }
  }

  lemma {:induction false} PathLeads(cfg: Config, tr: Trace, s: System, k: nat)
    requires Path(cfg, tr, s) && k <= |tr.run|
    ensures Leads(cfg, tr.states[k], tr.run[k..], s)
    decreases |tr.run| - k
  {
    if k < |tr.run| {
      assert Follows(cfg, tr.states[k], tr.run[k], tr.states[k + 1]);
      PathLeads(cfg, tr, s, k + 1);
      assert tr.run[k..][1..] == tr.run[k + 1..];
    }
  }

  lemma PathReached(cfg: Config, tr: Trace, s: System)
    requires Path(cfg, tr, s)
    ensures Leads(cfg, Initial(1), tr.run, s)
  {
    PathLeads(cfg, tr, s, 0);
    assert tr.run[0..] == tr.run;
  }

  // A message is submitted and taken by the only worker.
  lemma SubmitAndTake(cfg: Config, tr: Trace, s: System, m: Message) returns (tr': Trace, s': System)
    requires Path(cfg, tr, s) && s.clients == s.queue == [] && s.workers == [Idle] && !s.stopped && cfg.queueSize >= 1
    ensures Path(cfg, tr', s')
    ensures s' == s.(workers := [Holding(m)], log := s.log.(submitted := s.log.submitted + [m]))
  {
    tr', s' := Do(cfg, tr, s, Call(m));
    tr', s' := Do(cfg, tr', s', Submit(0));
    assert s'.clients == [] && s'.queue == [m] && s'.workers == [Idle];
    tr', s' := Do(cfg, tr', s', Take(0));
    assert [Idle][0 := Holding(m)] == [Holding(m)] && [m][1..] == [];
  }

  // The worker adds the message to a batch of its own.
  lemma ProcessFirst(cfg: Config, tr: Trace, s: System, m: Message) returns (tr': Trace, s': System)
    requires Path(cfg, tr, s) && s.workers == [Holding(m)]
    requires m.topic !in s.store.batches && cfg.maxMessages >= 1 && Size(m) <= cfg.maxBytes
    ensures Path(cfg, tr', s')
    ensures
      var b := Added(NewBatch(cfg, "", m.topic), m);
      s' == s.(store := s.store.(batches := s.store.batches[m.topic := b]),
               workers := [Arming(m.topic, IsFull(b))],
               log := s.log.(accepted := s.log.accepted + [m]))
  {
    tr', s' := Do(cfg, tr, s, Process(0, ""));
    var b := NewBatch(cfg, "", m.topic);
    assert Opened(cfg, s.store, m, "").batches[m.topic] == b && Accepts(b, m);
    assert s.store.batches[m.topic := b][m.topic := Added(b, m)] == s.store.batches[m.topic := Added(b, m)];
    assert s.log.detached + [] == s.log.detached && s.log.dispatched + [] == s.log.dispatched;
    assert [Holding(m)][0 := Arming(m.topic, IsFull(Added(b, m)))] == [Arming(m.topic, IsFull(Added(b, m)))];
  }

  lemma ArmFirst(cfg: Config, tr: Trace, s: System, topic: string, full: bool) returns (tr': Trace, s': System)
    requires Path(cfg, tr, s) && s.workers == [Arming(topic, full)]
    ensures Path(cfg, tr', s')
    ensures s' == s.(store := Started(s.store, topic),
                     workers := [if full then Requesting(topic) else Idle],
                     lost := s.lost - {topic})
  {
    tr', s' := Do(cfg, tr, s, Arm(0));
    assert [Arming(topic, full)][0 := s'.workers[0]] == [s'.workers[0]];
  }

  // ---------- a dropped request strands a batch ----------

  lemma {:induction false} FillChannel(cfg: Config, tr: Trace, s: System, topic: string, k: nat)
      returns (tr': Trace, s': System)
    requires Path(cfg, tr, s) && |s.channel| + k == FLUSH_CAPACITY && s.lost == {}
    requires forall t | t in s.channel :: t == topic
    ensures Path(cfg, tr', s')
    ensures |s'.channel| == FLUSH_CAPACITY && (forall t | t in s'.channel :: t == topic)
    ensures s' == s.(channel := s'.channel)
    decreases k
  {
    tr', s' := tr, s;
    if k > 0 {
      tr', s' := Do(cfg, tr', s', ClientFlush(topic));
      assert s' == s.(channel := s.channel + [topic]);
      tr', s' := FillChannel(cfg, tr', s', topic, k - 1);
    }
  }

  // The manager works off requests for a topic that has no batch.
  lemma {:induction false} DrainChannel(cfg: Config, tr: Trace, s: System, topic: string)
      returns (tr': Trace, s': System)
    requires Path(cfg, tr, s) && s.manager == Waiting && topic !in s.store.batches && topic !in s.lost
    requires forall t | t in s.channel :: t == topic
    ensures Path(cfg, tr', s') && s' == s.(channel := [])
    decreases |s.channel|
  {
    tr', s' := tr, s;
    if s.channel != [] {
      assert s.channel[0] in s.channel;
      tr', s' := Do(cfg, tr', s', ManagerTake);
      tr', s' := Do(cfg, tr', s', ManagerDetach);
      assert s.log.detached + [] == s.log.detached && s.lost - {topic} == s.lost;
      assert s' == s.(channel := s.channel[1..]);
      assert forall t | t in s.channel[1..] :: t in s.channel;
      tr', s' := DrainChannel(cfg, tr', s', topic);
    }
  }

  // The only timer fires, and its request finds the channel full.
  lemma FireAndDrop(cfg: Config, tr: Trace, s: System, timer: nat, topic: string) returns (tr': Trace, s': System)
    requires Path(cfg, tr, s) && s.store.armed == map[timer := topic] && s.firing == multiset{}
    requires |s.channel| == FLUSH_CAPACITY && s.lost == {} && Current(s.store, topic) != []
    ensures Path(cfg, tr', s') && s' == s.(store := s.store.(armed := map[]), lost := {topic})
  {
    tr', s' := Do(cfg, tr, s, Fire(timer));
    assert map[timer := topic] - {timer} == map[];
    assert s' == s.(store := s.store.(armed := map[]), firing := multiset{topic});
    tr', s' := Do(cfg, tr', s', Callback(topic));
    assert multiset{topic} - multiset{topic} == multiset{};
  }

  // While the channel is full the timer's request is dropped; afterwards the coordinator is
  // at rest, and the accepted message stays in its batch with nothing left to flush it.
  lemma DroppedRequestStrands(m: Message, other: string) returns (cfg: Config, run: seq<Step>, s: System)
    requires other != m.topic
    ensures Leads(cfg, Initial(1), run, s) && Quiescent(s) && !s.stopped
    ensures Current(s.store, m.topic) == [m] && s.lost == {m.topic}
  {
    cfg := Config(2, Size(m) + 1, 1);
    var tr: Trace;
    tr, s := Begin(cfg);
    tr, s := SubmitAndTake(cfg, tr, s, m);
    tr, s := ProcessFirst(cfg, tr, s, m);
    tr, s := ArmFirst(cfg, tr, s, m.topic, false);
    assert s.store.armed == map[0 := m.topic] && {} - {m.topic} == {};
    tr, s := FillChannel(cfg, tr, s, other, FLUSH_CAPACITY);
    tr, s := FireAndDrop(cfg, tr, s, 0, m.topic);
    tr, s := DrainChannel(cfg, tr, s, other);
    PathReached(cfg, tr, s);
    run := tr.run;
    assert Current(s.store, m.topic) == [] + [m];
  }

  // ---------- Stop does not wait for the workers ----------

  predicate AllGone(s: System) {
    && s.manager == Gone
    && (forall w | 0 <= w < |s.workers| :: s.workers[w] == Exited)
    && (forall f | 0 <= f < |s.flushers| :: s.flushers[f] == [])
  }

  // Once workers and manager have exited, only another flush of everything can send a batch.
  lemma {:induction false} NothingSentAfterExit(cfg: Config, s: System, run: seq<Step>, s': System)
    requires AllGone(s) && Leads(cfg, s, run, s')
    requires forall i | 0 <= i < |run| :: !run[i].FlushAll?
    ensures s'.log.dispatched == s.log.dispatched && s'.log.detached == s.log.detached
    decreases |run|
  {
    if run != [] {
      assert !run[0].FlushAll?;
      StepAfterExit(cfg, s, run[0]);
      NothingSentAfterExit(cfg, Next(cfg, s, run[0]), run[1..], s');
    }
  }

  lemma StepAfterExit(cfg: Config, s: System, step: Step)
    requires AllGone(s) && Enabled(cfg, s, step) && !step.FlushAll?
    ensures AllGone(Next(cfg, s, step))
    ensures Next(cfg, s, step).log.dispatched == s.log.dispatched && Next(cfg, s, step).log.detached == s.log.detached
  {
    assert !Moving(step) && !step.ManagerDispatch? && !step.FlusherDispatch?;
    SilentStep(cfg, s, step);
    assert s.channel == [] || s.manager == Gone;
    match step
    case Callback(topic) => RequestOnly(s, topic);
    case ClientFlush(topic) => RequestOnly(s, topic);
    case _ =>
  }

  // A worker that took a request before Stop adds it after Stop has flushed everything. All
  // goroutines end, and the accepted message is never handed to sendBatch.
  lemma StopLeavesMessage(m: Message) returns (cfg: Config, run: seq<Step>, s: System)
    ensures Leads(cfg, Initial(1), run, s) && s.stopped && AllGone(s)
    ensures s.log.accepted == [m] && Current(s.store, m.topic) == [m] && s.log.dispatched == []
  {
    cfg := Config(2, Size(m) + 1, 1);
    var tr: Trace;
    tr, s := Begin(cfg);
    tr, s := SubmitAndTake(cfg, tr, s, m);
    tr, s := Do(cfg, tr, s, Stop);
    tr, s := FlushNothing(cfg, tr, s);
    tr, s := ProcessFirst(cfg, tr, s, m);
    tr, s := ArmFirst(cfg, tr, s, m.topic, false);
    tr, s := ExitAll(cfg, tr, s);
    PathReached(cfg, tr, s);
    run := tr.run;
    assert Current(s.store, m.topic) == [] + [m];
  }

  lemma FlushNothing(cfg: Config, tr: Trace, s: System) returns (tr': Trace, s': System)
    requires Path(cfg, tr, s) && s.store == EMPTY_STORE && s.lost == {} && s.log.detached == []
    ensures Path(cfg, tr', s') && s' == s.(flushers := s.flushers + [[]])
  {
    assert Listing(s.store, []);
    tr', s' := Do(cfg, tr, s, FlushAll([]));
    TakenNone(EMPTY_STORE);
    assert TakenAll(EMPTY_STORE) == EMPTY_STORE;
  }

  lemma ExitAll(cfg: Config, tr: Trace, s: System) returns (tr': Trace, s': System)
    requires Path(cfg, tr, s) && s.workers == [Idle] && s.manager == Waiting
    ensures Path(cfg, tr', s') && s' == s.(workers := [Exited], manager := Gone)
  {
    tr', s' := Do(cfg, tr, s, Exit(0));
    assert [Idle][0 := Exited] == [Exited];
    tr', s' := Do(cfg, tr', s', ManagerExit);
  }

  // ---------- the manager leaves a request behind ----------

  lemma FireAndQueue(cfg: Config, tr: Trace, s: System, timer: nat, topic: string) returns (tr': Trace, s': System)
    requires Path(cfg, tr, s) && s.store.armed == map[timer := topic] && s.firing == multiset{}
    requires s.channel == [] && s.lost == {}
    ensures Path(cfg, tr', s') && s' == s.(store := s.store.(armed := map[]), channel := [topic])
  {
    tr', s' := Do(cfg, tr, s, Fire(timer));
    assert map[timer := topic] - {timer} == map[];
    assert s' == s.(store := s.store.(armed := map[]), firing := multiset{topic});
    tr', s' := Do(cfg, tr', s', Callback(topic));
    assert multiset{topic} - multiset{topic} == multiset{} && {} - {topic} == s.lost;
  }

  // When the context of Start is cancelled, workers and manager leave without a flush. A timer
  // that fires after that queues its request in vain: nothing was dropped, Stop was not called,
  // and the accepted message stays in its batch.
  lemma ManagerGoneStrands(m: Message) returns (cfg: Config, run: seq<Step>, s: System)
    ensures Leads(cfg, Initial(1), run, s) && Quiescent(s) && AllGone(s) && !s.stopped
    ensures s.lost == {} && s.channel == [m.topic] && Current(s.store, m.topic) == [m]
  {
    cfg := Config(2, Size(m) + 1, 1);
    var tr: Trace;
    tr, s := Begin(cfg);
    tr, s := SubmitAndTake(cfg, tr, s, m);
    tr, s := ProcessFirst(cfg, tr, s, m);
    tr, s := ArmFirst(cfg, tr, s, m.topic, false);
    assert s.store.armed == map[0 := m.topic] && {} - {m.topic} == {};
    tr, s := ExitAll(cfg, tr, s);
    tr, s := FireAndQueue(cfg, tr, s, 0, m.topic);
    PathReached(cfg, tr, s);
    run := tr.run;
    assert Current(s.store, m.topic) == [] + [m];
  }

  // ---------- sendBatch may be started out of order ----------

  // The worker adds a message that fills a batch, arms the timer and requests the flush.
  lemma AddFull(cfg: Config, tr: Trace, s: System, m: Message) returns (tr': Trace, s': System)
    requires Path(cfg, tr, s) && s.clients == s.queue == [] && s.workers == [Idle] && !s.stopped && s.lost == {}
    requires m.topic !in s.store.batches && |s.channel| < FLUSH_CAPACITY
    requires cfg.maxMessages == 1 && cfg.queueSize >= 1 && Size(m) <= cfg.maxBytes
    ensures Path(cfg, tr', s')
    ensures s'.clients == s'.queue == [] && s'.workers == [Idle] && !s'.stopped && s'.lost == {}
    ensures s'.channel == s.channel + [m.topic]
    ensures s'.manager == s.manager && s'.log == s.log.(submitted := s'.log.submitted, accepted := s'.log.accepted)
    ensures s'.store.batches == s.store.batches[m.topic := Added(NewBatch(cfg, "", m.topic), m)]
  {
    tr', s' := SubmitAndTake(cfg, tr, s, m);
    tr', s' := ProcessFirst(cfg, tr', s', m);
    tr', s' := ArmFirst(cfg, tr', s', m.topic, true);
    tr', s' := Do(cfg, tr', s', RequestFlush(0));
    assert [Requesting(m.topic)][0 := Idle] == [Idle];
  }

  // A message that does not fit replaces the batch, which is sent at once.
  lemma Replace(cfg: Config, tr: Trace, s: System, m: Message, b: BatchValue) returns (tr': Trace, s': System)
    requires Path(cfg, tr, s) && s.workers == [Holding(m)]
    requires m.topic in s.store.batches && s.store.batches[m.topic] == b && |b.messages| >= b.maxMessages
    ensures Path(cfg, tr', s')
    ensures s'.manager == s.manager
    ensures s'.log.detached == s.log.detached + [b] && s'.log.dispatched == s.log.dispatched + [b]
  {
    tr', s' := Do(cfg, tr, s, Process(0, ""));
  }

  // The manager detaches the topic's batch but has not started sendBatch yet.
  lemma TakeAndDetach(cfg: Config, tr: Trace, s: System, topic: string, b: BatchValue) returns (tr': Trace, s': System)
    requires Path(cfg, tr, s) && s.manager == Waiting && s.channel == [topic] && s.lost == {}
    requires s.store.batches == map[topic := b] && b.messages != []
    ensures Path(cfg, tr', s')
    ensures s'.store.batches == map[] && s'.manager == Dispatching(b) && s'.channel == [] && s'.lost == {}
    ensures s'.workers == s.workers && s'.clients == s.clients && s'.queue == s.queue && s'.stopped == s.stopped
    ensures s'.log == s.log.(detached := s.log.detached + [b])
  {
    tr', s' := Do(cfg, tr, s, ManagerTake);
    tr', s' := Do(cfg, tr', s', ManagerDetach);
  }

  // The manager starts sendBatch only after unlocking, so a later batch of the same topic that
  // a worker replaces meanwhile is dispatched first: hand-off order is kept, dispatch order
  // is not.
  lemma DispatchOutOfOrder(m1: Message, m2: Message, m3: Message) returns (cfg: Config, run: seq<Step>, s: System)
    requires m1.topic == m2.topic == m3.topic
    ensures Leads(cfg, Initial(1), run, s)
    ensures |s.log.detached| == 2 && s.log.detached[0].messages == [m1] && s.log.detached[1].messages == [m2]
    ensures s.log.dispatched == [s.log.detached[1], s.log.detached[0]]
  {
    cfg := Config(1, Size(m1) + Size(m2), 1);
    var b1, b2 := Added(NewBatch(cfg, "", m1.topic), m1), Added(NewBatch(cfg, "", m1.topic), m2);
    var tr: Trace;
    tr, s := Begin(cfg);
    tr, s := AddFull(cfg, tr, s, m1);
    tr, s := TakeAndDetach(cfg, tr, s, m1.topic, b1);
    tr, s := AddFull(cfg, tr, s, m2);
    tr, s := SubmitAndTake(cfg, tr, s, m3);
    tr, s := Replace(cfg, tr, s, m3, b2);
    tr, s := Do(cfg, tr, s, ManagerDispatch);
    PathReached(cfg, tr, s);
    run := tr.run;
  }
}
