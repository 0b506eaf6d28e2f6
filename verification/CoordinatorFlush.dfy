/**
 No batch is forgotten: over every interleaving, a non-empty current batch has some pending
 piece of work that leads to its flush, unless a flush request was dropped on a full channel.
 */
module CoordinatorFlush {
  import opened Batches
  import opened Coordination
  import opened CoordinatorRuns
  import opened CoordinatorOrder

  predicate ArmingWorker(workers: seq<Worker>, topic: string) {
    Arming(topic, true) in workers || Arming(topic, false) in workers
  }

  // Work under way that leads to a flush of the topic.
  predicate FlushPending(s: System, topic: string) {
    || Armed(s.store, topic)
    || topic in s.channel
    || s.manager == Requested(topic)
    || topic in s.firing
    || ArmingWorker(s.workers, topic)
  }

  ghost predicate NotStranded(s: System, topic: string) {
    Current(s.store, topic) != [] ==> FlushPending(s, topic) || topic in s.lost
  }

  lemma OtherWorkersStay(workers: seq<Worker>, w: nat, worker: Worker, topic: string)
    requires w < |workers| && ArmingWorker(workers, topic)
    requires !workers[w].Arming? || workers[w].topic != topic
    ensures ArmingWorker(workers[w := worker], topic)
  {
    var full :| Arming(topic, full) in workers;
    var i :| 0 <= i < |workers| && workers[i] == Arming(topic, full);
    assert workers[w := worker][i] == Arming(topic, full);
  }

  lemma RequestLeads(s: System, topic: string, t: string)
    ensures Request(s, topic).store == s.store && Request(s, topic).workers == s.workers
    ensures topic in Request(s, topic).channel || topic in Request(s, topic).lost || Current(s.store, topic) == []
    ensures t in s.channel ==> t in Request(s, topic).channel
    ensures t in s.lost && t != topic ==> t in Request(s, topic).lost
  {
  }

  lemma ProcessNotStranded(cfg: Config, s: System, w: nat, freshId: string, topic: string)
    requires StoreSound(cfg, s.store) && w < |s.workers| && s.workers[w].Holding? && NotStranded(s, topic)
    ensures NotStranded(NextProcess(cfg, s, w, freshId), topic)
  {
    var m := s.workers[w].message;
    var r := Processed(cfg, s.store, m, freshId);
    var s' := NextProcess(cfg, s, w, freshId);
    ProcessCurrent(cfg, s.store, m, freshId, topic);
    ProcessedSound(cfg, s.store, m, freshId);
    if topic == m.topic {
      if r.accepted {
        assert s'.workers[w] == Arming(topic, r.full);
      } else {
        RefusedLeavesEmpty(cfg, s.store, m, freshId);
      }
    } else if ArmingWorker(s.workers, topic) {
      OtherWorkersStay(s.workers, w, s'.workers[w], topic);
    }
  }

  lemma RefusedLeavesEmpty(cfg: Config, s: Store, m: Message, freshId: string)
    requires StoreSound(cfg, s) && !Processed(cfg, s, m, freshId).accepted
    ensures Current(Processed(cfg, s, m, freshId).store, m.topic) == []
  {
    RefusedIffTooLarge(cfg, s, m, freshId);
  }

  lemma ArmNotStranded(s: System, w: nat, topic: string)
    requires TimersSound(s.store) && w < |s.workers| && s.workers[w].Arming? && NotStranded(s, topic)
    ensures NotStranded(NextArm(s, w), topic)
  {
    StartedSound(s.store, s.workers[w].topic);
    if topic != s.workers[w].topic && ArmingWorker(s.workers, topic) {
      OtherWorkersStay(s.workers, w, NextArm(s, w).workers[w], topic);
    }
  }

  lemma FireNotStranded(s: System, s': System, timer: nat, topic: string)
    requires TimersSound(s.store) && timer in s.store.armed && NotStranded(s, topic)
    requires s' == s.(store := s.store.(armed := s.store.armed - {timer}),
                      firing := s.firing + multiset{s.store.armed[timer]})
    ensures NotStranded(s', topic)
  {
    if Armed(s.store, topic) && s.store.flushTimers[topic] == timer {
      assert s.store.armed[timer] == topic;
      assert topic in s'.firing;
    }
  }

  lemma DetachNotStranded(cfg: Config, s: System, topic: string)
    requires StoreSound(cfg, s.store) && s.manager.Requested? && NotStranded(s, topic)
    ensures NotStranded(NextDetach(s), topic)
  {
    DetachCurrent(cfg, s.store, s.manager.topic, topic);
    TakenSound(cfg, s.store, s.manager.topic);
  }

  lemma CallbackNotStranded(s: System, asked: string, topic: string)
    requires asked in s.firing && NotStranded(s, topic)
    ensures NotStranded(Request(s, asked).(firing := s.firing - multiset{asked}), topic)
  {
    RequestLeads(s, asked, topic);
  }

  lemma RequestNotStranded(s: System, asked: string, topic: string)
    requires NotStranded(s, topic)
    ensures NotStranded(Request(s, asked), topic)
  {
    RequestLeads(s, asked, topic);
  }

  // A worker that is not about to arm a timer changes its state.
  lemma WorkerNotStranded(s: System, w: nat, worker: Worker, topic: string)
    requires w < |s.workers| && !s.workers[w].Arming? && NotStranded(s, topic)
    ensures NotStranded(s.(workers := s.workers[w := worker]), topic)
  {
    if ArmingWorker(s.workers, topic) {
      OtherWorkersStay(s.workers, w, worker, topic);
    }
  }

  lemma ManagerTakeNotStranded(s: System, topic: string)
    requires s.manager == Waiting && s.channel != [] && NotStranded(s, topic)
    ensures NotStranded(s.(manager := Requested(s.channel[0]), channel := s.channel[1..]), topic)
  {
    assert topic in s.channel ==> topic == s.channel[0] || topic in s.channel[1..];
  }

  lemma NotStrandedKept(cfg: Config, s: System, step: Step, topic: string)
    requires StoreSound(cfg, s.store) && Enabled(cfg, s, step) && NotStranded(s, topic)
    ensures NotStranded(Next(cfg, s, step), topic)
  {
    var s' := Next(cfg, s, step);
    match step
    case Take(w) => WorkerNotStranded(s, w, Holding(s.queue[0]), topic);
    case Process(w, freshId) => ProcessNotStranded(cfg, s, w, freshId, topic);
    case Arm(w) => ArmNotStranded(s, w, topic);
    case RequestFlush(w) =>
      WorkerNotStranded(s, w, Idle, topic);
      RequestNotStranded(s.(workers := s.workers[w := Idle]), s.workers[w].topic, topic);
    case Exit(w) => WorkerNotStranded(s, w, Exited, topic);
    case Fire(timer) => FireNotStranded(s, s', timer, topic);
    case Callback(asked) => CallbackNotStranded(s, asked, topic);
    case ClientFlush(asked) => RequestNotStranded(s, asked, topic);
    case ManagerTake => ManagerTakeNotStranded(s, topic);
    case ManagerDetach => DetachNotStranded(cfg, s, topic);
    case FlushAll(order) => TakenAllStoreSound(cfg, s.store);
    case _ =>
  }

  lemma {:induction false} NotStrandedAlong(cfg: Config, s: System, run: seq<Step>, s': System, topic: string)
    requires Inv(cfg, s) && NotStranded(s, topic) && Leads(cfg, s, run, s')
    ensures NotStranded(s', topic)
    decreases |run|
  {
    if run != [] {
      InvKept(cfg, s, run[0]);
      NotStrandedKept(cfg, s, run[0], topic);
      NotStrandedAlong(cfg, Next(cfg, s, run[0]), run[1..], s', topic);
    }
  }

  // In every reachable state a non-empty batch has an armed timer, a queued or in-hand flush
  // request, a timer callback on its way or a worker about to arm its timer, or else the last
  // flush request for it was dropped.
  lemma NoStrandedBatch(cfg: Config, workers: nat, run: seq<Step>, s: System, topic: string)
    requires Leads(cfg, Initial(workers), run, s) && Current(s.store, topic) != []
    ensures FlushPending(s, topic) || topic in s.lost
  {
    NotStrandedAlong(cfg, Initial(workers), run, s, topic);
  }

  // ---------- dropped requests ----------

  // A topic gets into `lost` only by a request that finds the channel full.
  lemma LostOnlyWhenFull(cfg: Config, s: System, step: Step, topic: string)
    requires Inv(cfg, s) && Enabled(cfg, s, step)
    requires topic !in s.lost && topic in Next(cfg, s, step).lost
    ensures |s.channel| == FLUSH_CAPACITY
    ensures step == Callback(topic) || step == ClientFlush(topic)
            || (step.RequestFlush? && s.workers[step.w] == Requesting(topic))
  {
  }

  // No state of the run, before its last step, has a full channel.
  ghost predicate NeverFull(cfg: Config, s: System, run: seq<Step>)
    decreases |run|
  {
    run != [] && Enabled(cfg, s, run[0]) ==>
      |s.channel| < FLUSH_CAPACITY && NeverFull(cfg, Next(cfg, s, run[0]), run[1..])
  }

  lemma {:induction false} NothingLost(cfg: Config, s: System, run: seq<Step>, s': System)
    requires Inv(cfg, s) && s.lost == {} && Leads(cfg, s, run, s') && NeverFull(cfg, s, run)
    ensures s'.lost == {}
    decreases |run|
  {
    if run != [] {
      var s1 := Next(cfg, s, run[0]);
      InvKept(cfg, s, run[0]);
      forall t | t in s1.lost ensures false {
        LostOnlyWhenFull(cfg, s, run[0], t);
      }
      NothingLost(cfg, s1, run[1..], s');
    }
  }

  ghost predicate LostHasBatch(s: System, topic: string) {
    topic in s.lost ==> Current(s.store, topic) != []
  }

  lemma ProcessLost(cfg: Config, s: System, w: nat, freshId: string, topic: string)
    requires StoreSound(cfg, s.store) && w < |s.workers| && s.workers[w].Holding? && LostHasBatch(s, topic)
    ensures LostHasBatch(NextProcess(cfg, s, w, freshId), topic)
  {
    ProcessCurrent(cfg, s.store, s.workers[w].message, freshId, topic);
  }

  lemma OtherLost(cfg: Config, s: System, step: Step, topic: string)
    requires Enabled(cfg, s, step) && !Moving(step) && LostHasBatch(s, topic)
    ensures LostHasBatch(Next(cfg, s, step), topic)
  {
    QuietStep(cfg, s, step);
  }

  lemma LostHasBatchKept(cfg: Config, s: System, step: Step, topic: string)
    requires StoreSound(cfg, s.store) && Enabled(cfg, s, step) && LostHasBatch(s, topic)
    ensures LostHasBatch(Next(cfg, s, step), topic)
  {
    match step
    case Process(w, freshId) => ProcessLost(cfg, s, w, freshId, topic);
    case ManagerDetach => DetachCurrent(cfg, s.store, s.manager.topic, topic);
    case FlushAll(order) => ListingInStore(s.store, order);
    case _ => OtherLost(cfg, s, step, topic);
  }

  lemma {:induction false} LostHasBatchAlong(cfg: Config, s: System, run: seq<Step>, s': System, topic: string)
    requires Inv(cfg, s) && LostHasBatch(s, topic) && Leads(cfg, s, run, s')
    ensures LostHasBatch(s', topic)
    decreases |run|
  {
    if run != [] {
      InvKept(cfg, s, run[0]);
      LostHasBatchKept(cfg, s, run[0], topic);
      LostHasBatchAlong(cfg, Next(cfg, s, run[0]), run[1..], s', topic);
    }
  }

  // ---------- at rest ----------

  // Nothing is under way: no timer is armed or fired, no request is in hand, none is queued unless
  // the manager is gone, every worker is between requests, and every detached batch has been given
  // to sendBatch.
  ghost predicate Quiescent(s: System) {
    && s.store.armed == map[] && s.firing == multiset{}
    && (s.manager == Gone || (s.manager == Waiting && s.channel == []))
    && (forall w | w in s.workers :: w == Idle || w == Exited)
    && (forall f | f in s.flushers :: f == [])
  }

  lemma {:induction false} NothingUnsent(flushers: seq<seq<BatchValue>>, b: BatchValue)
    requires forall f | f in flushers :: f == []
    ensures Unsent(flushers, b) == 0
  {
    if flushers != [] {
      var init := flushers[..|flushers| - 1];
      assert flushers[|flushers| - 1] in flushers;
      assert forall f | f in init :: f in flushers;
      NothingUnsent(init, b);
    }
  }

  // The manager has gone and left a flush request for the topic in the channel.
  predicate LeftInChannel(s: System, topic: string) {
    s.manager == Gone && topic in s.channel
  }

  // When a run has come to rest, a topic's batch holds messages if a flush request for it was
  // dropped and nothing has made up for that, and else only if a request for it was left behind by
  // the manager. Every accepted message of any other topic has been sent, in order.
  lemma RestMeansDelivered(cfg: Config, workers: nat, run: seq<Step>, s: System, topic: string, b: BatchValue)
    requires Leads(cfg, Initial(workers), run, s) && Quiescent(s)
    ensures topic in s.lost ==> Current(s.store, topic) != []
    ensures Current(s.store, topic) != [] ==> topic in s.lost || LeftInChannel(s, topic)
    ensures Current(s.store, topic) == [] <==> MessagesOf(s.log.detached, topic) == OfTopic(s.log.accepted, topic)
    ensures Count(s.log.dispatched, b) == Count(s.log.detached, b)
  {
    NotStrandedAlong(cfg, Initial(workers), run, s, topic);
    LostHasBatchAlong(cfg, Initial(workers), run, s, topic);
    OrderPreserved(cfg, workers, run, s, topic);
    BatchesSentOnce(cfg, workers, run, s, b);
    NothingUnsent(s.flushers, b);
  }

  // A run whose channel never fills up and that comes to rest has delivered everything, unless the
  // manager left a request for the topic behind.
  lemma NeverFullDelivers(cfg: Config, workers: nat, run: seq<Step>, s: System, topic: string)
    requires Leads(cfg, Initial(workers), run, s) && NeverFull(cfg, Initial(workers), run) && Quiescent(s)
    ensures !LeftInChannel(s, topic) ==>
              Current(s.store, topic) == [] && MessagesOf(s.log.detached, topic) == OfTopic(s.log.accepted, topic)
  {
    NothingLost(cfg, Initial(workers), run, s);
    LostHasBatchAlong(cfg, Initial(workers), run, s, topic);
    NotStrandedAlong(cfg, Initial(workers), run, s, topic);
    OrderPreserved(cfg, workers, run, s, topic);
  }
}
