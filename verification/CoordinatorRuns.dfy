/**
 Interleaved runs of the batch coordinator: submitting clients, workers, the flush manager,
 timers, and callers of FlushTopic, FlushAll and Stop. A step is one locked section, one
 channel operation or one start of sendBatch; the scheduler chooses freely.

 Between the locked add and the timer restart a worker holds no lock, and flushTopicBatch
 and flushAllBatches call sendBatch only after unlocking, so both are steps of their own. A
 client tests whether the coordinator runs before it enqueues its message, and may give up in
 between.
 */
module CoordinatorRuns {
  import opened Batches
  import opened Coordination

  datatype Worker =
    | Idle
    | Holding(message: Message)          // took a request from the queue
    | Arming(topic: string, full: bool)  // added the message, has not restarted the timer
    | Requesting(topic: string)          // has yet to request the flush of a full batch
    | Exited

  datatype Manager =
    | Waiting
    | Requested(topic: string)        // took a flush request, has not locked
    | Dispatching(batch: BatchValue)  // unlocked, has not started sendBatch
    | Gone

  // What happened so far. `detached` lists the batches in the order they left the map to be
  // sent, `dispatched` in the order sendBatch was started for them.
  datatype Log = Log(
    submitted: seq<Message>,
    accepted: seq<Message>,
    rejected: seq<Message>,
    detached: seq<BatchValue>,
    dispatched: seq<BatchValue>)

  datatype System = System(
    store: Store,
    channel: seq<string>,
    clients: seq<Message>,           // AddMessage calls past the running check, not yet enqueued
    queue: seq<Message>,
    workers: seq<Worker>,
    manager: Manager,
    flushers: seq<seq<BatchValue>>,  // batches each caller of flushAllBatches has yet to send
    firing: multiset<string>,        // timer callbacks that have not requested their flush yet
    stopped: bool,
    log: Log,
    lost: set<string>)               // see Request

  datatype Step =
    | Call(message: Message)
    | Submit(c: nat)
    | Withdraw(c: nat)
    | Take(w: nat)
    | Process(w: nat, freshId: string)
    | Arm(w: nat)
    | RequestFlush(w: nat)
    | Exit(w: nat)
    | Fire(timer: nat)
    | Callback(topic: string)
    | ClientFlush(topic: string)
    | ManagerTake
    | ManagerDetach
    | ManagerDispatch
    | ManagerExit
    | FlushAll(order: seq<string>)
    | FlusherDispatch(f: nat)
    | Stop

  function Initial(workers: nat): System {
    System(EMPTY_STORE, [], [], [], seq(workers, i => Idle), Waiting, [], multiset{}, false,
           Log([], [], [], [], []), {})
  }

  // A flush request enters the channel or is dropped. `lost` holds the topics with a non-empty
  // batch whose last request was dropped, until a request is queued, a timer armed, or the
  // batch replaced or detached.
  function Request(s: System, topic: string): System {
    if |s.channel| < FLUSH_CAPACITY then s.(channel := s.channel + [topic], lost := s.lost - {topic})
    else if Current(s.store, topic) != [] then s.(lost := s.lost + {topic})
    else s
  }

  ghost predicate Enabled(cfg: Config, s: System, step: Step) {
    match step
    case Call(_) => !s.stopped
    case Submit(c) => c < |s.clients| && |s.queue| < cfg.queueSize
    case Withdraw(c) => c < |s.clients|
    case Take(w) => w < |s.workers| && s.workers[w] == Idle && s.queue != []
    case Process(w, _) => w < |s.workers| && s.workers[w].Holding?
    case Arm(w) => w < |s.workers| && s.workers[w].Arming?
    case RequestFlush(w) => w < |s.workers| && s.workers[w].Requesting?
    case Exit(w) => w < |s.workers| && s.workers[w] == Idle
    case Fire(timer) => timer in s.store.armed
    case Callback(topic) => topic in s.firing
    case ClientFlush(_) => true
    case ManagerTake => s.manager == Waiting && s.channel != []
    case ManagerDetach => s.manager.Requested?
    case ManagerDispatch => s.manager.Dispatching?
    case ManagerExit => s.manager == Waiting
    case FlushAll(order) => Listing(s.store, order)
    case FlusherDispatch(f) => f < |s.flushers| && s.flushers[f] != []
    case Stop => true
  }

  // A call of AddMessage is over once its message is in the queue: the rest only waits for the
  // response.
  function NextSubmit(s: System, c: nat): System
    requires c < |s.clients|
  {
    s.(clients := s.clients[..c] + s.clients[c + 1..],
       queue := s.queue + [s.clients[c]],
       log := s.log.(submitted := s.log.submitted + [s.clients[c]]))
  }

  ghost function NextProcess(cfg: Config, s: System, w: nat, freshId: string): System
    requires w < |s.workers| && s.workers[w].Holding?
  {
    var m := s.workers[w].message;
    var r := Processed(cfg, s.store, m, freshId);
    var sent := if r.handedOff.Some? then [r.handedOff.value] else [];
    var log := s.log.(detached := s.log.detached + sent, dispatched := s.log.dispatched + sent);
    s.(store := r.store,
       workers := s.workers[w := if r.accepted then Arming(m.topic, r.full) else Idle],
       log := if r.accepted then log.(accepted := log.accepted + [m]) else log.(rejected := log.rejected + [m]),
       lost := if r.handedOff.Some? then s.lost - {m.topic} else s.lost)
  }

  function NextArm(s: System, w: nat): System
    requires w < |s.workers| && s.workers[w].Arming?
  {
    var topic := s.workers[w].topic;
    s.(store := Started(s.store, topic),
       workers := s.workers[w := if s.workers[w].full then Requesting(topic) else Idle],
       lost := s.lost - {topic})
  }

  function NextDetach(s: System): System
    requires s.manager.Requested?
  {
    var topic := s.manager.topic;
    var b := TakenBatch(s.store, topic);
    s.(store := Taken(s.store, topic),
       manager := if b.Some? then Dispatching(b.value) else Waiting,
       log := s.log.(detached := s.log.detached + if b.Some? then [b.value] else []),
       lost := s.lost - {topic})
  }

  function NextFlushAll(s: System, order: seq<string>): System
    requires forall t | t in order :: t in s.store.batches
  {
    var batches := Listed(s.store, order);
    s.(store := TakenAll(s.store),
       flushers := s.flushers + [batches],
       log := s.log.(detached := s.log.detached + batches),
       lost := {})
  }

  lemma ListingInStore(s: Store, order: seq<string>)
    requires Listing(s, order)
    ensures forall t | t in order :: t in s.batches
  {
  }

  ghost function Next(cfg: Config, s: System, step: Step): System
    requires Enabled(cfg, s, step)
  {
    match step
    case Call(m) => s.(clients := s.clients + [m])
    case Submit(c) => NextSubmit(s, c)
    case Withdraw(c) => s.(clients := s.clients[..c] + s.clients[c + 1..])
    case Take(w) => s.(queue := s.queue[1..], workers := s.workers[w := Holding(s.queue[0])])
    case Process(w, freshId) => NextProcess(cfg, s, w, freshId)
    case Arm(w) => NextArm(s, w)
    case RequestFlush(w) => Request(s, s.workers[w].topic).(workers := s.workers[w := Idle])
    case Exit(w) => s.(workers := s.workers[w := Exited])
    case Fire(timer) =>
      s.(store := s.store.(armed := s.store.armed - {timer}), firing := s.firing + multiset{s.store.armed[timer]})
    case Callback(topic) => Request(s, topic).(firing := s.firing - multiset{topic})
    case ClientFlush(topic) => Request(s, topic)
    case ManagerTake => s.(manager := Requested(s.channel[0]), channel := s.channel[1..])
    case ManagerDetach => NextDetach(s)
    case ManagerDispatch => s.(manager := Waiting, log := s.log.(dispatched := s.log.dispatched + [s.manager.batch]))
    case ManagerExit => s.(manager := Gone)
    case FlushAll(order) => ListingInStore(s.store, order); NextFlushAll(s, order)
    case FlusherDispatch(f) =>
      s.(flushers := s.flushers[f := s.flushers[f][1..]],
         log := s.log.(dispatched := s.log.dispatched + [s.flushers[f][0]]))
    case Stop => s.(stopped := true)
  }

  ghost predicate Leads(cfg: Config, s: System, run: seq<Step>, s': System)
    decreases |run|
  {
    if run == [] then s' == s
    else Enabled(cfg, s, run[0]) && Leads(cfg, Next(cfg, s, run[0]), run[1..], s')
  }

  lemma LeadsCons(cfg: Config, s: System, step: Step, rest: seq<Step>, s': System)
    requires Enabled(cfg, s, step) && Leads(cfg, Next(cfg, s, step), rest, s')
    ensures Leads(cfg, s, [step] + rest, s')
  {
    assert ([step] + rest)[1..] == rest;
  }

  lemma {:induction false} LeadsOn(cfg: Config, s: System, run: seq<Step>, s1: System, step: Step)
    requires Leads(cfg, s, run, s1) && Enabled(cfg, s1, step)
    ensures Leads(cfg, s, run + [step], Next(cfg, s1, step))
    decreases |run|
  {
    if run == [] {
      LeadsCons(cfg, s1, step, [], Next(cfg, s1, step));
    } else {
      assert (run + [step])[1..] == run[1..] + [step];
      LeadsOn(cfg, Next(cfg, s, run[0]), run[1..], s1, step);
    }
  }

  // One more step at the end of a run.
  lemma Go(cfg: Config, s0: System, run: seq<Step>, s: System, step: Step) returns (run': seq<Step>, s': System)
    requires Leads(cfg, s0, run, s) && Enabled(cfg, s, step)
    ensures s' == Next(cfg, s, step) && Leads(cfg, s0, run', s')
  {
    LeadsOn(cfg, s0, run, s, step);
    run', s' := run + [step], Next(cfg, s, step);
  }

  // Steps that may change which batches there are, or what they hold.
  predicate Moving(step: Step) {
    step.Process? || step.ManagerDetach? || step.FlushAll?
  }

  lemma RequestOnly(s: System, topic: string)
    ensures Request(s, topic) == s.(channel := Request(s, topic).channel, lost := Request(s, topic).lost)
  {
  }

  lemma QuietStep(cfg: Config, s: System, step: Step)
    requires Enabled(cfg, s, step) && !Moving(step)
    ensures
      var s' := Next(cfg, s, step);
      && s'.store.batches == s.store.batches
      && s'.log == s.log.(submitted := s'.log.submitted, dispatched := s'.log.dispatched)
  {
    match step
    case RequestFlush(w) => RequestOnly(s, s.workers[w].topic);
    case Callback(topic) => RequestOnly(s, topic);
    case ClientFlush(topic) => RequestOnly(s, topic);
    case _ =>
  }

  lemma SilentStep(cfg: Config, s: System, step: Step)
    requires Enabled(cfg, s, step) && !Moving(step) && !step.ManagerDispatch? && !step.FlusherDispatch?
    ensures
      var s' := Next(cfg, s, step);
      && s'.log == s.log.(submitted := s'.log.submitted)
      && s'.flushers == s.flushers
      && (!s.manager.Dispatching? ==> !s'.manager.Dispatching?)
      && (s.manager.Dispatching? ==> s'.manager == s.manager)
  {
    match step
    case RequestFlush(w) => RequestOnly(s, s.workers[w].topic);
    case Callback(topic) => RequestOnly(s, topic);
    case ClientFlush(topic) => RequestOnly(s, topic);
    case _ =>
  }

  lemma LogsGrow(cfg: Config, s: System, step: Step)
    requires Enabled(cfg, s, step)
    ensures
      var s' := Next(cfg, s, step);
      s.log.detached <= s'.log.detached && s.log.dispatched <= s'.log.dispatched
  {
    if step.FlushAll? {
      ListingInStore(s.store, step.order);
    } else if !Moving(step) && !step.ManagerDispatch? && !step.FlusherDispatch? {
      SilentStep(cfg, s, step);
    }
  }

  lemma {:induction false} LogsGrowAlong(cfg: Config, s: System, run: seq<Step>, s': System)
    requires Leads(cfg, s, run, s')
    ensures s.log.detached <= s'.log.detached && s.log.dispatched <= s'.log.dispatched
    decreases |run|
  {
    if run != [] {
      LogsGrow(cfg, s, run[0]);
      LogsGrowAlong(cfg, Next(cfg, s, run[0]), run[1..], s');
    }
  }

  // ---------- every batch is sound ----------

  ghost predicate Inv(cfg: Config, s: System) {
    && StoreSound(cfg, s.store)
    && (forall b | b in s.log.detached :: Sound(b))
    && |s.channel| <= FLUSH_CAPACITY
    && |s.queue| <= cfg.queueSize
  }

  lemma {:induction false} ListedSound(cfg: Config, s: Store, order: seq<string>)
    requires StoreSound(cfg, s) && forall t | t in order :: t in s.batches
    ensures forall b | b in Listed(s, order) :: Sound(b)
  {
    if order != [] {
      assert order[0] in order;
      ListedSound(cfg, s, order[1..]);
    }
  }

  lemma TakenAllStoreSound(cfg: Config, s: Store)
    requires StoreSound(cfg, s)
    ensures StoreSound(cfg, TakenAll(s)) && TakenAll(s).batches == map[]
  {
    TakenAllSound(s);
  }

  lemma FireSound(cfg: Config, s: Store, timer: nat)
    requires StoreSound(cfg, s) && timer in s.armed
    ensures StoreSound(cfg, s.(armed := s.armed - {timer}))
  {
  }

  lemma StoreSoundKept(cfg: Config, s: System, step: Step)
    requires StoreSound(cfg, s.store) && Enabled(cfg, s, step)
    ensures StoreSound(cfg, Next(cfg, s, step).store)
  {
    match step
    case Process(w, freshId) => ProcessedSound(cfg, s.store, s.workers[w].message, freshId);
    case Arm(w) => StartedSound(s.store, s.workers[w].topic);
    case Fire(timer) => FireSound(cfg, s.store, timer);
    case ManagerDetach => TakenSound(cfg, s.store, s.manager.topic);
    case FlushAll(order) => TakenAllStoreSound(cfg, s.store);
    case _ =>
  }

  lemma DetachedSoundKept(cfg: Config, s: System, step: Step)
    requires StoreSound(cfg, s.store) && Enabled(cfg, s, step)
    requires forall b | b in s.log.detached :: Sound(b)
    ensures forall b | b in Next(cfg, s, step).log.detached :: Sound(b)
  {
    match step
    case Process(w, freshId) => ProcessedSound(cfg, s.store, s.workers[w].message, freshId);
    case FlushAll(order) =>
      ListingInStore(s.store, order);
      ListedSound(cfg, s.store, order);
    case _ =>
  }

  lemma InvKept(cfg: Config, s: System, step: Step)
    requires Inv(cfg, s) && Enabled(cfg, s, step)
    ensures Inv(cfg, Next(cfg, s, step))
  {
    StoreSoundKept(cfg, s, step);
    DetachedSoundKept(cfg, s, step);
  }

  // In every reachable state each batch, in the map or handed off, holds messages of its own
  // topic only, counts its bytes exactly and keeps both limits.
  lemma {:induction false} InvAlong(cfg: Config, s: System, run: seq<Step>, s': System)
    requires Inv(cfg, s) && Leads(cfg, s, run, s')
    ensures Inv(cfg, s')
    decreases |run|
  {
    if run != [] {
      InvKept(cfg, s, run[0]);
      InvAlong(cfg, Next(cfg, s, run[0]), run[1..], s');
    }
  }
}
