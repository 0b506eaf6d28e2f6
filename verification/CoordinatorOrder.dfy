/**
 Conservation and order of messages over every interleaving of the batch coordinator.
 */
module CoordinatorOrder {
  import opened Prelude
  import opened Batches
  import opened Coordination
  import opened CoordinatorRuns

  // ---------- per topic, in order ----------

  function OfTopic(messages: seq<Message>, topic: string): seq<Message> {
    if messages == [] then []
    else
      var last := messages[|messages| - 1];
      OfTopic(messages[..|messages| - 1], topic) + (if last.topic == topic then [last] else [])
  }

  function MessagesOf(batches: seq<BatchValue>, topic: string): seq<Message> {
    if batches == [] then []
    else
      var last := batches[|batches| - 1];
      MessagesOf(batches[..|batches| - 1], topic) + (if last.topic == topic then last.messages else [])
  }

  lemma OfTopicAppend(messages: seq<Message>, m: Message, topic: string)
    ensures OfTopic(messages + [m], topic) == OfTopic(messages, topic) + (if m.topic == topic then [m] else [])
  {
    assert (messages + [m])[..|messages|] == messages;
  }

  lemma MessagesOfAppend(batches: seq<BatchValue>, b: BatchValue, topic: string)
    ensures MessagesOf(batches + [b], topic) ==
            MessagesOf(batches, topic) + (if b.topic == topic then b.messages else [])
  {
    assert (batches + [b])[..|batches|] == batches;
  }

  lemma {:induction false} MessagesOfListed(s: Store, order: seq<string>, batches: seq<BatchValue>, topic: string)
    requires forall t | t in order :: t in s.batches && s.batches[t].topic == t
    requires forall i, j | 0 <= i < j < |order| :: order[i] != order[j]
    ensures MessagesOf(batches + Listed(s, order), topic)
            == MessagesOf(batches, topic) + (if topic in order then s.batches[topic].messages else [])
    decreases |order|
  {
    if order == [] {
      assert batches + [] == batches;
    } else {
      var t, rest := order[0], order[1..];
      var b := s.batches[t];
      assert order == [t] + rest && t in order && t !in rest;
      MessagesOfListed(s, rest, batches + [b], topic);
      MessagesOfAppend(batches, b, topic);
      assert batches + Listed(s, order) == batches + [b] + Listed(s, rest);
      assert topic in order <==> topic == t || topic in rest;
    }
  }

  // What left the map for a topic, in that order, and then the current batch, is exactly
  // what was accepted for the topic.
  ghost predicate InOrder(s: System, topic: string) {
    OfTopic(s.log.accepted, topic) == MessagesOf(s.log.detached, topic) + Current(s.store, topic)
  }

  // What processing does to the current batches.
  lemma ProcessCurrent(cfg: Config, s: Store, m: Message, freshId: string, topic: string)
    requires StoreSound(cfg, s)
    ensures
      var r := Processed(cfg, s, m, freshId);
      && (r.handedOff.Some? ==> r.handedOff.value.topic == m.topic && r.handedOff.value.messages == Current(s, m.topic))
      && Current(r.store, topic) ==
           if topic != m.topic then Current(s, topic)
           else (if r.handedOff.Some? then [] else Current(s, topic)) + (if r.accepted then [m] else [])
  {
  }

  lemma Shift<T>(accepted: seq<T>, detached: seq<T>, current: seq<T>, more: seq<T>)
    requires accepted == detached + current
    ensures accepted + more == (detached + current) + ([] + more)
    ensures accepted + more == (detached + []) + (current + more)
    ensures accepted + [] == (detached + []) + current
  {
  }

  // The logs after a message was processed, for any reply that fits ProcessCurrent.
  lemma LogsInOrder(s: System, s': System, m: Message, r: Reply, topic: string)
    requires InOrder(s, topic)
    requires s'.store == r.store
    requires s'.log.accepted == if r.accepted then s.log.accepted + [m] else s.log.accepted
    requires s'.log.detached == if r.handedOff.Some? then s.log.detached + [r.handedOff.value] else s.log.detached
    requires r.handedOff.Some? ==>
               r.handedOff.value.topic == m.topic && r.handedOff.value.messages == Current(s.store, m.topic)
    requires Current(r.store, topic) ==
             if topic != m.topic then Current(s.store, topic)
             else (if r.handedOff.Some? then [] else Current(s.store, topic)) + (if r.accepted then [m] else [])
    ensures InOrder(s', topic)
  {
    var acc, det, cur := OfTopic(s.log.accepted, topic), MessagesOf(s.log.detached, topic), Current(s.store, topic);
    Shift(acc, det, cur, if r.accepted then [m] else []);
    if r.accepted {
      OfTopicAppend(s.log.accepted, m, topic);
    } else {
      assert acc + [] == acc;
    }
    if r.handedOff.Some? {
      MessagesOfAppend(s.log.detached, r.handedOff.value, topic);
    } else {
      assert det + [] == det;
    }
  }

  lemma ProcessInOrder(cfg: Config, s: System, w: nat, freshId: string, topic: string)
    requires StoreSound(cfg, s.store) && w < |s.workers| && s.workers[w].Holding? && InOrder(s, topic)
    ensures InOrder(NextProcess(cfg, s, w, freshId), topic)
  {
    var m := s.workers[w].message;
    var r := Processed(cfg, s.store, m, freshId);
    ProcessCurrent(cfg, s.store, m, freshId, topic);
    assert s.log.detached + [] == s.log.detached;
    LogsInOrder(s, NextProcess(cfg, s, w, freshId), m, r, topic);
  }

  lemma DetachCurrent(cfg: Config, s: Store, taken: string, topic: string)
    requires StoreSound(cfg, s)
    ensures
      var b := TakenBatch(s, taken);
      && (b.Some? ==> b.value.topic == taken && b.value.messages == Current(s, taken))
      && (b.None? ==> Current(s, taken) == [])
      && Current(Taken(s, taken), topic) == if topic == taken then [] else Current(s, topic)
  {
  }

  lemma DetachInOrder(cfg: Config, s: System, topic: string)
    requires StoreSound(cfg, s.store) && s.manager.Requested? && InOrder(s, topic)
    ensures InOrder(NextDetach(s), topic)
  {
    var taken := s.manager.topic;
    var b := TakenBatch(s.store, taken);
    var s' := NextDetach(s);
    DetachCurrent(cfg, s.store, taken, topic);
    assert s'.store == Taken(s.store, taken) && s'.log.accepted == s.log.accepted;
    assert s'.log.detached == if b.Some? then s.log.detached + [b.value] else s.log.detached;
    TakenInOrder(s, s', taken, b, topic);
  }

  lemma TakenInOrder(s: System, s': System, taken: string, b: Option<BatchValue>, topic: string)
    requires InOrder(s, topic) && s'.log.accepted == s.log.accepted
    requires s'.log.detached == if b.Some? then s.log.detached + [b.value] else s.log.detached
    requires if b.Some? then b.value.topic == taken && b.value.messages == Current(s.store, taken)
             else Current(s.store, taken) == []
    requires Current(s'.store, topic) == if topic == taken then [] else Current(s.store, topic)
    ensures InOrder(s', topic)
  {
    if b.Some? {
      MessagesOfAppend(s.log.detached, b.value, topic);
    }
  }

  lemma FlushAllInOrder(cfg: Config, s: System, order: seq<string>, topic: string)
    requires StoreSound(cfg, s.store) && Listing(s.store, order) && InOrder(s, topic)
    ensures forall t | t in order :: t in s.store.batches
    ensures InOrder(NextFlushAll(s, order), topic)
  {
    ListingInStore(s.store, order);
    MessagesOfListed(s.store, order, s.log.detached, topic);
    TakenAllStoreSound(cfg, s.store);
    assert topic in order <==> TakenBatch(s.store, topic).Some?;
    assert Current(s.store, topic) == if topic in order then s.store.batches[topic].messages else [];
  }

  lemma SameInOrder(s: System, s': System, topic: string)
    requires InOrder(s, topic) && s'.store.batches == s.store.batches
    requires s'.log.accepted == s.log.accepted && s'.log.detached == s.log.detached
    ensures InOrder(s', topic)
  {
  }

  lemma InOrderKept(cfg: Config, s: System, step: Step, topic: string)
    requires StoreSound(cfg, s.store) && Enabled(cfg, s, step) && InOrder(s, topic)
    ensures InOrder(Next(cfg, s, step), topic)
  {
    match step
    case Process(w, freshId) => ProcessInOrder(cfg, s, w, freshId, topic);
    case ManagerDetach => DetachInOrder(cfg, s, topic);
    case FlushAll(order) => FlushAllInOrder(cfg, s, order, topic);
    case _ =>
      QuietStep(cfg, s, step);
      SameInOrder(s, Next(cfg, s, step), topic);
  }

  lemma {:induction false} InOrderAlong(cfg: Config, s: System, run: seq<Step>, s': System, topic: string)
    requires Inv(cfg, s) && InOrder(s, topic) && Leads(cfg, s, run, s')
    ensures InOrder(s', topic)
    decreases |run|
  {
    if run != [] {
      InvKept(cfg, s, run[0]);
      InOrderKept(cfg, s, run[0], topic);
      InOrderAlong(cfg, Next(cfg, s, run[0]), run[1..], s', topic);
    }
  }

  // For every interleaving and every topic: no accepted message is lost, duplicated, altered
  // or overtaken by another of its topic on the way out of the map.
  lemma OrderPreserved(cfg: Config, workers: nat, run: seq<Step>, s: System, topic: string)
    requires Leads(cfg, Initial(workers), run, s)
    ensures OfTopic(s.log.accepted, topic) == MessagesOf(s.log.detached, topic) + Current(s.store, topic)
    ensures forall b | b in s.log.detached :: Sound(b)
    ensures StoreSound(cfg, s.store)
  {
    InvAlong(cfg, Initial(workers), run, s);
    InOrderAlong(cfg, Initial(workers), run, s, topic);
  }

  // ---------- every submitted message is in exactly one place ----------

  function HeldBy(w: Worker, m: Message): nat {
    if w == Holding(m) then 1 else 0
  }

  // How many workers hold a request for m.
  function Held(workers: seq<Worker>, m: Message): nat {
    if workers == [] then 0 else Held(workers[..|workers| - 1], m) + HeldBy(workers[|workers| - 1], m)
  }

  lemma {:induction false} HeldUpdate(workers: seq<Worker>, i: nat, w: Worker, m: Message)
    requires i < |workers|
    ensures Held(workers[i := w], m) + HeldBy(workers[i], m) == Held(workers, m) + HeldBy(w, m)
  {
    var n := |workers| - 1;
    if i == n {
      assert workers[i := w][..n] == workers[..n];
    } else {
      assert workers[i := w][..n] == workers[..n][i := w];
      HeldUpdate(workers[..n], i, w, m);
    }
  }

  lemma {:induction false} HeldNone(workers: seq<Worker>, m: Message)
    requires forall w | w in workers :: !w.Holding?
    ensures Held(workers, m) == 0
  {
    if workers != [] {
      assert workers[|workers| - 1] in workers;
      HeldNone(workers[..|workers| - 1], m);
    }
  }

  function Count<T(==)>(xs: seq<T>, x: T): nat {
    multiset(xs)[x]
  }

  lemma CountAppend<T>(xs: seq<T>, y: T, x: T)
    ensures Count(xs + [y], x) == Count(xs, x) + (if y == x then 1 else 0)
  {
  }

  lemma CountTail<T>(xs: seq<T>, x: T)
    requires xs != []
    ensures Count(xs, x) == Count(xs[1..], x) + (if xs[0] == x then 1 else 0)
  {
    assert xs == [xs[0]] + xs[1..];
  }

  ghost predicate Placed(s: System, m: Message) {
    Count(s.log.submitted, m) ==
    Count(s.queue, m) + Held(s.workers, m) + Count(s.log.rejected, m) + Count(s.log.accepted, m)
  }

  lemma TakePlaced(s: System, w: nat, m: Message)
    requires w < |s.workers| && s.workers[w] == Idle && s.queue != [] && Placed(s, m)
    ensures Placed(s.(queue := s.queue[1..], workers := s.workers[w := Holding(s.queue[0])]), m)
  {
    HeldUpdate(s.workers, w, Holding(s.queue[0]), m);
    CountTail(s.queue, m);
  }

  lemma SubmitPlaced(s: System, c: nat, m: Message)
    requires c < |s.clients| && Placed(s, m)
    ensures Placed(NextSubmit(s, c), m)
  {
    CountAppend(s.queue, s.clients[c], m);
    CountAppend(s.log.submitted, s.clients[c], m);
  }

  // A worker that holds no request moves on without taking one.
  lemma WorkerPlaced(s: System, s': System, w: nat, worker: Worker, m: Message)
    requires w < |s.workers| && !s.workers[w].Holding? && !worker.Holding? && Placed(s, m)
    requires s'.queue == s.queue && s'.log == s.log && s'.workers == s.workers[w := worker]
    ensures Placed(s', m)
  {
    HeldUpdate(s.workers, w, worker, m);
  }

  lemma TakenPlaced(cfg: Config, s: System, w: nat, m: Message)
    requires Enabled(cfg, s, Take(w)) && Placed(s, m)
    ensures Placed(Next(cfg, s, Take(w)), m)
  {
    TakePlaced(s, w, m);
  }

  // Arming a timer, requesting a flush and exiting concern no request.
  lemma MovedPlaced(cfg: Config, s: System, step: Step, m: Message)
    requires Enabled(cfg, s, step) && (step.Arm? || step.RequestFlush? || step.Exit?) && Placed(s, m)
    ensures Placed(Next(cfg, s, step), m)
  {
    var s' := Next(cfg, s, step);
    WorkerPlaced(s, s', step.w, s'.workers[step.w], m);
  }

  lemma OtherPlaced(cfg: Config, s: System, step: Step, m: Message)
    requires Enabled(cfg, s, step) && Placed(s, m)
    requires !step.Submit? && !step.Take? && !step.Process? && !step.Arm? && !step.RequestFlush? && !step.Exit?
    ensures Placed(Next(cfg, s, step), m)
  {
    if step.FlushAll? {
      ListingInStore(s.store, step.order);
    }
  }

  lemma PlacedKept(cfg: Config, s: System, step: Step, m: Message)
    requires Enabled(cfg, s, step) && Placed(s, m)
    ensures Placed(Next(cfg, s, step), m)
  {
    match step
    case Submit(c) => SubmitPlaced(s, c, m);
    case Take(w) => TakenPlaced(cfg, s, w, m);
    case Process(w, freshId) => ProcessPlaced(cfg, s, w, freshId, m);
    case Arm(_) => MovedPlaced(cfg, s, step, m);
    case RequestFlush(_) => MovedPlaced(cfg, s, step, m);
    case Exit(_) => MovedPlaced(cfg, s, step, m);
    case _ => OtherPlaced(cfg, s, step, m);
  }

  lemma ProcessPlaced(cfg: Config, s: System, w: nat, freshId: string, m: Message)
    requires w < |s.workers| && s.workers[w].Holding? && Placed(s, m)
    ensures Placed(NextProcess(cfg, s, w, freshId), m)
  {
    var x := s.workers[w].message;
    var r := Processed(cfg, s.store, x, freshId);
    HeldUpdate(s.workers, w, if r.accepted then Arming(x.topic, r.full) else Idle, m);
    CountAppend(s.log.accepted, x, m);
    CountAppend(s.log.rejected, x, m);
  }

  lemma {:induction false} PlacedAlong(cfg: Config, s: System, run: seq<Step>, s': System, m: Message)
    requires Placed(s, m) && Leads(cfg, s, run, s')
    ensures Placed(s', m)
    decreases |run|
  {
    if run != [] {
      PlacedKept(cfg, s, run[0], m);
      PlacedAlong(cfg, Next(cfg, s, run[0]), run[1..], s', m);
    }
  }

  lemma {:induction false} OfTopicCount(messages: seq<Message>, m: Message)
    ensures Count(OfTopic(messages, m.topic), m) == Count(messages, m)
  {
    if messages != [] {
      var init, last := messages[..|messages| - 1], messages[|messages| - 1];
      assert messages == init + [last];
      CountAppend(init, last, m);
      CountAppend(OfTopic(init, m.topic), last, m);
      OfTopicCount(init, m);
    }
  }

  // Whatever the interleaving, each submission of a message is in the queue, in a worker's
  // hands, refused, in a handed-off batch of its topic or in the topic's current batch, and in
  // only one of these.
  lemma EveryMessageInOnePlace(cfg: Config, workers: nat, run: seq<Step>, s: System, m: Message)
    requires Leads(cfg, Initial(workers), run, s)
    ensures Count(s.log.submitted, m) ==
            Count(s.queue, m) + Held(s.workers, m) + Count(s.log.rejected, m)
            + Count(MessagesOf(s.log.detached, m.topic), m) + Count(Current(s.store, m.topic), m)
  {
    HeldNone(Initial(workers).workers, m);
    PlacedAlong(cfg, Initial(workers), run, s, m);
    OrderPreserved(cfg, workers, run, s, m.topic);
    OfTopicCount(s.log.accepted, m);
  }

  // ---------- every detached batch is sent once ----------

  // How often b is among the batches that callers of flushAllBatches have yet to send.
  function Unsent(flushers: seq<seq<BatchValue>>, b: BatchValue): nat {
    if flushers == [] then 0
    else Unsent(flushers[..|flushers| - 1], b) + Count(flushers[|flushers| - 1], b)
  }

  function InHand(manager: Manager, b: BatchValue): nat {
    if manager == Dispatching(b) then 1 else 0
  }

  lemma {:induction false} UnsentUpdate(flushers: seq<seq<BatchValue>>, i: nat, rest: seq<BatchValue>, b: BatchValue)
    requires i < |flushers|
    ensures Unsent(flushers[i := rest], b) + Count(flushers[i], b) == Unsent(flushers, b) + Count(rest, b)
  {
    var n := |flushers| - 1;
    if i == n {
      assert flushers[i := rest][..n] == flushers[..n];
    } else {
      assert flushers[i := rest][..n] == flushers[..n][i := rest];
      UnsentUpdate(flushers[..n], i, rest, b);
    }
  }

  lemma FlushersGrow(flushers: seq<seq<BatchValue>>, batches: seq<BatchValue>, b: BatchValue)
    ensures Unsent(flushers + [batches], b) == Unsent(flushers, b) + Count(batches, b)
  {
    assert (flushers + [batches])[..|flushers|] == flushers;
  }

  ghost predicate SentOnce(s: System, b: BatchValue) {
    Count(s.log.detached, b) == Count(s.log.dispatched, b) + InHand(s.manager, b) + Unsent(s.flushers, b)
  }

  lemma CountConcat<T>(xs: seq<T>, ys: seq<T>, x: T)
    ensures Count(xs + ys, x) == Count(xs, x) + Count(ys, x)
  {
  }

  lemma ProcessSentOnce(cfg: Config, s: System, w: nat, freshId: string, b: BatchValue)
    requires w < |s.workers| && s.workers[w].Holding? && SentOnce(s, b)
    ensures SentOnce(NextProcess(cfg, s, w, freshId), b)
  {
    var r := Processed(cfg, s.store, s.workers[w].message, freshId);
    var sent := if r.handedOff.Some? then [r.handedOff.value] else [];
    CountConcat(s.log.detached, sent, b);
    CountConcat(s.log.dispatched, sent, b);
  }

  lemma DetachSentOnce(s: System, b: BatchValue)
    requires s.manager.Requested? && SentOnce(s, b)
    ensures SentOnce(NextDetach(s), b)
  {
    var taken := TakenBatch(s.store, s.manager.topic);
    CountConcat(s.log.detached, if taken.Some? then [taken.value] else [], b);
    assert taken.Some? ==> Count([taken.value], b) == InHand(Dispatching(taken.value), b);
  }

  lemma FlushAllSentOnce(s: System, order: seq<string>, b: BatchValue)
    requires SentOnce(s, b) && forall t | t in order :: t in s.store.batches
    ensures SentOnce(NextFlushAll(s, order), b)
  {
    FlushersGrow(s.flushers, Listed(s.store, order), b);
    CountConcat(s.log.detached, Listed(s.store, order), b);
  }

  lemma FlusherSentOnce(s: System, f: nat, b: BatchValue)
    requires f < |s.flushers| && s.flushers[f] != [] && SentOnce(s, b)
    ensures
      var dispatched := s.log.dispatched + [s.flushers[f][0]];
      SentOnce(s.(flushers := s.flushers[f := s.flushers[f][1..]], log := s.log.(dispatched := dispatched)), b)
  {
    UnsentUpdate(s.flushers, f, s.flushers[f][1..], b);
    CountTail(s.flushers[f], b);
    CountAppend(s.log.dispatched, s.flushers[f][0], b);
  }

  lemma DispatchSentOnce(s: System, b: BatchValue)
    requires s.manager.Dispatching? && SentOnce(s, b)
    ensures SentOnce(s.(manager := Waiting, log := s.log.(dispatched := s.log.dispatched + [s.manager.batch])), b)
  {
    CountAppend(s.log.dispatched, s.manager.batch, b);
  }

  lemma OtherSentOnce(cfg: Config, s: System, step: Step, b: BatchValue)
    requires Enabled(cfg, s, step) && SentOnce(s, b)
    requires !Moving(step) && !step.ManagerDispatch? && !step.FlusherDispatch?
    ensures SentOnce(Next(cfg, s, step), b)
  {
    SilentStep(cfg, s, step);
  }

  lemma SentOnceKept(cfg: Config, s: System, step: Step, b: BatchValue)
    requires Enabled(cfg, s, step) && SentOnce(s, b)
    ensures SentOnce(Next(cfg, s, step), b)
  {
    match step
    case Process(w, freshId) => ProcessSentOnce(cfg, s, w, freshId, b);
    case ManagerDetach => DetachSentOnce(s, b);
    case ManagerDispatch => DispatchSentOnce(s, b);
    case FlushAll(order) =>
      ListingInStore(s.store, order);
      FlushAllSentOnce(s, order, b);
    case FlusherDispatch(f) => FlusherSentOnce(s, f, b);
    case _ => OtherSentOnce(cfg, s, step, b);
  }

  lemma {:induction false} SentOnceAlong(cfg: Config, s: System, run: seq<Step>, s': System, b: BatchValue)
    requires SentOnce(s, b) && Leads(cfg, s, run, s')
    ensures SentOnce(s', b)
    decreases |run|
  {
    if run != [] {
      SentOnceKept(cfg, s, run[0], b);
      SentOnceAlong(cfg, Next(cfg, s, run[0]), run[1..], s', b);
    }
  }

  // sendBatch is started exactly once for every batch that left the map to be sent, apart
  // from those the flush manager or a caller of flushAllBatches is still holding.
  lemma BatchesSentOnce(cfg: Config, workers: nat, run: seq<Step>, s: System, b: BatchValue)
    requires Leads(cfg, Initial(workers), run, s)
    ensures Count(s.log.detached, b) == Count(s.log.dispatched, b) + InHand(s.manager, b) + Unsent(s.flushers, b)
  {
    SentOnceAlong(cfg, Initial(workers), run, s, b);
  }
}
