/**
 When the order of dispatch is the order of hand-off. Batches that the flush manager or a caller
 of flushAllBatches has taken out of the map, but not yet given to sendBatch, are waiting. As long
 as a topic's batches leave the map only while none of them is waiting, they are dispatched in
 order; a batch that leaves while another is waiting can be dispatched before it.
 */
module CoordinatorDispatch {
  import opened Prelude
  import opened Batches
  import opened Coordination
  import opened CoordinatorRuns

  // The topic's batches, in order.
  function BatchesIn(batches: seq<BatchValue>, topic: string): seq<BatchValue> {
    if batches == [] then []
    else
      var last := batches[|batches| - 1];
      BatchesIn(batches[..|batches| - 1], topic) + (if last.topic == topic then [last] else [])
  }

  function WithManager(manager: Manager, topic: string): seq<BatchValue> {
    if manager.Dispatching? && manager.batch.topic == topic then [manager.batch] else []
  }

  function WithFlushers(flushers: seq<seq<BatchValue>>, topic: string): seq<BatchValue> {
    if flushers == [] then []
    else WithFlushers(flushers[..|flushers| - 1], topic) + BatchesIn(flushers[|flushers| - 1], topic)
  }

  function Undispatched(s: System, topic: string): seq<BatchValue> {
    WithManager(s.manager, topic) + WithFlushers(s.flushers, topic)
  }

  ghost predicate Ordered(s: System, topic: string) {
    && BatchesIn(s.log.detached, topic) == BatchesIn(s.log.dispatched, topic) + Undispatched(s, topic)
    && |Undispatched(s, topic)| <= 1
  }

  // The step takes a batch of the topic out of the map to be sent.
  ghost predicate Detaches(cfg: Config, s: System, step: Step, topic: string)
    requires Enabled(cfg, s, step)
  {
    match step
    case Process(w, freshId) =>
      var m := s.workers[w].message;
      m.topic == topic && Processed(cfg, s.store, m, freshId).handedOff.Some?
    case ManagerDetach => s.manager.topic == topic && TakenBatch(s.store, topic).Some?
    case FlushAll(order) => topic in order
    case _ => false
  }

  // Along the run the topic's batches leave the map only while none is waiting.
  ghost predicate Orderly(cfg: Config, s: System, run: seq<Step>, topic: string)
    decreases |run|
  {
    run != [] && Enabled(cfg, s, run[0]) ==>
      && (Detaches(cfg, s, run[0], topic) ==> Undispatched(s, topic) == [])
      && Orderly(cfg, Next(cfg, s, run[0]), run[1..], topic)
  }

  // ---------- filtering ----------

  lemma BatchesInAppend(batches: seq<BatchValue>, b: BatchValue, topic: string)
    ensures BatchesIn(batches + [b], topic) == BatchesIn(batches, topic) + (if b.topic == topic then [b] else [])
  {
    assert (batches + [b])[..|batches|] == batches;
  }

  lemma {:induction false} BatchesInConcat(xs: seq<BatchValue>, ys: seq<BatchValue>, topic: string)
    ensures BatchesIn(xs + ys, topic) == BatchesIn(xs, topic) + BatchesIn(ys, topic)
  {
    if ys == [] {
      assert xs + ys == xs;
    } else {
      var init, last := ys[..|ys| - 1], ys[|ys| - 1];
      BatchesInConcat(xs, init, topic);
      assert xs + ys == (xs + init) + [last];
      BatchesInAppend(xs + init, last, topic);
    }
  }

  lemma BatchesInOne(b: BatchValue, topic: string)
    ensures BatchesIn([b], topic) == if b.topic == topic then [b] else []
  {
    assert [b][..0] == [];
  }

  lemma BatchesInTail(batches: seq<BatchValue>, topic: string)
    requires batches != []
    ensures
      var rest := BatchesIn(batches[1..], topic);
      BatchesIn(batches, topic) == if batches[0].topic == topic then [batches[0]] + rest else rest
  {
    assert batches == [batches[0]] + batches[1..];
    BatchesInConcat([batches[0]], batches[1..], topic);
    BatchesInOne(batches[0], topic);
  }

  lemma {:induction false} BatchesInListed(s: Store, order: seq<string>, topic: string)
    requires forall t | t in order :: t in s.batches && s.batches[t].topic == t
    requires forall i, j | 0 <= i < j < |order| :: order[i] != order[j]
    ensures BatchesIn(Listed(s, order), topic) == if topic in order then [s.batches[topic]] else []
  {
    if order != [] {
      var t, rest := order[0], order[1..];
      assert order == [t] + rest && t in order && t !in rest;
      BatchesInListed(s, rest, topic);
      BatchesInTail(Listed(s, order), topic);
      assert Listed(s, order)[1..] == Listed(s, rest);
    }
  }

  lemma WithFlushersAppend(flushers: seq<seq<BatchValue>>, batches: seq<BatchValue>, topic: string)
    ensures WithFlushers(flushers + [batches], topic) == WithFlushers(flushers, topic) + BatchesIn(batches, topic)
  {
    assert (flushers + [batches])[..|flushers|] == flushers;
  }

  // `held'` is what is left of `held` without b, which is one of it if `mine`.
  predicate Less<T(==)>(held: seq<T>, held': seq<T>, b: T, mine: bool) {
    if mine then |held| >= 1 && |held'| == |held| - 1 && (|held| == 1 ==> held == [b])
    else held' == held
  }

  lemma LessAfter<T>(before: seq<T>, rest: seq<T>, b: T, mine: bool)
    ensures Less(before + (if mine then [b] + rest else rest), before + rest, b, mine)
  {
  }

  lemma LessBefore<T>(held: seq<T>, held': seq<T>, after: seq<T>, b: T, mine: bool)
    requires Less(held, held', b, mine)
    ensures Less(held + after, held' + after, b, mine)
  {
  }

  // A flusher dispatches its first batch: if that is one of the topic, one fewer is waiting.
  lemma {:induction false} WithFlushersTail(flushers: seq<seq<BatchValue>>, f: nat, topic: string)
    requires f < |flushers| && flushers[f] != []
    ensures Less(WithFlushers(flushers, topic), WithFlushers(flushers[f := flushers[f][1..]], topic),
                 flushers[f][0], flushers[f][0].topic == topic)
  {
    var n := |flushers| - 1;
    var flushers', b := flushers[f := flushers[f][1..]], flushers[f][0];
    assert WithFlushers(flushers', topic) == WithFlushers(flushers'[..n], topic) + BatchesIn(flushers'[n], topic);
    if f == n {
      assert flushers'[..n] == flushers[..n];
      BatchesInTail(flushers[f], topic);
      LessAfter(WithFlushers(flushers[..n], topic), BatchesIn(flushers[f][1..], topic), b, b.topic == topic);
    } else {
      assert flushers'[..n] == flushers[..n][f := flushers[f][1..]];
      WithFlushersTail(flushers[..n], f, topic);
      LessBefore(WithFlushers(flushers[..n], topic), WithFlushers(flushers'[..n], topic),
                 BatchesIn(flushers[n], topic), b, b.topic == topic);
    }
  }

  // The logs and the waiting batches when batches leave the map, and when one is dispatched.
  lemma Leaves<T>(detached: seq<T>, dispatched: seq<T>, m: seq<T>, f: seq<T>, more: seq<T>)
    requires detached == dispatched + (m + f) && |m + f| <= 1 && |more| <= 1 && (more != [] ==> m + f == [])
    ensures detached + more == dispatched + (m + (f + more)) && |m + (f + more)| <= 1
  {
  }

  lemma LeavesAtOnce<T>(detached: seq<T>, dispatched: seq<T>, waiting: seq<T>, more: seq<T>)
    requires detached == dispatched + waiting && (more != [] ==> waiting == [])
    ensures detached + more == (dispatched + more) + waiting
  {
  }

  lemma LeavesToManager<T>(detached: seq<T>, dispatched: seq<T>, m: seq<T>, f: seq<T>, more: seq<T>)
    requires detached == dispatched + (m + f) && |m + f| <= 1 && |more| <= 1 && m == [] && (more != [] ==> f == [])
    ensures detached + more == dispatched + (more + f) && |more + f| <= 1
  {
  }

  lemma Goes<T>(detached: seq<T>, dispatched: seq<T>, m: seq<T>, f: seq<T>, f': seq<T>, b: T, mine: bool)
    requires detached == dispatched + (m + f) && |m + f| <= 1 && Less(f, f', b, mine)
    ensures detached == (dispatched + if mine then [b] else []) + (m + f') && |m + f'| <= 1
  {
  }

  // ---------- every step ----------

  lemma BatchesInMore(batches: seq<BatchValue>, more: Option<BatchValue>, topic: string)
    ensures BatchesIn(batches + (if more.Some? then [more.value] else []), topic)
            == BatchesIn(batches, topic) + (if more.Some? && more.value.topic == topic then [more.value] else [])
  {
    if more.Some? {
      BatchesInConcat(batches, [more.value], topic);
      BatchesInOne(more.value, topic);
    } else {
      assert batches + [] == batches && BatchesIn(batches, topic) + [] == BatchesIn(batches, topic);
    }
  }

  // What leaves the map is dispatched at once.
  lemma SentOrdered(s: System, s1: System, sent: seq<BatchValue>, topic: string)
    requires Ordered(s, topic) && s1.manager == s.manager && s1.flushers == s.flushers
    requires s1.log.detached == s.log.detached + sent && s1.log.dispatched == s.log.dispatched + sent
    requires BatchesIn(sent, topic) != [] ==> Undispatched(s, topic) == []
    ensures Ordered(s1, topic)
  {
    BatchesInConcat(s.log.detached, sent, topic);
    BatchesInConcat(s.log.dispatched, sent, topic);
    LeavesAtOnce(BatchesIn(s.log.detached, topic), BatchesIn(s.log.dispatched, topic), Undispatched(s, topic),
                 BatchesIn(sent, topic));
  }

  lemma ProcessOrdered(cfg: Config, s: System, w: nat, freshId: string, topic: string)
    requires StoreSound(cfg, s.store) && Enabled(cfg, s, Process(w, freshId)) && Ordered(s, topic)
    requires Detaches(cfg, s, Process(w, freshId), topic) ==> Undispatched(s, topic) == []
    ensures Ordered(NextProcess(cfg, s, w, freshId), topic)
  {
    var b := Processed(cfg, s.store, s.workers[w].message, freshId).handedOff;
    assert b.Some? ==> b.value.topic == s.workers[w].message.topic;
    if b.Some? {
      BatchesInOne(b.value, topic);
    }
    SentOrdered(s, NextProcess(cfg, s, w, freshId), if b.Some? then [b.value] else [], topic);
  }

  lemma DetachOrdered(cfg: Config, s: System, topic: string)
    requires StoreSound(cfg, s.store) && s.manager.Requested? && Ordered(s, topic)
    requires Detaches(cfg, s, ManagerDetach, topic) ==> Undispatched(s, topic) == []
    ensures Ordered(NextDetach(s), topic)
  {
    var b, s1 := TakenBatch(s.store, s.manager.topic), NextDetach(s);
    var more := if b.Some? && b.value.topic == topic then [b.value] else [];
    BatchesInMore(s.log.detached, b, topic);
    assert s1.log.detached == s.log.detached + (if b.Some? then [b.value] else []);
    assert WithManager(s.manager, topic) == [] && WithManager(s1.manager, topic) == more;
    LeavesToManager(BatchesIn(s.log.detached, topic), BatchesIn(s.log.dispatched, topic),
                    [], WithFlushers(s.flushers, topic), more);
  }

  lemma ManagerDispatchOrdered(s: System, topic: string)
    requires s.manager.Dispatching? && Ordered(s, topic)
    ensures Ordered(s.(manager := Waiting, log := s.log.(dispatched := s.log.dispatched + [s.manager.batch])), topic)
  {
    BatchesInConcat(s.log.dispatched, [s.manager.batch], topic);
    BatchesInOne(s.manager.batch, topic);
  }

  lemma FlushAllOrdered(cfg: Config, s: System, order: seq<string>, topic: string)
    requires StoreSound(cfg, s.store) && Listing(s.store, order) && Ordered(s, topic)
    requires topic in order ==> Undispatched(s, topic) == []
    ensures forall t | t in order :: t in s.store.batches
    ensures Ordered(NextFlushAll(s, order), topic)
  {
    ListingInStore(s.store, order);
    var batches := Listed(s.store, order);
    BatchesInConcat(s.log.detached, batches, topic);
    BatchesInListed(s.store, order, topic);
    WithFlushersAppend(s.flushers, batches, topic);
    Leaves(BatchesIn(s.log.detached, topic), BatchesIn(s.log.dispatched, topic),
           WithManager(s.manager, topic), WithFlushers(s.flushers, topic), BatchesIn(batches, topic));
  }

  lemma FlusherOrdered(s: System, f: nat, topic: string)
    requires f < |s.flushers| && s.flushers[f] != [] && Ordered(s, topic)
    ensures
      var dispatched := s.log.dispatched + [s.flushers[f][0]];
      Ordered(s.(flushers := s.flushers[f := s.flushers[f][1..]], log := s.log.(dispatched := dispatched)), topic)
  {
    var b, flushers' := s.flushers[f][0], s.flushers[f := s.flushers[f][1..]];
    WithFlushersTail(s.flushers, f, topic);
    BatchesInConcat(s.log.dispatched, [b], topic);
    BatchesInOne(b, topic);
    Goes(BatchesIn(s.log.detached, topic), BatchesIn(s.log.dispatched, topic), WithManager(s.manager, topic),
         WithFlushers(s.flushers, topic), WithFlushers(flushers', topic), b, b.topic == topic);
  }

  lemma SilentOrdered(cfg: Config, s: System, step: Step, topic: string)
    requires Enabled(cfg, s, step) && Ordered(s, topic)
    requires !Moving(step) && !step.ManagerDispatch? && !step.FlusherDispatch?
    ensures Ordered(Next(cfg, s, step), topic)
  {
    SilentStep(cfg, s, step);
  }

  lemma OrderedKept(cfg: Config, s: System, step: Step, topic: string)
    requires StoreSound(cfg, s.store) && Enabled(cfg, s, step) && Ordered(s, topic)
    requires Detaches(cfg, s, step, topic) ==> Undispatched(s, topic) == []
    ensures Ordered(Next(cfg, s, step), topic)
  {
    match step
    case Process(w, freshId) => ProcessOrdered(cfg, s, w, freshId, topic);
    case ManagerDetach => DetachOrdered(cfg, s, topic);
    case ManagerDispatch => ManagerDispatchOrdered(s, topic);
    case FlushAll(order) => FlushAllOrdered(cfg, s, order, topic);
    case FlusherDispatch(f) => FlusherOrdered(s, f, topic);
    case _ => SilentOrdered(cfg, s, step, topic);
  }

  lemma {:induction false} OrderedAlong(cfg: Config, s: System, run: seq<Step>, s': System, topic: string)
    requires Inv(cfg, s) && Ordered(s, topic) && Leads(cfg, s, run, s') && Orderly(cfg, s, run, topic)
    ensures Ordered(s', topic)
    decreases |run|
  {
    if run != [] {
      InvKept(cfg, s, run[0]);
      OrderedKept(cfg, s, run[0], topic);
      OrderedAlong(cfg, Next(cfg, s, run[0]), run[1..], s', topic);
    }
  }

  // If a topic's batches leave the map only while none of them is waiting, they are dispatched in
  // the order in which they left, and at most one is ever waiting.
  lemma DispatchInOrder(cfg: Config, workers: nat, run: seq<Step>, s: System, topic: string)
    requires Leads(cfg, Initial(workers), run, s) && Orderly(cfg, Initial(workers), run, topic)
    ensures BatchesIn(s.log.detached, topic) == BatchesIn(s.log.dispatched, topic) + Undispatched(s, topic)
    ensures |Undispatched(s, topic)| <= 1
  {
    OrderedAlong(cfg, Initial(workers), run, s, topic);
  }

  // ---------- the converse ----------

  // The topic's k-th dispatched batch is not the k-th that left the map.
  ghost predicate OvertakenAt(s: System, topic: string, k: nat) {
    var detached, dispatched := BatchesIn(s.log.detached, topic), BatchesIn(s.log.dispatched, topic);
    k < |detached| && k < |dispatched| && dispatched[k] != detached[k]
  }

  lemma BatchesInPrefix(xs: seq<BatchValue>, ys: seq<BatchValue>, topic: string)
    requires xs <= ys
    ensures BatchesIn(xs, topic) <= BatchesIn(ys, topic)
  {
    assert ys == xs + ys[|xs|..];
    BatchesInConcat(xs, ys[|xs|..], topic);
  }

  // Nothing puts the order right again.
  lemma OvertakenForGood(cfg: Config, s: System, run: seq<Step>, s': System, topic: string, k: nat)
    requires OvertakenAt(s, topic, k) && Leads(cfg, s, run, s')
    ensures OvertakenAt(s', topic, k)
  {
    LogsGrowAlong(cfg, s, run, s');
    BatchesInPrefix(s.log.detached, s'.log.detached, topic);
    BatchesInPrefix(s.log.dispatched, s'.log.dispatched, topic);
  }

  // The logs of a state where b2 was dispatched while b1, which left before it, was waiting.
  lemma Overtakes(s: System, topic: string, before: seq<BatchValue>, b1: BatchValue, b2: BatchValue)
    requires BatchesIn(s.log.dispatched, topic) == before + [b2] && b1 != b2
    requires BatchesIn(s.log.detached, topic) == before + [b1] + [b2]
    ensures OvertakenAt(s, topic, |before|)
  {
    assert (before + [b2])[|before|] == b2 && (before + [b1] + [b2])[|before|] == b1;
  }

  // A worker that replaces a batch dispatches it at once, ahead of the waiting one.
  lemma ProcessOvertakes(cfg: Config, s: System, w: nat, freshId: string, topic: string, b1: BatchValue)
    requires StoreSound(cfg, s.store) && Enabled(cfg, s, Process(w, freshId)) && Ordered(s, topic)
    requires Detaches(cfg, s, Process(w, freshId), topic) && Undispatched(s, topic) == [b1]
    requires s.store.batches[topic] != b1
    ensures OvertakenAt(NextProcess(cfg, s, w, freshId), topic, |BatchesIn(s.log.dispatched, topic)|)
  {
    var b2 := s.store.batches[topic];
    BatchesInConcat(s.log.detached, [b2], topic);
    BatchesInConcat(s.log.dispatched, [b2], topic);
    BatchesInOne(b2, topic);
    Overtakes(NextProcess(cfg, s, w, freshId), topic, BatchesIn(s.log.dispatched, topic), b1, b2);
  }

  // The manager takes a batch while a flusher holds an earlier one, and dispatches it first.
  lemma DetachOvertakes(cfg: Config, s: System, topic: string, b1: BatchValue) returns (run: seq<Step>, s': System)
    requires StoreSound(cfg, s.store) && s.manager.Requested? && Ordered(s, topic)
    requires Detaches(cfg, s, ManagerDetach, topic) && Undispatched(s, topic) == [b1] && s.store.batches[topic] != b1
    ensures Leads(cfg, NextDetach(s), run, s')
    ensures OvertakenAt(s', topic, |BatchesIn(s.log.dispatched, topic)|)
  {
    var b2, s1 := s.store.batches[topic], NextDetach(s);
    run, s' := [ManagerDispatch], Next(cfg, s1, ManagerDispatch);
    assert Leads(cfg, s', [], s');
    LeadsCons(cfg, s1, ManagerDispatch, [], s');
    assert [ManagerDispatch] + [] == run;
    BatchesInConcat(s.log.detached, [b2], topic);
    BatchesInConcat(s.log.dispatched, [b2], topic);
    BatchesInOne(b2, topic);
    Overtakes(s', topic, BatchesIn(s.log.dispatched, topic), b1, b2);
  }

  lemma FlusherGoesOn(cfg: Config, s: System, f: nat, topic: string, b: BatchValue)
    requires f < |s.flushers| && BatchesIn(s.flushers[f], topic) == [b]
    ensures Enabled(cfg, s, FlusherDispatch(f))
    ensures
      var s1 := Next(cfg, s, FlusherDispatch(f));
      && s1.log.detached == s.log.detached && |s1.flushers| == |s.flushers| && |s1.flushers[f]| < |s.flushers[f]|
      && if s.flushers[f][0].topic == topic then
           BatchesIn(s1.log.dispatched, topic) == BatchesIn(s.log.dispatched, topic) + [b]
         else
           && BatchesIn(s1.log.dispatched, topic) == BatchesIn(s.log.dispatched, topic)
           && BatchesIn(s1.flushers[f], topic) == [b]
  {
    var first, s1 := s.flushers[f][0], Next(cfg, s, FlusherDispatch(f));
    assert s1.flushers[f] == s.flushers[f][1..] && s1.log.dispatched == s.log.dispatched + [first];
    BatchesInTail(s.flushers[f], topic);
    BatchesInAppend(s.log.dispatched, first, topic);
    if first.topic == topic {
      assert BatchesIn(s.flushers[f], topic)[0] == first;
    }
  }

  // A flusher dispatches until the topic's batch has gone out.
  lemma {:induction false} FlusherDispatches(cfg: Config, s: System, f: nat, topic: string, b: BatchValue)
    returns (run: seq<Step>, s': System)
    requires f < |s.flushers| && BatchesIn(s.flushers[f], topic) == [b]
    ensures Leads(cfg, s, run, s') && s'.log.detached == s.log.detached
    ensures BatchesIn(s'.log.dispatched, topic) == BatchesIn(s.log.dispatched, topic) + [b]
    decreases |s.flushers[f]|
  {
    FlusherGoesOn(cfg, s, f, topic, b);
    var s1 := Next(cfg, s, FlusherDispatch(f));
    var rest: seq<Step> := [];
    if s.flushers[f][0].topic == topic {
      s' := s1;
      assert Leads(cfg, s', [], s');
    } else {
      rest, s' := FlusherDispatches(cfg, s1, f, topic, b);
    }
    LeadsCons(cfg, s, FlusherDispatch(f), rest, s');
    run := [FlusherDispatch(f)] + rest;
  }

  // A flush of everything takes a batch while an earlier one is waiting, and dispatches it first.
  lemma FlushAllOvertakes(cfg: Config, s: System, order: seq<string>, topic: string, b1: BatchValue)
    returns (run: seq<Step>, s': System)
    requires StoreSound(cfg, s.store) && Listing(s.store, order) && topic in order && Ordered(s, topic)
    requires Undispatched(s, topic) == [b1] && topic in s.store.batches && s.store.batches[topic] != b1
    ensures forall t | t in order :: t in s.store.batches
    ensures Leads(cfg, NextFlushAll(s, order), run, s')
    ensures OvertakenAt(s', topic, |BatchesIn(s.log.dispatched, topic)|)
  {
    ListingInStore(s.store, order);
    var b2, s1 := s.store.batches[topic], NextFlushAll(s, order);
    BatchesInConcat(s.log.detached, Listed(s.store, order), topic);
    BatchesInListed(s.store, order, topic);
    run, s' := FlusherDispatches(cfg, s1, |s.flushers|, topic, b2);
    Overtakes(s', topic, BatchesIn(s.log.dispatched, topic), b1, b2);
  }

  // Whenever a batch of the topic leaves the map while another one is waiting, the scheduler can
  // have it dispatched first.
  lemma DetachCanOvertake(cfg: Config, s: System, step: Step, topic: string, b1: BatchValue)
    returns (run: seq<Step>, s': System)
    requires StoreSound(cfg, s.store) && Enabled(cfg, s, step) && Ordered(s, topic) && Undispatched(s, topic) == [b1]
    requires Detaches(cfg, s, step, topic)
    requires topic in s.store.batches ==> s.store.batches[topic] != b1
    ensures Leads(cfg, Next(cfg, s, step), run, s')
    ensures OvertakenAt(s', topic, |BatchesIn(s.log.dispatched, topic)|)
  {
    match step
    case Process(w, freshId) =>
      ProcessOvertakes(cfg, s, w, freshId, topic, b1);
      run, s' := [], Next(cfg, s, step);
    case ManagerDetach => run, s' := DetachOvertakes(cfg, s, topic, b1);
    case FlushAll(order) =>
      ListingInStore(s.store, order);
      run, s' := FlushAllOvertakes(cfg, s, order, topic, b1);
  }
}
