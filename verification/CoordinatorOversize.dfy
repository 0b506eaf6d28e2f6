/** Empty batches are handed off only because of messages that cannot be stored. */
module CoordinatorOversize {
  import opened Batches
  import opened Coordination
  import opened CoordinatorRuns

  predicate NoneEmpty(batches: seq<BatchValue>) {
    forall b | b in batches :: b.messages != []
  }

  // Every message on its way fits, none was refused, and no batch is empty.
  ghost predicate AllFit(cfg: Config, s: System) {
    && (forall m | m in s.clients :: Fits(cfg, m))
    && (forall m | m in s.queue :: Fits(cfg, m))
    && (forall w | w in s.workers && w.Holding? :: Fits(cfg, w.message))
    && (forall t | t in s.store.batches :: s.store.batches[t].messages != [])
    && NoneEmpty(s.log.detached)
    && s.log.rejected == []
  }

  lemma ProcessedNotEmpty(cfg: Config, s: Store, m: Message, freshId: string)
    requires StoreSound(cfg, s) && Fits(cfg, m) && forall t | t in s.batches :: s.batches[t].messages != []
    ensures
      var r := Processed(cfg, s, m, freshId);
      && (forall t | t in r.store.batches :: r.store.batches[t].messages != [])
      && (r.handedOff.Some? ==> r.handedOff.value.messages != [])
  {
    RefusedIffTooLarge(cfg, s, m, freshId);
  }

  lemma ProcessAllFit(cfg: Config, s: System, w: nat, freshId: string)
    requires StoreSound(cfg, s.store) && w < |s.workers| && s.workers[w].Holding? && AllFit(cfg, s)
    ensures AllFit(cfg, NextProcess(cfg, s, w, freshId))
  {
    assert s.workers[w] in s.workers;
    ProcessedNotEmpty(cfg, s.store, s.workers[w].message, freshId);
    RefusedIffTooLarge(cfg, s.store, s.workers[w].message, freshId);
    WorkersFit(cfg, s.workers, w, NextProcess(cfg, s, w, freshId).workers[w]);
  }

  lemma WorkersFit(cfg: Config, workers: seq<Worker>, w: nat, worker: Worker)
    requires w < |workers| && (worker.Holding? ==> Fits(cfg, worker.message))
    requires forall v | v in workers && v.Holding? :: Fits(cfg, v.message)
    ensures forall v | v in workers[w := worker] && v.Holding? :: Fits(cfg, v.message)
  {
    forall v | v in workers[w := worker] && v.Holding? ensures Fits(cfg, v.message) {
      var i :| 0 <= i < |workers| && workers[w := worker][i] == v;
      assert i != w ==> v in workers;
    }
  }

  lemma {:induction false} ListedNotEmpty(s: Store, order: seq<string>)
    requires forall t | t in order :: t in s.batches && s.batches[t].messages != []
    ensures NoneEmpty(Listed(s, order))
  {
    if order != [] {
      assert order[0] in order;
      ListedNotEmpty(s, order[1..]);
    }
  }

  lemma FlushAllFit(cfg: Config, s: System, order: seq<string>)
    requires AllFit(cfg, s) && forall t | t in order :: t in s.store.batches
    ensures AllFit(cfg, NextFlushAll(s, order))
  {
    ListedNotEmpty(s.store, order);
  }

  lemma WorkerStepFit(cfg: Config, s: System, step: Step)
    requires Enabled(cfg, s, step) && AllFit(cfg, s) && (step.Take? || step.Arm? || step.RequestFlush? || step.Exit?)
    ensures AllFit(cfg, Next(cfg, s, step))
  {
    var s' := Next(cfg, s, step);
    assert step.Take? ==> s.queue[0] in s.queue;
    WorkersFit(cfg, s.workers, step.w, s'.workers[step.w]);
    QuietStep(cfg, s, step);
  }

  lemma OtherStepFit(cfg: Config, s: System, step: Step)
    requires Enabled(cfg, s, step) && AllFit(cfg, s) && (step.Call? ==> Fits(cfg, step.message))
    requires !Moving(step) && !step.Take? && !step.Arm? && !step.RequestFlush? && !step.Exit?
    ensures AllFit(cfg, Next(cfg, s, step))
  {
    QuietStep(cfg, s, step);
    if step.Submit? {
      assert s.clients[step.c] in s.clients;
    }
  }

  lemma AllFitKept(cfg: Config, s: System, step: Step)
    requires StoreSound(cfg, s.store) && Enabled(cfg, s, step) && AllFit(cfg, s)
    requires step.Call? ==> Fits(cfg, step.message)
    ensures AllFit(cfg, Next(cfg, s, step))
  {
    match step
    case Process(w, freshId) => ProcessAllFit(cfg, s, w, freshId);
    case ManagerDetach =>
    case FlushAll(order) =>
      ListingInStore(s.store, order);
      FlushAllFit(cfg, s, order);
    case Take(_) => WorkerStepFit(cfg, s, step);
    case Arm(_) => WorkerStepFit(cfg, s, step);
    case RequestFlush(_) => WorkerStepFit(cfg, s, step);
    case Exit(_) => WorkerStepFit(cfg, s, step);
    case _ => OtherStepFit(cfg, s, step);
  }

  lemma {:induction false} AllFitAlong(cfg: Config, s: System, run: seq<Step>, s': System)
    requires Inv(cfg, s) && AllFit(cfg, s) && Leads(cfg, s, run, s')
    requires forall i | 0 <= i < |run| && run[i].Call? :: Fits(cfg, run[i].message)
    ensures AllFit(cfg, s')
    decreases |run|
  {
    if run != [] {
      InvKept(cfg, s, run[0]);
      AllFitKept(cfg, s, run[0]);
      AllFitAlong(cfg, Next(cfg, s, run[0]), run[1..], s');
    }
  }

  // If every message that is passed in can be stored, no run refuses one or hands off an
  // empty batch.
  lemma NoEmptyHandOff(cfg: Config, workers: nat, run: seq<Step>, s: System)
    requires Leads(cfg, Initial(workers), run, s)
    requires forall i | 0 <= i < |run| && run[i].Call? :: Fits(cfg, run[i].message)
    ensures NoneEmpty(s.log.detached) && s.log.rejected == []
    ensures forall t | t in s.store.batches :: s.store.batches[t].messages != []
  {
    AllFitAlong(cfg, Initial(workers), run, s);
  }

  // ---------- in any run ----------

  function Empties(batches: seq<BatchValue>): nat {
    if batches == [] then 0
    else Empties(batches[..|batches| - 1]) + (if batches[|batches| - 1].messages == [] then 1 else 0)
  }

  lemma EmptiesAppend(batches: seq<BatchValue>, b: BatchValue)
    ensures Empties(batches + [b]) == Empties(batches) + (if b.messages == [] then 1 else 0)
  {
    assert (batches + [b])[..|batches|] == batches;
  }

  lemma {:induction false} EmptiesConcat(batches: seq<BatchValue>, more: seq<BatchValue>)
    requires NoneEmpty(more)
    ensures Empties(batches + more) == Empties(batches)
  {
    if more == [] {
      assert batches + more == batches;
    } else {
      var init, last := more[..|more| - 1], more[|more| - 1];
      assert last in more && forall b | b in init :: b in more;
      EmptiesConcat(batches, init);
      EmptiesAppend(batches + init, last);
      assert batches + more == (batches + init) + [last];
    }
  }

  // A step hands off an empty batch only if it refuses a message.
  lemma EmptiesStep(cfg: Config, s: System, step: Step)
    requires StoreSound(cfg, s.store) && Enabled(cfg, s, step)
    ensures
      var s1 := Next(cfg, s, step);
      Empties(s1.log.detached) - Empties(s.log.detached) <= |s1.log.rejected| - |s.log.rejected|
  {
    match step
    case Process(w, freshId) => ProcessEmpties(cfg, s, w, freshId);
    case ManagerDetach => DetachEmpties(s);
    case FlushAll(order) =>
      ListingInStore(s.store, order);
      ListedNotEmpty(s.store, order);
      EmptiesConcat(s.log.detached, Listed(s.store, order));
    case _ => QuietStep(cfg, s, step);
  }

  lemma ProcessEmpties(cfg: Config, s: System, w: nat, freshId: string)
    requires StoreSound(cfg, s.store) && Enabled(cfg, s, Process(w, freshId))
    ensures
      var log := NextProcess(cfg, s, w, freshId).log;
      Empties(log.detached) - Empties(s.log.detached) <= |log.rejected| - |s.log.rejected|
  {
    var m := s.workers[w].message;
    var r := Processed(cfg, s.store, m, freshId);
    RefusedIffTooLarge(cfg, s.store, m, freshId);
    EmptyHandOffIff(cfg, s.store, m, freshId);
    if r.handedOff.Some? {
      EmptiesAppend(s.log.detached, r.handedOff.value);
    } else {
      assert s.log.detached + [] == s.log.detached;
    }
  }

  lemma DetachEmpties(s: System)
    requires s.manager.Requested?
    ensures Empties(NextDetach(s).log.detached) == Empties(s.log.detached)
    ensures NextDetach(s).log.rejected == s.log.rejected
  {
    var b := TakenBatch(s.store, s.manager.topic);
    if b.Some? {
      EmptiesAppend(s.log.detached, b.value);
    } else {
      assert s.log.detached + [] == s.log.detached;
    }
  }

  // In every run no more empty batches are handed off than messages are refused.
  lemma {:induction false} EmptiesBounded(cfg: Config, s: System, run: seq<Step>, s': System)
    requires StoreSound(cfg, s.store) && Leads(cfg, s, run, s') && Empties(s.log.detached) <= |s.log.rejected|
    ensures Empties(s'.log.detached) <= |s'.log.rejected|
    decreases |run|
  {
    if run != [] {
      StoreSoundKept(cfg, s, run[0]);
      EmptiesStep(cfg, s, run[0]);
      EmptiesBounded(cfg, Next(cfg, s, run[0]), run[1..], s');
    }
  }
}
