/**
 What a flush of everything leaves behind. Stop and FlushAll empty the map, but workers may go on
 adding. Whether they will can be read off the state at the flush.
 */
module CoordinatorStop {
  import opened Batches
  import opened Coordination
  import opened CoordinatorRuns
  import opened CoordinatorOrder

  // No topic has a message in the map.
  predicate Bare(s: Store) {
    forall t | t in s.batches :: s.batches[t].messages == []
  }

  ghost predicate HoldsFitting(cfg: Config, worker: Worker) {
    worker.Holding? && Fits(cfg, worker.message)
  }

  ghost predicate SomeFits(cfg: Config, messages: seq<Message>) {
    exists k | 0 <= k < |messages| :: Fits(cfg, messages[k])
  }

  predicate Live(workers: seq<Worker>) {
    exists w | 0 <= w < |workers| :: workers[w] != Exited
  }

  // A message that can be stored is in a worker's hands, or a worker lives and such a message is
  // in the queue or in the hands of a client that is past the running check.
  ghost predicate Outstanding(cfg: Config, s: System) {
    || (exists w | 0 <= w < |s.workers| :: HoldsFitting(cfg, s.workers[w]))
    || (Live(s.workers) && SomeFits(cfg, s.queue))
    || (Live(s.workers) && SomeFits(cfg, s.clients) && cfg.queueSize >= 1)
  }

  // A new call could bring a message that can be stored: an empty one is the smallest.
  predicate Open(cfg: Config, s: System) {
    && !s.stopped && Live(s.workers)
    && cfg.queueSize >= 1 && cfg.maxMessages >= 1 && OVERHEAD <= cfg.maxBytes
  }

  lemma OpenIff(cfg: Config)
    ensures cfg.maxMessages >= 1 && OVERHEAD <= cfg.maxBytes <==> exists m :: Fits(cfg, m)
  {
    assert Size(EMPTY_MESSAGE) == OVERHEAD;
    assert cfg.maxMessages >= 1 && OVERHEAD <= cfg.maxBytes ==> Fits(cfg, EMPTY_MESSAGE);
  }

  // ---------- nothing outstanding ----------

  lemma RefusedBare(cfg: Config, s: Store, m: Message, freshId: string)
    requires StoreSound(cfg, s) && Bare(s) && !Fits(cfg, m)
    ensures !Processed(cfg, s, m, freshId).accepted && Bare(Processed(cfg, s, m, freshId).store)
  {
    RefusedIffTooLarge(cfg, s, m, freshId);
  }

  // Nothing can be accepted any more.
  ghost predicate Settled(cfg: Config, s: System) {
    !Outstanding(cfg, s) && !Open(cfg, s)
  }

  // One worker moves on; the queue may lose its head.
  lemma StillSettled(cfg: Config, s: System, s': System, w: nat)
    requires Settled(cfg, s) && w < |s.workers| && s.workers[w] != Exited
    requires |s'.workers| == |s.workers| && s'.workers == s.workers[w := s'.workers[w]]
    requires !HoldsFitting(cfg, s'.workers[w])
    requires s'.queue == s.queue || (s.queue != [] && s'.queue == s.queue[1..])
    requires s'.clients == s.clients && s'.stopped == s.stopped
    ensures Settled(cfg, s')
  {
    assert Live(s.workers);
    forall v | 0 <= v < |s'.workers| ensures !HoldsFitting(cfg, s'.workers[v]) {
      assert v != w ==> s'.workers[v] == s.workers[v];
    }
    forall k | 0 <= k < |s'.queue| ensures !Fits(cfg, s'.queue[k]) {
      assert s'.queue[k] == if s'.queue == s.queue then s.queue[k] else s.queue[k + 1];
    }
  }

  lemma ProcessSettled(cfg: Config, s: System, w: nat, freshId: string)
    requires StoreSound(cfg, s.store) && Bare(s.store) && Settled(cfg, s)
    requires w < |s.workers| && s.workers[w].Holding?
    ensures
      var s' := NextProcess(cfg, s, w, freshId);
      Bare(s'.store) && Settled(cfg, s') && s'.log.accepted == s.log.accepted
  {
    assert !HoldsFitting(cfg, s.workers[w]);
    RefusedBare(cfg, s.store, s.workers[w].message, freshId);
    StillSettled(cfg, s, NextProcess(cfg, s, w, freshId), w);
  }

  predicate OfWorker(step: Step) {
    step.Take? || step.Arm? || step.RequestFlush? || step.Exit?
  }

  lemma WorkerSettled(cfg: Config, s: System, step: Step)
    requires Enabled(cfg, s, step) && OfWorker(step) && Settled(cfg, s)
    ensures Settled(cfg, Next(cfg, s, step))
  {
    assert Live(s.workers) by { assert s.workers[step.w] != Exited; }
    assert step.Take? ==> !Fits(cfg, s.queue[0]);
    StillSettled(cfg, s, Next(cfg, s, step), step.w);
  }

  predicate OfClient(step: Step) {
    step.Call? || step.Submit? || step.Withdraw?
  }

  lemma ClientSettled(cfg: Config, s: System, step: Step)
    requires Enabled(cfg, s, step) && OfClient(step) && Settled(cfg, s)
    ensures Settled(cfg, Next(cfg, s, step))
  {
    var s' := Next(cfg, s, step);
    if Live(s.workers) && cfg.queueSize >= 1 {
      OpenIff(cfg);
      forall k | 0 <= k < |s'.queue| ensures !Fits(cfg, s'.queue[k]) {
        assert k < |s.queue| ==> s'.queue[k] == s.queue[k];
      }
      forall c | 0 <= c < |s'.clients| ensures !Fits(cfg, s'.clients[c]) {
        assert s'.clients[c] in s.clients || step == Call(s'.clients[c]);
      }
    }
  }

  lemma OtherSettled(cfg: Config, s: System, step: Step)
    requires Enabled(cfg, s, step) && !step.Process? && !OfWorker(step) && !OfClient(step) && Settled(cfg, s)
    ensures Settled(cfg, Next(cfg, s, step))
  {
    var s' := Next(cfg, s, step);
    if step.FlushAll? {
      ListingInStore(s.store, step.order);
    }
    assert s'.workers == s.workers && s'.queue == s.queue && s'.clients == s.clients;
  }

  lemma BareKept(cfg: Config, s: System, step: Step)
    requires Enabled(cfg, s, step) && !step.Process? && Bare(s.store)
    ensures Bare(Next(cfg, s, step).store) && Next(cfg, s, step).log.accepted == s.log.accepted
  {
    if step.FlushAll? {
      ListingInStore(s.store, step.order);
    } else if !step.ManagerDetach? {
      QuietStep(cfg, s, step);
    }
  }

  // From a settled state with a bare map no message is ever accepted, and the map stays bare.
  lemma {:induction false} NothingMore(cfg: Config, s: System, run: seq<Step>, s': System)
    requires StoreSound(cfg, s.store) && Bare(s.store) && Settled(cfg, s) && Leads(cfg, s, run, s')
    ensures Bare(s'.store) && s'.log.accepted == s.log.accepted
    decreases |run|
  {
    if run != [] {
      var step, s1 := run[0], Next(cfg, s, run[0]);
      StoreSoundKept(cfg, s, step);
      if step.Process? {
        ProcessSettled(cfg, s, step.w, step.freshId);
      } else {
        BareKept(cfg, s, step);
        if OfWorker(step) {
          WorkerSettled(cfg, s, step);
        } else if OfClient(step) {
          ClientSettled(cfg, s, step);
        } else {
          OtherSettled(cfg, s, step);
        }
      }
      NothingMore(cfg, s1, run[1..], s');
    }
  }

  // ---------- something outstanding ----------

  // The run ends by accepting m, which is then in the map.
  ghost predicate Accepting(cfg: Config, s: System, run: seq<Step>, s': System, m: Message) {
    && Leads(cfg, s, run, s')
    && s'.log.accepted == s.log.accepted + [m]
    && Current(s'.store, m.topic) != []
  }

  lemma AcceptingCons(cfg: Config, s: System, step: Step, s1: System, rest: seq<Step>, s': System, m: Message)
    requires Enabled(cfg, s, step) && s1 == Next(cfg, s, step) && s1.log.accepted == s.log.accepted
    requires Accepting(cfg, s1, rest, s', m)
    ensures Accepting(cfg, s, [step] + rest, s', m)
  {
    LeadsCons(cfg, s, step, rest, s');
  }

  lemma ProcessAccepts(cfg: Config, s: System, w: nat) returns (run: seq<Step>, s': System)
    requires StoreSound(cfg, s.store) && w < |s.workers| && HoldsFitting(cfg, s.workers[w])
    ensures Accepting(cfg, s, run, s', s.workers[w].message)
  {
    var m := s.workers[w].message;
    RefusedIffTooLarge(cfg, s.store, m, "");
    ProcessCurrent(cfg, s.store, m, "", m.topic);
    run, s' := [Process(w, "")], Next(cfg, s, Process(w, ""));
    assert Leads(cfg, s', [], s');
    LeadsCons(cfg, s, Process(w, ""), [], s');
    assert [Process(w, "")] + [] == [Process(w, "")];
  }

  function Stage(worker: Worker): nat {
    match worker
    case Holding(_) => 3
    case Arming(_, _) => 2
    case Requesting(_) => 1
    case _ => 0
  }

  // The next step of a worker that holds nothing it could store.
  function WorkerStep(s: System, w: nat): Step
    requires w < |s.workers|
  {
    match s.workers[w]
    case Holding(_) => Process(w, "")
    case Arming(_, _) => Arm(w)
    case Requesting(_) => RequestFlush(w)
    case _ => Take(w)
  }

  lemma WorkerAdvances(cfg: Config, s: System, w: nat)
    requires StoreSound(cfg, s.store) && w < |s.workers| && s.workers[w] != Exited && s.workers[w] != Idle
    requires !HoldsFitting(cfg, s.workers[w])
    ensures
      var step := WorkerStep(s, w);
      && Enabled(cfg, s, step)
      && var s1 := Next(cfg, s, step);
         && s1.queue == s.queue && s1.clients == s.clients && |s1.workers| == |s.workers|
         && s1.log.accepted == s.log.accepted
         && s1.workers[w] != Exited && Stage(s1.workers[w]) < Stage(s.workers[w])
  {
    if s.workers[w].Holding? {
      RefusedIffTooLarge(cfg, s.store, s.workers[w].message, "");
    }
  }

  // One worker alone drives the k-th message of the queue, or an earlier one, into the map.
  lemma {:induction false} Drive(cfg: Config, s: System, w: nat, k: nat)
    returns (run: seq<Step>, s': System, m: Message)
    requires StoreSound(cfg, s.store) && w < |s.workers| && s.workers[w] != Exited
    requires k < |s.queue| && Fits(cfg, s.queue[k])
    ensures Accepting(cfg, s, run, s', m)
    decreases k, Stage(s.workers[w])
  {
    if HoldsFitting(cfg, s.workers[w]) {
      m := s.workers[w].message;
      run, s' := ProcessAccepts(cfg, s, w);
    } else {
      var step := WorkerStep(s, w);
      if s.workers[w] != Idle {
        WorkerAdvances(cfg, s, w);
      }
      var s1 := Next(cfg, s, step);
      StoreSoundKept(cfg, s, step);
      var rest: seq<Step>;
      if s.workers[w] == Idle && k == 0 {
        m := s.queue[0];
        rest, s' := ProcessAccepts(cfg, s1, w);
      } else if s.workers[w] == Idle {
        rest, s', m := Drive(cfg, s1, w, k - 1);
      } else {
        rest, s', m := Drive(cfg, s1, w, k);
      }
      AcceptingCons(cfg, s, step, s1, rest, s', m);
      run := [step] + rest;
    }
  }

  // It also makes room for a client's message and drives that into the map.
  lemma {:induction false} DriveClient(cfg: Config, s: System, w: nat, c: nat)
    returns (run: seq<Step>, s': System, m: Message)
    requires StoreSound(cfg, s.store) && w < |s.workers| && s.workers[w] != Exited
    requires c < |s.clients| && Fits(cfg, s.clients[c]) && 1 <= cfg.queueSize
    ensures Accepting(cfg, s, run, s', m)
    decreases |s.queue|, Stage(s.workers[w])
  {
    if HoldsFitting(cfg, s.workers[w]) {
      m := s.workers[w].message;
      run, s' := ProcessAccepts(cfg, s, w);
    } else {
      var step := if |s.queue| < cfg.queueSize then Submit(c) else WorkerStep(s, w);
      if !step.Submit? && s.workers[w] != Idle {
        WorkerAdvances(cfg, s, w);
      }
      var s1 := Next(cfg, s, step);
      StoreSoundKept(cfg, s, step);
      var rest: seq<Step>;
      if step.Submit? {
        rest, s', m := Drive(cfg, s1, w, |s.queue|);
      } else {
        rest, s', m := DriveClient(cfg, s1, w, c);
      }
      AcceptingCons(cfg, s, step, s1, rest, s', m);
      run := [step] + rest;
    }
  }

  lemma OutstandingAccepted(cfg: Config, s: System) returns (run: seq<Step>, s': System, m: Message)
    requires StoreSound(cfg, s.store) && Outstanding(cfg, s)
    ensures Accepting(cfg, s, run, s', m)
  {
    if v :| 0 <= v < |s.workers| && HoldsFitting(cfg, s.workers[v]) {
      m := s.workers[v].message;
      run, s' := ProcessAccepts(cfg, s, v);
    } else {
      var w :| 0 <= w < |s.workers| && s.workers[w] != Exited;
      if k :| 0 <= k < |s.queue| && Fits(cfg, s.queue[k]) {
        run, s', m := Drive(cfg, s, w, k);
      } else {
        var c :| 0 <= c < |s.clients| && Fits(cfg, s.clients[c]);
        run, s', m := DriveClient(cfg, s, w, c);
      }
    }
  }

  lemma OpenAccepted(cfg: Config, s: System) returns (run: seq<Step>, s': System, m: Message)
    requires StoreSound(cfg, s.store) && Open(cfg, s)
    ensures Accepting(cfg, s, run, s', m)
  {
    assert Size(EMPTY_MESSAGE) == OVERHEAD;
    var w :| 0 <= w < |s.workers| && s.workers[w] != Exited;
    var s1 := Next(cfg, s, Call(EMPTY_MESSAGE));
    run, s', m := DriveClient(cfg, s1, w, |s.clients|);
    AcceptingCons(cfg, s, Call(EMPTY_MESSAGE), s1, run, s', m);
    run := [Call(EMPTY_MESSAGE)] + run;
  }

  // ---------- the exact condition ----------

  // A message can still be accepted and left in the map.
  ghost predicate CanLeave(cfg: Config, s: System) {
    exists run, s' :: Leads(cfg, s, run, s') && !Bare(s'.store)
  }

  // A flush of everything is final exactly if at that moment no storable message is in a
  // worker's hands, and, as long as a worker lives, none is in the queue or with a client that is
  // past the running check, and no client can get past it with one.
  lemma FlushFinalIff(cfg: Config, s: System)
    requires StoreSound(cfg, s.store) && Bare(s.store)
    ensures CanLeave(cfg, s) <==> Outstanding(cfg, s) || Open(cfg, s)
  {
    if Outstanding(cfg, s) {
      var run, s', m := OutstandingAccepted(cfg, s);
      assert !Bare(s'.store);
    } else if Open(cfg, s) {
      var run, s', m := OpenAccepted(cfg, s);
      assert !Bare(s'.store);
    } else if CanLeave(cfg, s) {
      var run, s' :| Leads(cfg, s, run, s') && !Bare(s'.store);
      NothingMore(cfg, s, run, s');
    }
  }

  // A flush of everything after Stop that finds the queue empty, no worker with a message and no
  // client past the running check loses nothing: in every later state every accepted message
  // has left the map to be sent, in order.
  lemma StopLosesNothing(cfg: Config, workers: nat, run1: seq<Step>, s1: System,
                         run2: seq<Step>, s2: System, topic: string)
    requires Leads(cfg, Initial(workers), run1, s1) && s1.stopped && s1.store.batches == map[]
    requires s1.queue == s1.clients == [] && forall w | 0 <= w < |s1.workers| :: !s1.workers[w].Holding?
    requires Leads(cfg, s1, run2, s2)
    ensures MessagesOf(s2.log.detached, topic) == OfTopic(s2.log.accepted, topic)
    ensures s2.log.accepted == s1.log.accepted && Current(s2.store, topic) == []
  {
    InvAlong(cfg, Initial(workers), run1, s1);
    InOrderAlong(cfg, Initial(workers), run1, s1, topic);
    NothingMore(cfg, s1, run2, s2);
    InOrderAlong(cfg, s1, run2, s2, topic);
  }

  // ---------- in terms of the logs ----------

  lemma {:induction false} MessagesOfConcat(xs: seq<BatchValue>, ys: seq<BatchValue>, topic: string)
    ensures MessagesOf(xs + ys, topic) == MessagesOf(xs, topic) + MessagesOf(ys, topic)
  {
    if ys == [] {
      assert xs + ys == xs;
    } else {
      var init, last := ys[..|ys| - 1], ys[|ys| - 1];
      MessagesOfConcat(xs, init, topic);
      MessagesOfAppend(xs + init, last, topic);
      assert xs + ys == (xs + init) + [last];
    }
  }

  // What is accepted for a topic after a flush of everything is, in order, what is handed off
  // later and then the topic's batch. So nothing is later handed off or left exactly if nothing
  // is accepted.
  lemma FlushAllComplete(cfg: Config, workers: nat, run1: seq<Step>, s1: System,
                         run2: seq<Step>, s2: System, topic: string)
    requires Leads(cfg, Initial(workers), run1, s1) && s1.store.batches == map[]
    requires Leads(cfg, s1, run2, s2)
    ensures s1.log.detached <= s2.log.detached
    ensures
      var later := MessagesOf(s2.log.detached[|s1.log.detached|..], topic) + Current(s2.store, topic);
      && OfTopic(s2.log.accepted, topic) == OfTopic(s1.log.accepted, topic) + later
      && (later == [] <==> OfTopic(s2.log.accepted, topic) == OfTopic(s1.log.accepted, topic))
  {
    InvAlong(cfg, Initial(workers), run1, s1);
    InOrderAlong(cfg, Initial(workers), run1, s1, topic);
    InOrderAlong(cfg, s1, run2, s2, topic);
    LogsGrowAlong(cfg, s1, run2, s2);
    var new' := s2.log.detached[|s1.log.detached|..];
    assert s2.log.detached == s1.log.detached + new';
    MessagesOfConcat(s1.log.detached, new', topic);
    assert MessagesOf(s1.log.detached, topic) == OfTopic(s1.log.accepted, topic);
    AppendsNothing(OfTopic(s1.log.accepted, topic), MessagesOf(new', topic), Current(s2.store, topic));
  }

  lemma AppendsNothing<T>(xs: seq<T>, ys: seq<T>, zs: seq<T>)
    ensures (xs + ys) + zs == xs + (ys + zs)
    ensures ys + zs == [] <==> xs + (ys + zs) == xs
  {
    assert |xs + (ys + zs)| == |xs| + |ys + zs|;
  }
}
