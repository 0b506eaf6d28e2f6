/**
 The message queue and the channel of flush requests hand on what entered them, each once and in
 the order in which it entered. With a single worker messages are therefore accepted in the order of
 submission; with several they need not be.
 */
module CoordinatorFifo {
  import opened Batches
  import opened Coordination
  import opened CoordinatorRuns
  import opened CoordinatorOrder

  // ---------- the queue ----------

  // The messages that workers come to hold along the run, in order.
  ghost function TakenBy(cfg: Config, s: System, run: seq<Step>): seq<Message>
    decreases |run|
  {
    if run == [] || !Enabled(cfg, s, run[0]) then []
    else
      var s1 := Next(cfg, s, run[0]);
      (if run[0].Take? && s1.workers[run[0].w].Holding? then [s1.workers[run[0].w].message] else [])
      + TakenBy(cfg, s1, run[1..])
  }

  // The message that the step puts into the queue.
  function SubmissionOf(s: System, step: Step): seq<Message> {
    if step.Submit? && step.c < |s.clients| then [s.clients[step.c]] else []
  }

  lemma QueueMoves(cfg: Config, s: System, step: Step)
    requires Enabled(cfg, s, step)
    ensures
      var s1, more := Next(cfg, s, step), SubmissionOf(s, step);
      && s1.log.submitted == s.log.submitted + more
      && if step.Take? then s1.workers[step.w].Holding? && s.queue == [s1.workers[step.w].message] + s1.queue
         else s1.queue == s.queue + more
  {
    match step
    case Submit(_) =>
    case Process(_, _) =>
    case FlushAll(order) => ListingInStore(s.store, order);
    case RequestFlush(w) => RequestOnly(s, s.workers[w].topic);
    case Callback(topic) => RequestOnly(s, topic);
    case ClientFlush(topic) => RequestOnly(s, topic);
    case _ =>
  }

  lemma Regroup<T>(before: seq<T>, m: seq<T>, rest: seq<T>, queue: seq<T>)
    ensures (before + m) + rest + queue == before + (m + rest) + queue
    ensures before + (m + queue) == (before + m) + queue
  {
  }

  // Whatever the number of workers, they take the messages in the order in which they were submitted,
  // and what they have not taken is in the queue.
  lemma {:induction false} QueueFifo(cfg: Config, s: System, run: seq<Step>, s': System, before: seq<Message>)
    requires Leads(cfg, s, run, s') && s.log.submitted == before + s.queue
    ensures s'.log.submitted == before + TakenBy(cfg, s, run) + s'.queue
    decreases |run|
  {
    if run != [] {
      var s1, rest := Next(cfg, s, run[0]), run[1..];
      var m := if run[0].Take? then [s.queue[0]] else [];
      QueueMoves(cfg, s, run[0]);
      Regroup(before, m, TakenBy(cfg, s1, rest), s'.queue);
      Regroup(before, m, [], s1.queue);
      Regroup(before, s.queue, [], SubmissionOf(s, run[0]));
      QueueFifo(cfg, s1, rest, s', before + m);
    }
  }

  // ---------- the clients ----------

  predicate Calls(step: Step, m: Message) {
    step.Call? && step.message == m
  }

  // How often m is submitted already or still with a client.
  function Calling(s: System, m: Message): nat {
    Count(s.log.submitted, m) + Count(s.clients, m)
  }

  // How many clients passed the running check with m.
  function CallsOf(run: seq<Step>, m: Message): nat {
    if run == [] then 0 else CallsOf(run[1..], m) + (if Calls(run[0], m) then 1 else 0)
  }

  predicate Withdraws(s: System, step: Step, m: Message) {
    step.Withdraw? && step.c < |s.clients| && s.clients[step.c] == m
  }

  // How many of them gave up.
  ghost function WithdrawalsOf(cfg: Config, s: System, run: seq<Step>, m: Message): nat
    decreases |run|
  {
    if run == [] || !Enabled(cfg, s, run[0]) then 0
    else WithdrawalsOf(cfg, Next(cfg, s, run[0]), run[1..], m) + (if Withdraws(s, run[0], m) then 1 else 0)
  }

  lemma CountWithout<T>(xs: seq<T>, i: nat, x: T)
    requires i < |xs|
    ensures Count(xs, x) == Count(xs[..i] + xs[i + 1..], x) + (if xs[i] == x then 1 else 0)
  {
    assert xs == xs[..i] + [xs[i]] + xs[i + 1..];
  }

  lemma OthersStay(cfg: Config, s: System, step: Step)
    requires Enabled(cfg, s, step) && !step.Call? && !step.Submit? && !step.Withdraw?
    ensures Next(cfg, s, step).clients == s.clients && Next(cfg, s, step).log.submitted == s.log.submitted
  {
    if step.FlushAll? {
      ListingInStore(s.store, step.order);
    }
  }

  // What is submitted or with a client, counted for m, before a step and after it.
  lemma ClientsMove(cfg: Config, s: System, step: Step, m: Message)
    requires Enabled(cfg, s, step)
    ensures Calling(s, m) + (if Calls(step, m) then 1 else 0) ==
            Calling(Next(cfg, s, step), m) + (if Withdraws(s, step, m) then 1 else 0)
  {
    if step.Call? {
      CountAppend(s.clients, step.message, m);
    } else if step.Submit? {
      CountWithout(s.clients, step.c, m);
      CountAppend(s.log.submitted, s.clients[step.c], m);
    } else if step.Withdraw? {
      CountWithout(s.clients, step.c, m);
    } else {
      OthersStay(cfg, s, step);
    }
  }

  // Each call past the running check is with its client, or was submitted, or given up: once only.
  lemma {:induction false} CallsConserved(cfg: Config, s: System, run: seq<Step>, s': System, m: Message)
    requires Leads(cfg, s, run, s')
    ensures Calling(s, m) + CallsOf(run, m) == Calling(s', m) + WithdrawalsOf(cfg, s, run, m)
    decreases |run|
  {
    if run != [] {
      ClientsMove(cfg, s, run[0], m);
      CallsConserved(cfg, Next(cfg, s, run[0]), run[1..], s', m);
    }
  }

  // ---------- the channel ----------

  // The request that the step puts into the channel, if there is room.
  function RequestOf(s: System, step: Step): seq<string> {
    if |s.channel| >= FLUSH_CAPACITY then []
    else
      match step
      case RequestFlush(w) => if w < |s.workers| && s.workers[w].Requesting? then [s.workers[w].topic] else []
      case Callback(topic) => [topic]
      case ClientFlush(topic) => [topic]
      case _ => []
  }

  ghost function RequestedBy(cfg: Config, s: System, run: seq<Step>): seq<string>
    decreases |run|
  {
    if run == [] || !Enabled(cfg, s, run[0]) then []
    else RequestOf(s, run[0]) + RequestedBy(cfg, Next(cfg, s, run[0]), run[1..])
  }

  // The requests that the manager comes to hold along the run, in order.
  ghost function ServedBy(cfg: Config, s: System, run: seq<Step>): seq<string>
    decreases |run|
  {
    if run == [] || !Enabled(cfg, s, run[0]) then []
    else
      var s1 := Next(cfg, s, run[0]);
      (if run[0].ManagerTake? && s1.manager.Requested? then [s1.manager.topic] else [])
      + ServedBy(cfg, s1, run[1..])
  }

  lemma ChannelMoves(cfg: Config, s: System, step: Step)
    requires Enabled(cfg, s, step)
    ensures
      var s1 := Next(cfg, s, step);
      if step.ManagerTake? then s1.manager.Requested? && s.channel == [s1.manager.topic] + s1.channel
      else s1.channel == s.channel + RequestOf(s, step)
  {
    match step
    case Process(_, _) =>
    case FlushAll(order) => ListingInStore(s.store, order);
    case _ =>
  }

  lemma HeadFirst<T>(head: T, channel: seq<T>, requested: seq<T>, served: seq<T>, left: seq<T>)
    requires channel + requested == served + left
    ensures ([head] + channel) + ([] + requested) == ([head] + served) + left
  {
    assert ([head] + channel) + ([] + requested) == [head] + (channel + requested);
  }

  // The manager serves the requests that were queued in the order in which they were queued, and
  // what it has not served is in the channel.
  lemma {:induction false} ChannelFifo(cfg: Config, s: System, run: seq<Step>, s': System)
    requires Leads(cfg, s, run, s')
    ensures s.channel + RequestedBy(cfg, s, run) == ServedBy(cfg, s, run) + s'.channel
    decreases |run|
  {
    if run != [] {
      var s1, rest := Next(cfg, s, run[0]), run[1..];
      ChannelMoves(cfg, s, run[0]);
      ChannelFifo(cfg, s1, rest, s');
      if run[0].ManagerTake? {
        HeadFirst(s1.manager.topic, s1.channel, RequestedBy(cfg, s1, rest), ServedBy(cfg, s1, rest), s'.channel);
      } else {
        Regroup(s.channel, RequestOf(s, run[0]), [], RequestedBy(cfg, s1, rest));
        assert ServedBy(cfg, s, run) == ServedBy(cfg, s1, rest);
      }
    }
  }

  // ---------- one worker ----------

  // The messages that can be stored, in order.
  ghost function Storable(cfg: Config, messages: seq<Message>): seq<Message> {
    if messages == [] then []
    else
      var m := messages[|messages| - 1];
      Storable(cfg, messages[..|messages| - 1]) + (if Fits(cfg, m) then [m] else [])
  }

  lemma StorableAppend(cfg: Config, messages: seq<Message>, m: Message)
    ensures Storable(cfg, messages + [m]) == Storable(cfg, messages) + (if Fits(cfg, m) then [m] else [])
  {
    assert (messages + [m])[..|messages|] == messages;
  }

  // What the only worker holds.
  function InHand(worker: Worker): seq<Message> {
    if worker.Holding? then [worker.message] else []
  }

  // The messages that the only worker has done with are `done`: of these the storable ones were
  // accepted, and it holds or will take the others in order.
  ghost predicate InTurn(cfg: Config, s: System, done: seq<Message>) {
    && |s.workers| == 1
    && s.log.submitted == done + InHand(s.workers[0]) + s.queue
    && s.log.accepted == Storable(cfg, done)
  }

  lemma AcceptedOnlyByProcess(cfg: Config, s: System, step: Step)
    requires Enabled(cfg, s, step) && !step.Process?
    ensures
      var s1 := Next(cfg, s, step);
      && s1.log.accepted == s.log.accepted && |s1.workers| == |s.workers|
      && (!step.Take? ==> forall w | 0 <= w < |s.workers| :: InHand(s1.workers[w]) == InHand(s.workers[w]))
  {
    match step
    case FlushAll(order) => ListingInStore(s.store, order);
    case RequestFlush(w) => RequestOnly(s, s.workers[w].topic);
    case Callback(topic) => RequestOnly(s, topic);
    case ClientFlush(topic) => RequestOnly(s, topic);
    case _ =>
  }

  lemma ProcessInTurn(cfg: Config, s: System, w: nat, freshId: string, done: seq<Message>)
    requires StoreSound(cfg, s.store) && Enabled(cfg, s, Process(w, freshId)) && InTurn(cfg, s, done)
    ensures InTurn(cfg, NextProcess(cfg, s, w, freshId), done + InHand(s.workers[0]))
  {
    var m := s.workers[0].message;
    RefusedIffTooLarge(cfg, s.store, m, freshId);
    StorableAppend(cfg, done, m);
    assert done + [m] + s.queue == (done + [m]) + [] + s.queue;
  }

  lemma OtherInTurn(cfg: Config, s: System, step: Step, done: seq<Message>)
    requires Enabled(cfg, s, step) && !step.Process? && InTurn(cfg, s, done)
    ensures InTurn(cfg, Next(cfg, s, step), done)
  {
    var s1 := Next(cfg, s, step);
    QueueMoves(cfg, s, step);
    AcceptedOnlyByProcess(cfg, s, step);
    if step.Take? {
      assert done + InHand(s.workers[0]) + s.queue == done + InHand(s1.workers[0]) + s1.queue;
    } else {
      assert InHand(s1.workers[0]) == InHand(s.workers[0]);
      Regroup(done + InHand(s.workers[0]), s.queue, [], SubmissionOf(s, step));
    }
  }

  lemma {:induction false} InTurnAlong(cfg: Config, s: System, run: seq<Step>, s': System, done: seq<Message>)
      returns (done': seq<Message>)
    requires StoreSound(cfg, s.store) && Leads(cfg, s, run, s') && InTurn(cfg, s, done)
    ensures InTurn(cfg, s', done')
    decreases |run|
  {
    if run == [] {
      done' := done;
    } else {
      StoreSoundKept(cfg, s, run[0]);
      var done1 := done;
      if run[0].Process? {
        done1 := done + InHand(s.workers[0]);
        ProcessInTurn(cfg, s, run[0].w, run[0].freshId, done);
      } else {
        OtherInTurn(cfg, s, run[0], done);
      }
      done' := InTurnAlong(cfg, Next(cfg, s, run[0]), run[1..], s', done1);
    }
  }

  // With one worker the messages accepted are, in order, the first of those submitted that can be
  // stored, and so each topic's batches take them in the order of submission.
  lemma OneWorkerInOrder(cfg: Config, run: seq<Step>, s: System, topic: string)
    requires Leads(cfg, Initial(1), run, s)
    ensures s.log.accepted <= Storable(cfg, s.log.submitted)
    ensures MessagesOf(s.log.detached, topic) + Current(s.store, topic) <=
            OfTopic(Storable(cfg, s.log.submitted), topic)
  {
    var done := InTurnAlong(cfg, Initial(1), run, s, []);
    var rest := InHand(s.workers[0]) + s.queue;
    assert s.log.submitted == done + rest;
    StorablePrefix(cfg, done, rest);
    OfTopicPrefix(s.log.accepted, Storable(cfg, s.log.submitted), topic);
    OrderPreserved(cfg, 1, run, s, topic);
  }

  lemma {:induction false} StorablePrefix(cfg: Config, messages: seq<Message>, more: seq<Message>)
    ensures Storable(cfg, messages) <= Storable(cfg, messages + more)
  {
    if more == [] {
      assert messages + more == messages;
    } else {
      var init, last := more[..|more| - 1], more[|more| - 1];
      StorablePrefix(cfg, messages, init);
      StorableAppend(cfg, messages + init, last);
      assert messages + more == (messages + init) + [last];
    }
  }

  lemma {:induction false} OfTopicPrefix(xs: seq<Message>, ys: seq<Message>, topic: string)
    requires xs <= ys
    ensures OfTopic(xs, topic) <= OfTopic(ys, topic)
    decreases |ys|
  {
    if |xs| < |ys| {
      OfTopicPrefix(xs, ys[..|ys| - 1], topic);
    } else {
      assert xs == ys;
    }
  }

  lemma SubmitNext(cfg: Config, s0: System, run: seq<Step>, s: System, m: Message)
    returns (run': seq<Step>, s': System)
    requires Leads(cfg, s0, run, s) && !s.stopped && s.clients == [] && |s.queue| < cfg.queueSize
    ensures Leads(cfg, s0, run', s')
    ensures s' == s.(queue := s.queue + [m], log := s.log.(submitted := s.log.submitted + [m]))
  {
    run', s' := Go(cfg, s0, run, s, Call(m));
    run', s' := Go(cfg, s0, run', s', Submit(0));
    assert s'.clients == [];
  }

  lemma BothTaken(cfg: Config, m1: Message, m2: Message) returns (run: seq<Step>, s: System)
    requires cfg.queueSize >= 2
    ensures Leads(cfg, Initial(2), run, s) && s.workers == [Holding(m1), Holding(m2)]
    ensures s.log == Log([m1, m2], [], [], [], [])
  {
    var s0 := Initial(2);
    run, s := SubmitNext(cfg, s0, [], s0, m1);
    run, s := SubmitNext(cfg, s0, run, s, m2);
    assert s.queue == [m1, m2] && s.workers == [Idle, Idle] && s.log.submitted == [m1, m2];
    run, s := Go(cfg, s0, run, s, Take(0));
    run, s := Go(cfg, s0, run, s, Take(1));
  }

  lemma AcceptNext(cfg: Config, s0: System, run: seq<Step>, s: System, w: nat, m: Message)
    returns (run': seq<Step>, s': System)
    requires Leads(cfg, s0, run, s) && StoreSound(cfg, s.store) && Fits(cfg, m)
    requires w < |s.workers| && s.workers[w] == Holding(m)
    ensures Leads(cfg, s0, run', s') && StoreSound(cfg, s'.store)
    ensures s'.log.accepted == s.log.accepted + [m] && s'.log.submitted == s.log.submitted
    ensures |s'.workers| == |s.workers|
    ensures forall v | 0 <= v < |s.workers| && v != w :: s'.workers[v] == s.workers[v]
  {
    RefusedIffTooLarge(cfg, s.store, m, "");
    StoreSoundKept(cfg, s, Process(w, ""));
    run', s' := Go(cfg, s0, run, s, Process(w, ""));
  }

  // With two workers, the second can take a later message and accept it first.
  lemma TwoWorkersReorder(cfg: Config, m1: Message, m2: Message) returns (run: seq<Step>, s: System)
    requires Fits(cfg, m1) && Fits(cfg, m2) && cfg.queueSize >= 2
    ensures Leads(cfg, Initial(2), run, s)
    ensures s.log.submitted == [m1, m2] && s.log.accepted == [m2, m1]
  {
    var s0 := Initial(2);
    run, s := BothTaken(cfg, m1, m2);
    InvAlong(cfg, s0, run, s);
    run, s := AcceptNext(cfg, s0, run, s, 1, m2);
    run, s := AcceptNext(cfg, s0, run, s, 0, m1);
    assert [] + [m2] + [m1] == [m2, m1];
  }
}
