/**
 How well the coordinator fills its batches. Adding in arrival order, and opening a new batch
 whenever a message does not fit, is next-fit packing; the classical bound holds here for
 every interleaving, once flushes and refused messages are accounted for.
 */
module CoordinatorPacking {
  import opened Arithmetic
  import opened Batches
  import opened Coordination
  import opened CoordinatorRuns
  import opened CoordinatorOrder

  // How full a topic's batch is.
  datatype Level = Level(count: int, bytes: int)

  function LevelOf(s: Store, topic: string): Level {
    if topic in s.batches then Level(|s.batches[topic].messages|, s.batches[topic].totalBytes) else Level(0, 0)
  }

  // Batches handed off because an accepted message did not fit into them.
  ghost function Overflows(cfg: Config, s: System, run: seq<Step>, topic: string): nat
    decreases |run|
  {
    if run == [] || !Enabled(cfg, s, run[0]) then 0
    else (if Overflow(cfg, s, run[0], topic) then 1 else 0) + Overflows(cfg, Next(cfg, s, run[0]), run[1..], topic)
  }

  ghost predicate Overflow(cfg: Config, s: System, step: Step, topic: string) {
    step.Process? && Enabled(cfg, s, step) && s.workers[step.w].message.topic == topic
    && var r := Processed(cfg, s.store, s.workers[step.w].message, step.freshId); r.accepted && r.handedOff.Some?
  }

  // What a step does to a topic's batch. A hand-off is full if the batch had no room for
  // another message at all; otherwise the message was too large for the bytes left.
  datatype Move = Grow(size: int) | HandOffFull(size: int) | HandOffBytes(size: int) | Other

  predicate Moves(cfg: Config, mv: Move, l: Level, l': Level) {
    match mv
    case Grow(size) => size >= 0 && l' == Level(l.count + 1, l.bytes + size)
    case HandOffFull(size) => size >= 0 && l.count >= cfg.maxMessages && l' == Level(1, size)
    case HandOffBytes(size) => l.bytes + size > cfg.maxBytes && l' == Level(1, size)
    case Other => l'.count <= l.count && l'.bytes <= l.bytes
  }

  ghost function ProcessMove(cfg: Config, s: Store, m: Message, freshId: string): Move {
    var r := Processed(cfg, s, m, freshId);
    if !r.accepted then Other
    else if r.handedOff.None? then Grow(Size(m))
    else if |r.handedOff.value.messages| >= cfg.maxMessages then HandOffFull(Size(m))
    else HandOffBytes(Size(m))
  }

  ghost function MoveOf(cfg: Config, s: System, step: Step, topic: string): Move
    requires Enabled(cfg, s, step)
  {
    if step.Process? && s.workers[step.w].message.topic == topic then
      ProcessMove(cfg, s.store, s.workers[step.w].message, step.freshId)
    else Other
  }

  lemma LevelSound(cfg: Config, s: Store, topic: string)
    requires StoreSound(cfg, s)
    ensures LevelOf(s, topic).count >= 0 && LevelOf(s, topic).bytes >= 0
  {
  }

  lemma ProcessMoves(cfg: Config, s: Store, m: Message, freshId: string)
    requires StoreSound(cfg, s)
    ensures Moves(cfg, ProcessMove(cfg, s, m, freshId), LevelOf(s, m.topic),
                  LevelOf(Processed(cfg, s, m, freshId).store, m.topic))
  {
    LevelSound(cfg, s, m.topic);
  }

  lemma OtherTopicsStay(cfg: Config, s: Store, m: Message, freshId: string, topic: string)
    requires topic != m.topic
    ensures LevelOf(Processed(cfg, s, m, freshId).store, topic) == LevelOf(s, topic)
  {
  }

  lemma TakenLevel(cfg: Config, s: Store, taken: string, topic: string)
    requires StoreSound(cfg, s)
    ensures Moves(cfg, Other, LevelOf(s, topic), LevelOf(Taken(s, taken), topic))
    ensures Moves(cfg, Other, LevelOf(s, topic), LevelOf(TakenAll(s), topic))
  {
    LevelSound(cfg, s, topic);
  }

  lemma StepMoves(cfg: Config, s: System, step: Step, topic: string)
    requires StoreSound(cfg, s.store) && Enabled(cfg, s, step)
    ensures Moves(cfg, MoveOf(cfg, s, step, topic), LevelOf(s.store, topic), LevelOf(Next(cfg, s, step).store, topic))
  {
    match step
    case Process(w, freshId) =>
      var m := s.workers[w].message;
      if m.topic == topic { ProcessMoves(cfg, s.store, m, freshId); }
      else { OtherTopicsStay(cfg, s.store, m, freshId, topic); }
    case ManagerDetach => TakenLevel(cfg, s.store, s.manager.topic, topic);
    case FlushAll(order) => TakenLevel(cfg, s.store, topic, topic);
    case _ =>
  }

  // What a run does for a topic: hand-offs of both kinds, and the messages and bytes accepted.
  datatype Tally = Tally(full: nat, bytes: nat, accepted: nat, size: int)

  function Plus(mv: Move, t: Tally): Tally {
    match mv
    case Grow(size) => t.(accepted := t.accepted + 1, size := t.size + size)
    case HandOffFull(size) => t.(full := t.full + 1, accepted := t.accepted + 1, size := t.size + size)
    case HandOffBytes(size) => t.(bytes := t.bytes + 1, accepted := t.accepted + 1, size := t.size + size)
    case Other => t
  }

  ghost function TallyOf(cfg: Config, s: System, run: seq<Step>, topic: string): Tally
    decreases |run|
  {
    if run == [] || !Enabled(cfg, s, run[0]) then Tally(0, 0, 0, 0)
    else Plus(MoveOf(cfg, s, run[0], topic), TallyOf(cfg, Next(cfg, s, run[0]), run[1..], topic))
  }

  // The two charges: a full hand-off uses up MaxMessages accepted messages, and two batches
  // on either side of a hand-off for lack of bytes hold more than MaxBytes together.
  predicate ChargedBy(cfg: Config, t: Tally, l: Level, l': Level) {
    && t.full * cfg.maxMessages <= t.accepted + l.count - l'.count
    && t.bytes * cfg.maxBytes <= 2 * t.size + l.bytes - l'.bytes
  }

  lemma ChargeMove(cfg: Config, mv: Move, t: Tally, l: Level, l1: Level, l': Level)
    requires cfg.maxMessages >= 1 && cfg.maxBytes >= 1 && l.count >= 0 && l.bytes >= 0
    requires Moves(cfg, mv, l, l1) && ChargedBy(cfg, t, l1, l')
    ensures ChargedBy(cfg, Plus(mv, t), l, l')
  {
    Distribute(cfg.maxMessages, t.full, 1);
    Distribute(cfg.maxBytes, t.bytes, 1);
  }

  lemma {:induction false} Charged(cfg: Config, s: System, run: seq<Step>, s': System, topic: string)
    requires cfg.maxMessages >= 1 && cfg.maxBytes >= 1 && Inv(cfg, s) && Leads(cfg, s, run, s')
    ensures ChargedBy(cfg, TallyOf(cfg, s, run, topic), LevelOf(s.store, topic), LevelOf(s'.store, topic))
    decreases |run|
  {
    if run != [] {
      var s1, rest := Next(cfg, s, run[0]), run[1..];
      InvKept(cfg, s, run[0]);
      StepMoves(cfg, s, run[0], topic);
      LevelSound(cfg, s.store, topic);
      Charged(cfg, s1, rest, s', topic);
      ChargeMove(cfg, MoveOf(cfg, s, run[0], topic), TallyOf(cfg, s1, rest, topic),
                 LevelOf(s.store, topic), LevelOf(s1.store, topic), LevelOf(s'.store, topic));
    }
  }

  lemma {:induction false} OverflowsSplit(cfg: Config, s: System, run: seq<Step>, topic: string)
    ensures
      var t := TallyOf(cfg, s, run, topic);
      Overflows(cfg, s, run, topic) == t.full + t.bytes
    decreases |run|
  {
    if run != [] && Enabled(cfg, s, run[0]) {
      var mv := MoveOf(cfg, s, run[0], topic);
      assert Overflow(cfg, s, run[0], topic) <==> mv.HandOffFull? || mv.HandOffBytes?;
      OverflowsSplit(cfg, Next(cfg, s, run[0]), run[1..], topic);
    }
  }

  // ---------- the same in terms of the logs ----------

  // The number and the total size of the topic's accepted messages.
  datatype Load = Load(count: int, bytes: int)

  ghost function LoadOf(accepted: seq<Message>, topic: string): Load {
    Load(|OfTopic(accepted, topic)|, TotalSize(OfTopic(accepted, topic)))
  }

  function Loaded(l: Load, mv: Move): Load {
    if mv.Other? then l else Load(l.count + 1, l.bytes + mv.size)
  }

  function Total(l: Load, t: Tally): Load {
    Load(l.count + t.accepted, l.bytes + t.size)
  }

  lemma LoadedFirst(l: Load, mv: Move, t: Tally)
    ensures Total(Loaded(l, mv), t) == Total(l, Plus(mv, t))
  {
  }

  lemma {:induction false} AcceptedIsLogged(cfg: Config, s: System, run: seq<Step>, s': System, topic: string)
    requires Inv(cfg, s) && Leads(cfg, s, run, s')
    ensures LoadOf(s'.log.accepted, topic) == Total(LoadOf(s.log.accepted, topic), TallyOf(cfg, s, run, topic))
    decreases |run|
  {
    if run != [] {
      var s1, rest := Next(cfg, s, run[0]), run[1..];
      InvKept(cfg, s, run[0]);
      StepLogged(cfg, s, run[0], topic);
      AcceptedIsLogged(cfg, s1, rest, s', topic);
      LoadedFirst(LoadOf(s.log.accepted, topic), MoveOf(cfg, s, run[0], topic), TallyOf(cfg, s1, rest, topic));
    }
  }

  lemma StepLogged(cfg: Config, s: System, step: Step, topic: string)
    requires Enabled(cfg, s, step)
    ensures LoadOf(Next(cfg, s, step).log.accepted, topic) ==
            Loaded(LoadOf(s.log.accepted, topic), MoveOf(cfg, s, step, topic))
  {
    if step.Process? {
      ProcessLogged(cfg, s, step.w, step.freshId, topic);
    } else {
      OtherStepLogged(cfg, s, step);
    }
  }

  lemma OtherStepLogged(cfg: Config, s: System, step: Step)
    requires Enabled(cfg, s, step) && !step.Process?
    ensures Next(cfg, s, step).log.accepted == s.log.accepted
  {
    if step.FlushAll? {
      ListingInStore(s.store, step.order);
    }
  }

  lemma LoadAppend(accepted: seq<Message>, m: Message, topic: string)
    ensures
      var l := LoadOf(accepted, topic);
      LoadOf(accepted + [m], topic) == if m.topic == topic then Load(l.count + 1, l.bytes + Size(m)) else l
  {
    OfTopicAppend(accepted, m, topic);
    TotalSizeAppend(OfTopic(accepted, topic), m);
    assert OfTopic(accepted, topic) + [] == OfTopic(accepted, topic);
  }

  lemma ProcessLogged(cfg: Config, s: System, w: nat, freshId: string, topic: string)
    requires w < |s.workers| && s.workers[w].Holding?
    ensures
      var m := s.workers[w].message;
      LoadOf(NextProcess(cfg, s, w, freshId).log.accepted, topic) ==
      Loaded(LoadOf(s.log.accepted, topic), if m.topic == topic then ProcessMove(cfg, s.store, m, freshId) else Other)
  {
    var m, log' := s.workers[w].message, NextProcess(cfg, s, w, freshId).log.accepted;
    var mv := ProcessMove(cfg, s.store, m, freshId);
    assert log' == if mv.Other? then s.log.accepted else s.log.accepted + [m];
    assert !mv.Other? ==> mv.size == Size(m);
    LoadAppend(s.log.accepted, m, topic);
  }

  lemma RunTotals(cfg: Config, workers: nat, run: seq<Step>, s: System, topic: string, t: Tally)
    requires cfg.maxMessages >= 1 && cfg.maxBytes >= 1
    requires Leads(cfg, Initial(workers), run, s) && t == TallyOf(cfg, Initial(workers), run, topic)
    ensures t.full * cfg.maxMessages <= t.accepted && t.bytes * cfg.maxBytes <= 2 * t.size
    ensures Overflows(cfg, Initial(workers), run, topic) == t.full + t.bytes
    ensures LoadOf(s.log.accepted, topic) == Load(t.accepted, t.size)
  {
    var s0 := Initial(workers);
    Charged(cfg, s0, run, s, topic);
    OverflowsSplit(cfg, s0, run, topic);
    AcceptedIsLogged(cfg, s0, run, s, topic);
    InvAlong(cfg, s0, run, s);
    LevelSound(cfg, s.store, topic);
  }

  // Next-fit bound for every run: the batches of a topic that gave way to an accepted message
  // number at most n / MaxMessages + 2 * T / MaxBytes, for n accepted messages of T bytes in
  // all. Flushes, refused messages, other topics and timers may be interleaved freely.
  lemma NextFitBound(cfg: Config, workers: nat, run: seq<Step>, s: System, topic: string)
    requires cfg.maxMessages >= 1 && cfg.maxBytes >= 1
    requires Leads(cfg, Initial(workers), run, s)
    ensures
      var k := Overflows(cfg, Initial(workers), run, topic);
      var n, bytes := |OfTopic(s.log.accepted, topic)|, TotalSize(OfTopic(s.log.accepted, topic));
      k * (cfg.maxMessages * cfg.maxBytes) <= n * cfg.maxBytes + 2 * bytes * cfg.maxMessages
  {
    var t := TallyOf(cfg, Initial(workers), run, topic);
    RunTotals(cfg, workers, run, s, topic, t);
    Combine(cfg.maxMessages, cfg.maxBytes, t.full, t.bytes, t.accepted, t.size);
  }

  lemma Combine(mm: int, mb: int, kf: int, kb: int, n: int, bytes: int)
    requires mm >= 1 && mb >= 1 && kf * mm <= n && kb * mb <= 2 * bytes
    ensures (kf + kb) * (mm * mb) <= n * mb + 2 * bytes * mm
  {
    Scale(kf * mm, n, mb);
    Scale(kb * mb, 2 * bytes, mm);
    assert (kf + kb) * (mm * mb) == (kf * mm) * mb + (kb * mb) * mm;
  }

  lemma Scale(x: int, y: int, c: int)
    requires x <= y && c >= 0
    ensures x * c <= y * c
  {
  }

  // ---------- counting every batch ----------

  function BatchesOf(batches: seq<BatchValue>, topic: string): nat {
    if batches == [] then 0
    else BatchesOf(batches[..|batches| - 1], topic) + (if batches[|batches| - 1].topic == topic then 1 else 0)
  }

  lemma BatchesOfAppend(batches: seq<BatchValue>, b: BatchValue, topic: string)
    ensures BatchesOf(batches + [b], topic) == BatchesOf(batches, topic) + (if b.topic == topic then 1 else 0)
  {
    assert (batches + [b])[..|batches|] == batches;
  }

  lemma {:induction false} BatchesOfListed(s: Store, order: seq<string>, batches: seq<BatchValue>, topic: string)
    requires forall t | t in order :: t in s.batches && s.batches[t].topic == t
    requires forall i, j | 0 <= i < j < |order| :: order[i] != order[j]
    ensures BatchesOf(batches + Listed(s, order), topic) ==
        BatchesOf(batches, topic) + (if topic in order then 1 else 0)
    decreases |order|
  {
    if order == [] {
      assert batches + [] == batches;
    } else {
      var t, rest := order[0], order[1..];
      assert order == [t] + rest && t in order && t !in rest;
      BatchesOfListed(s, rest, batches + [s.batches[t]], topic);
      BatchesOfAppend(batches, s.batches[t], topic);
      assert batches + Listed(s, order) == batches + [s.batches[t]] + Listed(s, rest);
      assert topic in order <==> topic == t || topic in rest;
    }
  }

  // Steps that make a topic give up its batch without accepting a message: a flush of the
  // topic, a flush of everything, or a refused message.
  ghost predicate GivesUp(cfg: Config, s: System, step: Step, topic: string) {
    || step.FlushAll?
    || (step.ManagerDetach? && s.manager == Requested(topic))
    || (step.Process? && Enabled(cfg, s, step) && s.workers[step.w].message.topic == topic
        && !Processed(cfg, s.store, s.workers[step.w].message, step.freshId).accepted)
  }

  ghost function GiveUps(cfg: Config, s: System, run: seq<Step>, topic: string): nat
    decreases |run|
  {
    if run == [] || !Enabled(cfg, s, run[0]) then 0
    else (if GivesUp(cfg, s, run[0], topic) then 1 else 0) + GiveUps(cfg, Next(cfg, s, run[0]), run[1..], topic)
  }

  lemma StepBatches(cfg: Config, s: System, step: Step, topic: string)
    requires StoreSound(cfg, s.store) && Enabled(cfg, s, step)
    ensures BatchesOf(Next(cfg, s, step).log.detached, topic) <= BatchesOf(s.log.detached, topic)
            + (if Overflow(cfg, s, step, topic) then 1 else 0) + (if GivesUp(cfg, s, step, topic) then 1 else 0)
  {
    match step
    case Process(w, freshId) =>
      var r := Processed(cfg, s.store, s.workers[w].message, freshId);
      ProcessCurrent(cfg, s.store, s.workers[w].message, freshId, topic);
      if r.handedOff.Some? {
        BatchesOfAppend(s.log.detached, r.handedOff.value, topic);
      } else {
        assert s.log.detached + [] == s.log.detached;
      }
    case ManagerDetach =>
      var b := TakenBatch(s.store, s.manager.topic);
      if b.Some? {
        BatchesOfAppend(s.log.detached, b.value, topic);
      } else {
        assert s.log.detached + [] == s.log.detached;
      }
    case FlushAll(order) =>
      ListingInStore(s.store, order);
      BatchesOfListed(s.store, order, s.log.detached, topic);
    case _ =>
  }

  lemma {:induction false} BatchesAlong(cfg: Config, s: System, run: seq<Step>, s': System, topic: string)
    requires Inv(cfg, s) && Leads(cfg, s, run, s')
    ensures BatchesOf(s'.log.detached, topic) <= BatchesOf(s.log.detached, topic)
            + Overflows(cfg, s, run, topic) + GiveUps(cfg, s, run, topic)
    decreases |run|
  {
    if run != [] {
      InvKept(cfg, s, run[0]);
      StepBatches(cfg, s, run[0], topic);
      BatchesAlong(cfg, Next(cfg, s, run[0]), run[1..], s', topic);
    }
  }

  // All batches a topic hands off: at most n / MaxMessages + 2 * T / MaxBytes, plus one for
  // each flush and each refused message.
  lemma HandOffBound(cfg: Config, workers: nat, run: seq<Step>, s: System, topic: string)
    requires cfg.maxMessages >= 1 && cfg.maxBytes >= 1
    requires Leads(cfg, Initial(workers), run, s)
    ensures
      var k := BatchesOf(s.log.detached, topic) - GiveUps(cfg, Initial(workers), run, topic);
      var n, bytes := |OfTopic(s.log.accepted, topic)|, TotalSize(OfTopic(s.log.accepted, topic));
      k * (cfg.maxMessages * cfg.maxBytes) <= n * cfg.maxBytes + 2 * bytes * cfg.maxMessages
  {
    var s0 := Initial(workers);
    NextFitBound(cfg, workers, run, s, topic);
    BatchesAlong(cfg, s0, run, s, topic);
    assert cfg.maxMessages * cfg.maxBytes >= 0;
    Scale(BatchesOf(s.log.detached, topic) - GiveUps(cfg, s0, run, topic), Overflows(cfg, s0, run, topic),
          cfg.maxMessages * cfg.maxBytes);
  }
}
