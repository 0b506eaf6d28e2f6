/**
 What the locked sections of internal/batch/coordinator.go do to the topic -> batch map and
 to the flush timers, as functions on values. A timer is a number; `armed` holds the timers
 that the Go runtime has pending, and stopping a timer that has fired already does nothing.
 */
module Coordination {
  import opened Prelude
  import opened Batches

  // Capacity of the channel of flush requests.
  const FLUSH_CAPACITY := 100

  datatype Config = Config(maxMessages: int, maxBytes: int, queueSize: nat)

  datatype Store = Store(
    batches: map<string, BatchValue>,
    flushTimers: map<string, nat>,
    armed: map<nat, string>,
    nextTimer: nat)

  const EMPTY_STORE := Store(map[], map[], map[], 0)

  // The messages in a topic's batch.
  function Current(s: Store, topic: string): seq<Message> {
    if topic in s.batches then s.batches[topic].messages else []
  }

  // ---------- timers ----------

  function Stopped(s: Store, topic: string): Store {
    if topic in s.flushTimers then
      s.(flushTimers := s.flushTimers - {topic}, armed := s.armed - {s.flushTimers[topic]})
    else s
  }

  // Starting a timer replaces the one the topic has.
  function Started(s: Store, topic: string): Store {
    var armed := if topic in s.flushTimers then s.armed - {s.flushTimers[topic]} else s.armed;
    s.(flushTimers := s.flushTimers[topic := s.nextTimer],
       armed := armed[s.nextTimer := topic],
       nextTimer := s.nextTimer + 1)
  }

  predicate Armed(s: Store, topic: string) {
    topic in s.flushTimers && s.flushTimers[topic] in s.armed
  }

  // Every pending timer is the registered timer of its topic, and timers are not shared.
  ghost predicate TimersSound(s: Store) {
    && (forall i | i in s.armed :: s.armed[i] in s.flushTimers && s.flushTimers[s.armed[i]] == i)
    && (forall t | t in s.flushTimers :: s.flushTimers[t] < s.nextTimer)
    && (forall t, u | t in s.flushTimers && u in s.flushTimers && s.flushTimers[t] == s.flushTimers[u] :: t == u)
  }

  // ---------- adding a message ----------

  datatype Reply = Reply(
    store: Store,
    handedOff: Option<BatchValue>,  // the batch given to sendBatch under the lock
    accepted: bool,
    batchId: string,
    full: bool)

  function NewBatch(cfg: Config, id: string, topic: string): BatchValue {
    BatchValue(id, topic, [], 0, cfg.maxMessages, cfg.maxBytes)
  }

  // The store once it has a batch to try the message on.
  ghost function Opened(cfg: Config, s: Store, m: Message, freshId: string): Store {
    var t := m.topic;
    if t in s.batches && Accepts(s.batches[t], m) then s
    else
      var s1 := if t in s.batches then Stopped(s, t) else s;
      s1.(batches := s.batches[t := NewBatch(cfg, freshId, t)])
  }

  ghost function Processed(cfg: Config, s: Store, m: Message, freshId: string): Reply {
    var t := m.topic;
    var replaced := if t in s.batches && !Accepts(s.batches[t], m) then Some(s.batches[t]) else None;
    var s1 := Opened(cfg, s, m, freshId);
    var b := s1.batches[t];
    if Accepts(b, m) then
      Reply(s1.(batches := s1.batches[t := Added(b, m)]), replaced, true, b.id, IsFull(Added(b, m)))
    else
      Reply(s1, replaced, false, "", false)
  }

  // ---------- flushing ----------

  function Taken(s: Store, topic: string): Store {
    if topic in s.batches then Stopped(s, topic).(batches := s.batches - {topic}) else s
  }

  // The batch a flush of one topic gives to sendBatch.
  function TakenBatch(s: Store, topic: string): Option<BatchValue> {
    if topic in s.batches && s.batches[topic].messages != [] then Some(s.batches[topic]) else None
  }

  predicate TimerOf(s: Store, topics: set<string>, i: nat) {
    exists t | t in topics :: t in s.flushTimers && s.flushTimers[t] == i
  }

  // The batches of these topics go, and with them the topics' timers.
  function TakenThese(s: Store, topics: set<string>): Store {
    s.(batches := s.batches - topics,
       flushTimers := s.flushTimers - topics,
       armed := map i | i in s.armed && !TimerOf(s, topics, i) :: s.armed[i])
  }

  // A flush of everything leaves the timers of topics that have no batch.
  function TakenAll(s: Store): Store {
    TakenThese(s, s.batches.Keys)
  }

  lemma TimerOfOneMore(s: Store, topics: set<string>, topic: string, i: nat)
    ensures TimerOf(s, topics + {topic}, i) <==>
        TimerOf(s, topics, i) || (topic in s.flushTimers && s.flushTimers[topic] == i)
  {
    if TimerOf(s, topics, i) {
      var t :| t in topics && t in s.flushTimers && s.flushTimers[t] == i;
      assert t in topics + {topic};
    }
    if topic in s.flushTimers && s.flushTimers[topic] == i {
      assert topic in topics + {topic};
    }
  }

  lemma TakenOneMore(s: Store, topics: set<string>, topic: string)
    requires topic !in topics
    ensures
      var s1 := TakenThese(s, topics);
      Stopped(s1.(batches := s1.batches - {topic}), topic) == TakenThese(s, topics + {topic})
  {
    var s1 := TakenThese(s, topics);
    var s2 := Stopped(s1.(batches := s1.batches - {topic}), topic);
    var s3 := TakenThese(s, topics + {topic});
    forall i {
      TimerOfOneMore(s, topics, topic, i);
    }
    assert s2.batches == s3.batches;
    assert s2.flushTimers == s3.flushTimers;
    assert s2.armed == s3.armed by {
      assert forall i :: i in s2.armed <==> i in s3.armed;
    }
  }

  lemma TakenNone(s: Store)
    ensures TakenThese(s, {}) == s
  {
    assert s.batches - {} == s.batches && s.flushTimers - {} == s.flushTimers;
    assert TakenThese(s, {}).armed == s.armed;
  }

  // An order in which a range over these topics may meet those with something to send.
  ghost predicate ListingOf(s: Store, topics: set<string>, order: seq<string>) {
    && (forall i, j | 0 <= i < j < |order| :: order[i] != order[j])
    && (forall t :: t in order <==> t in topics && TakenBatch(s, t).Some?)
  }

  lemma ListingExtends(s: Store, topics: set<string>, topic: string, order: seq<string>)
    requires ListingOf(s, topics, order) && topic !in topics
    ensures ListingOf(s, topics + {topic}, if TakenBatch(s, topic).Some? then order + [topic] else order)
  {
    assert topic !in order;
  }

  ghost predicate Listing(s: Store, order: seq<string>) {
    ListingOf(s, s.batches.Keys, order)
  }

  function Listed(s: Store, order: seq<string>): seq<BatchValue>
    requires forall t | t in order :: t in s.batches
  {
    if order == [] then [] else [s.batches[order[0]]] + Listed(s, order[1..])
  }

  // ---------- what every section keeps ----------

  ghost predicate StoreSound(cfg: Config, s: Store) {
    && TimersSound(s)
    && forall t | t in s.batches ::
         var b := s.batches[t];
         b.topic == t && Sound(b) && b.maxMessages == cfg.maxMessages && b.maxBytes == cfg.maxBytes
  }

  lemma StoppedSound(s: Store, topic: string)
    requires TimersSound(s)
    ensures TimersSound(Stopped(s, topic))
    ensures forall t | t != topic :: Armed(Stopped(s, topic), t) <==> Armed(s, t)
    ensures !Armed(Stopped(s, topic), topic)
  {
  }

  lemma StartedSound(s: Store, topic: string)
    requires TimersSound(s)
    ensures TimersSound(Started(s, topic))
    ensures forall t :: Armed(Started(s, topic), t) <==> t == topic || Armed(s, t)
  {
  }

  lemma TakenAllSound(s: Store)
    requires TimersSound(s)
    ensures TimersSound(TakenAll(s))
    ensures forall t :: Armed(TakenAll(s), t) <==> Armed(s, t) && t !in s.batches
  {
  }

  // The message can be stored at all.
  ghost predicate Fits(cfg: Config, m: Message) {
    cfg.maxMessages >= 1 && Size(m) <= cfg.maxBytes
  }

  // A processed message is refused exactly when it could not be stored even alone, and a
  // refusal still replaces the current batch by an empty one.
  lemma RefusedIffTooLarge(cfg: Config, s: Store, m: Message, freshId: string)
    requires StoreSound(cfg, s)
    ensures Processed(cfg, s, m, freshId).accepted <==> Fits(cfg, m)
    ensures !Processed(cfg, s, m, freshId).accepted ==>
              Processed(cfg, s, m, freshId).store.batches == s.batches[m.topic := NewBatch(cfg, freshId, m.topic)]
  {
    if m.topic in s.batches && Accepts(s.batches[m.topic], m) {
      TotalSizeAtLeast(s.batches[m.topic].messages);
    }
  }

  // The replaced batch is handed off whether or not it holds anything. It holds nothing exactly
  // if the topic's batch was empty and the message cannot be stored at all.
  lemma EmptyHandOffIff(cfg: Config, s: Store, m: Message, freshId: string)
    requires StoreSound(cfg, s)
    ensures
      var handedOff := Processed(cfg, s, m, freshId).handedOff;
      handedOff.Some? && handedOff.value.messages == [] <==>
      m.topic in s.batches && s.batches[m.topic].messages == [] && !Fits(cfg, m)
  {
    if m.topic in s.batches && s.batches[m.topic].messages == [] {
      assert s.batches[m.topic].totalBytes == 0;
    }
  }

  // A message that cannot be stored leaves an empty batch behind, so a second oversized
  // message on a topic hands off the empty batch that the first one left.
  lemma OversizedHandsOffEmpty(cfg: Config, s: Store, m1: Message, m2: Message, id1: string, id2: string)
    requires StoreSound(cfg, s) && m1.topic == m2.topic
    requires Size(m1) > cfg.maxBytes && Size(m2) > cfg.maxBytes
    ensures
      var s1 := Processed(cfg, s, m1, id1).store;
      Processed(cfg, s1, m2, id2).handedOff == Some(NewBatch(cfg, id1, m1.topic))
  {
    RefusedIffTooLarge(cfg, s, m1, id1);
  }

  lemma OpenedSound(cfg: Config, s: Store, m: Message, freshId: string)
    requires StoreSound(cfg, s)
    ensures StoreSound(cfg, Opened(cfg, s, m, freshId))
    ensures forall t | t != m.topic :: Armed(Opened(cfg, s, m, freshId), t) <==> Armed(s, t)
  {
    StoppedSound(s, m.topic);
  }

  // After the topic has a batch to try, only that batch may change.
  lemma ProcessedAfterOpened(cfg: Config, s: Store, m: Message, freshId: string)
    ensures
      var s1, s2 := Opened(cfg, s, m, freshId), Processed(cfg, s, m, freshId).store;
      && m.topic in s1.batches
      && s2 == s1.(batches := s2.batches)
      && s2.batches == (if Accepts(s1.batches[m.topic], m)
                        then s1.batches[m.topic := Added(s1.batches[m.topic], m)] else s1.batches)
  {
  }

  lemma OneBatchSound(cfg: Config, s: Store, s': Store, t: string, b: BatchValue)
    requires StoreSound(cfg, s) && s' == s.(batches := s.batches[t := b])
    requires b.topic == t && Sound(b) && b.maxMessages == cfg.maxMessages && b.maxBytes == cfg.maxBytes
    ensures StoreSound(cfg, s')
  {
  }

  lemma ProcessedSound(cfg: Config, s: Store, m: Message, freshId: string)
    requires StoreSound(cfg, s)
    ensures StoreSound(cfg, Processed(cfg, s, m, freshId).store)
    ensures Processed(cfg, s, m, freshId).handedOff.Some? ==> Sound(Processed(cfg, s, m, freshId).handedOff.value)
    ensures forall t | t != m.topic :: Armed(Processed(cfg, s, m, freshId).store, t) <==> Armed(s, t)
  {
    var s1, s2 := Opened(cfg, s, m, freshId), Processed(cfg, s, m, freshId).store;
    OpenedSound(cfg, s, m, freshId);
    ProcessedAfterOpened(cfg, s, m, freshId);
    var b := s1.batches[m.topic];
    if Accepts(b, m) {
      AddedSound(b, m);
      OneBatchSound(cfg, s1, s2, m.topic, Added(b, m));
    }
  }

  lemma TakenSound(cfg: Config, s: Store, topic: string)
    requires StoreSound(cfg, s)
    ensures StoreSound(cfg, Taken(s, topic)) && Taken(s, topic).batches == s.batches - {topic}
    ensures forall t :: Armed(Taken(s, topic), t) <==> Armed(s, t) && (t == topic ==> topic !in s.batches)
  {
    StoppedSound(s, topic);
    assert topic !in s.batches ==> s.batches - {topic} == s.batches;
  }

  // The reply to an accepted message names the batch that now ends with it: the topic's own, or a
  // new one. A batch that is replaced takes its timer along. The reply reports the batch full
  // exactly if it is now at one of the limits.
  lemma AcceptedReply(cfg: Config, s: Store, m: Message, freshId: string)
    requires StoreSound(cfg, s) && Processed(cfg, s, m, freshId).accepted
    ensures
      var r, t := Processed(cfg, s, m, freshId), m.topic;
      && t in r.store.batches && r.store.batches[t].id == r.batchId
      && (Armed(r.store, t) <==> Armed(s, t) && r.handedOff.None?)
      && (if t in s.batches && r.handedOff.None?
          then r.batchId == s.batches[t].id && Current(r.store, t) == Current(s, t) + [m]
          else r.batchId == freshId && Current(r.store, t) == [m])
      && (r.full <==> |Current(r.store, t)| == cfg.maxMessages || TotalSize(Current(r.store, t)) == cfg.maxBytes)
  {
    ProcessedSound(cfg, s, m, freshId);
    StoppedSound(s, m.topic);
    FullIff(Processed(cfg, s, m, freshId).store.batches[m.topic]);
  }
}
