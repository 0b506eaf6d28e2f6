/**
 The batch coordinator as an object: the maps it updates under its mutex and the batches
 they point to. Each method is one locked section. `values` records what the batches in the
 map hold, Valid ties it to them, and Value is the state that Coordination describes. A batch
 that a method returns has left the map, and since later sections modify only the object and
 the batches in the map, nothing changes a batch after hand-off.
 */
module Coordinator {
  import opened Prelude
  import opened Batches
  import opened Coordination

  class BatchCoordinator {
    const config: Config
    var batches: map<string, Batch>
    var flushTimers: map<string, nat>
    var armed: map<nat, string>  // the runtime's pending timers
    var nextTimer: nat
    var flushRequest: seq<string>
    ghost var values: map<string, BatchValue>

    ghost predicate Valid()
      reads this, batches.Values
    {
      && batches.Keys == values.Keys
      && (forall t | t in batches :: batches[t].topic == t && batches[t].Value() == values[t])
      && |flushRequest| <= FLUSH_CAPACITY
    }

    ghost function Value(): Store
      reads this
    {
      Store(values, flushTimers, armed, nextTimer)
    }

    constructor (config: Config)
      ensures Valid() && this.config == config
      ensures Value() == EMPTY_STORE && flushRequest == []
    {
      this.config := config;
      batches, flushTimers, armed, nextTimer, flushRequest := map[], map[], map[], 0, [];
      values := map[];
    }

    // The caller holds the mutex.
    method StopFlushTimer(topic: string)
      modifies this`flushTimers, this`armed
      ensures Value() == Stopped(old(Value()), topic)
    {
      if topic in flushTimers {
        armed := armed - {flushTimers[topic]};
        flushTimers := flushTimers - {topic};
      }
    }

    method StartFlushTimer(topic: string)
      modifies this`flushTimers, this`armed, this`nextTimer
      ensures Value() == Started(old(Value()), topic)
    {
      if topic in flushTimers {
        armed := armed - {flushTimers[topic]};
      }
      armed := armed[nextTimer := topic];
      flushTimers := flushTimers[topic := nextTimer];
      nextTimer := nextTimer + 1;
    }

    // A full channel drops the request.
    method FlushTopic(topic: string)
      requires Valid()
      modifies this`flushRequest
      ensures Valid()
      ensures flushRequest ==
              if |old(flushRequest)| < FLUSH_CAPACITY then old(flushRequest) + [topic] else old(flushRequest)
    {
      if |flushRequest| < FLUSH_CAPACITY {
        flushRequest := flushRequest + [topic];
      }
    }

    method MakeBatch(freshId: string, topic: string) returns (batch: Batch)
      ensures fresh(batch) && batch.Value() == NewBatch(config, freshId, topic)
    {
      batch := new Batch(freshId, topic, []);
      batch.maxMessages := config.maxMessages;
      batch.maxBytes := config.maxBytes;
    }

    // The topic gets a new, empty batch.
    method Install(topic: string, freshId: string)
      requires Valid()
      modifies this`batches, this`values
      ensures Valid()
      ensures topic in batches && fresh(batches[topic]) && batches == old(batches)[topic := batches[topic]]
      ensures values == old(values)[topic := NewBatch(config, freshId, topic)]
    {
      var batch := MakeBatch(freshId, topic);
      batches := batches[topic := batch];
      values := values[topic := NewBatch(config, freshId, topic)];
    }

    // The first part of processMessageRequest's locked section: the topic gets a batch to try.
    method Open(message: Message, freshId: string) returns (handedOff: Option<Batch>)
      requires Valid()
      modifies this`batches, this`flushTimers, this`armed, this`values
      ensures Valid()
      ensures Value() == Opened(config, old(Value()), message, freshId)
      ensures handedOff == if message.topic in old(batches) && !Accepts(old(values)[message.topic], message)
                           then Some(old(batches)[message.topic]) else None
      ensures forall t | t in batches :: (t in old(batches) && batches[t] == old(batches)[t]) || fresh(batches[t])
      ensures handedOff.Some? ==> fresh(batches[message.topic])
    {
      var topic := message.topic;
      handedOff := None;
      if topic in batches {
        var fits := batches[topic].CanAccept(message);
        if fits {
          return;
        }
        handedOff := Some(batches[topic]);
        StopFlushTimer(topic);
      }
      Install(topic, freshId);
    }

    // The second part: the message is tried on the topic's batch.
    method Add(message: Message) returns (accepted: bool, batchId: string, full: bool)
      requires Valid() && message.topic in batches
      modifies this`values, batches[message.topic]
      ensures Valid()
      ensures
        var b := old(values)[message.topic];
        && accepted == Accepts(b, message)
        && values == (if accepted then old(values)[message.topic := Added(b, message)] else old(values))
        && batchId == (if accepted then b.id else "")
        && full == (accepted && IsFull(Added(b, message)))
    {
      var batch := batches[message.topic];
      accepted := batch.AddMessage(message);
      if !accepted {
        return false, "", false;
      }
      values := values[message.topic := Added(values[message.topic], message)];
      batchId := batch.id;
      full := |batch.messages| >= batch.maxMessages || batch.totalBytes >= batch.maxBytes;
    }

    // The locked section of processMessageRequest.
    method Process(message: Message, freshId: string)
        returns (handedOff: Option<Batch>, accepted: bool, batchId: string, full: bool)
      requires Valid()
      modifies this`batches, this`flushTimers, this`armed, this`values
      modifies if message.topic in batches then {batches[message.topic]} else {}
      ensures Valid()
      ensures Reply(Value(), if handedOff.Some? then Some(handedOff.value.Value()) else None, accepted, batchId, full)
              == Processed(config, old(Value()), message, freshId)
      ensures handedOff.Some? ==>
                && message.topic in old(batches) && handedOff.value == old(batches)[message.topic]
                && forall t | t in batches :: batches[t] != handedOff.value
    {
      handedOff := Open(message, freshId);
      accepted, batchId, full := Add(message);
    }

    // processMessageRequest as one undisturbed whole: after the locked section the timer is
    // restarted, and a full batch asks to be flushed.
    method ProcessMessageRequest(message: Message, freshId: string)
        returns (handedOff: Option<Batch>, accepted: bool, batchId: string)
      requires Valid()
      modifies this
      modifies if message.topic in batches then {batches[message.topic]} else {}
      ensures Valid()
      ensures
        var r := Processed(config, old(Value()), message, freshId);
        && accepted == r.accepted && batchId == r.batchId
        && (if handedOff.Some? then Some(handedOff.value.Value()) else None) == r.handedOff
        && Value() == (if accepted then Started(r.store, message.topic) else r.store)
        && flushRequest == (if r.full && |old(flushRequest)| < FLUSH_CAPACITY then old(flushRequest) + [message.topic]
                            else old(flushRequest))
    {
      var full: bool;
      handedOff, accepted, batchId, full := Process(message, freshId);
      if !accepted {
        return;
      }
      StartFlushTimer(message.topic);
      if full {
        FlushTopic(message.topic);
      }
    }

    // A topic's batch leaves the map and its timer is stopped.
    method Detach(topic: string) returns (batch: Batch)
      requires Valid() && topic in batches
      modifies this`batches, this`flushTimers, this`armed, this`values
      ensures Valid()
      ensures batch == old(batches)[topic] && batch.Value() == old(values)[topic]
      ensures batches == old(batches) - {topic}
      ensures Value() == Stopped(old(Value()).(batches := old(values) - {topic}), topic)
    {
      batch := batches[topic];
      batches := batches - {topic};
      values := values - {topic};
      StopFlushTimer(topic);
    }

    // The locked section of flushTopicBatch, and its test of what to send.
    method FlushTopicBatch(topic: string) returns (handedOff: Option<Batch>)
      requires Valid()
      modifies this`batches, this`flushTimers, this`armed, this`values
      ensures Valid()
      ensures Value() == Taken(old(Value()), topic)
      ensures (if handedOff.Some? then Some(handedOff.value.Value()) else None) == TakenBatch(old(Value()), topic)
      ensures handedOff.Some? ==>
                && topic in old(batches) && handedOff.value == old(batches)[topic]
                && forall t | t in batches :: batches[t] != handedOff.value
    {
      handedOff := None;
      if topic in batches {
        var batch := Detach(topic);
        if |batch.messages| > 0 {
          handedOff := Some(batch);
        }
      }
    }

    // One round of the range in flushAllBatches, which began in state s with the batches `all`
    // and has visited the topics `visited`.
    method Collect(topic: string, collected: seq<Batch>,
                   ghost s: Store, ghost all: map<string, Batch>, ghost visited: set<string>, ghost order: seq<string>)
        returns (collected': seq<Batch>, ghost order': seq<string>)
      requires Valid() && topic in batches && topic !in visited
      requires topic in s.batches && s.batches[topic] == values[topic]
      requires Value() == TakenThese(s, visited) && ListingOf(s, visited, order)
      requires topic in all && all[topic] == batches[topic] && Paired(all, order, collected)
      modifies this`batches, this`flushTimers, this`armed, this`values
      ensures Valid() && batches == old(batches) - {topic}
      ensures Value() == TakenThese(s, visited + {topic}) && ListingOf(s, visited + {topic}, order')
      ensures Paired(all, order', collected')
    {
      TakenOneMore(s, visited, topic);
      ListingExtends(s, visited, topic, order);
      collected', order' := collected, order;
      var batch := Detach(topic);
      if |batch.messages| > 0 {
        collected' := collected + [batch];
        order' := order + [topic];
      }
    }

    // The locked section of flushAllBatches. `order` is the order in which the range over
    // the map met the topics whose batches it collected.
    method FlushAllBatches() returns (handedOff: seq<Batch>, ghost order: seq<string>)
      requires Valid()
      modifies this`batches, this`flushTimers, this`armed, this`values
      ensures Valid() && batches == map[]
      ensures Value() == TakenAll(old(Value()))
      ensures Listing(old(Value()), order)
      ensures Paired(old(batches), order, handedOff)
    {
      handedOff, order := [], [];
      ghost var s := Value();
      ghost var visited: set<string> := {};
      var todo := batches.Keys;
      TakenNone(s);
      assert Visited(s, visited, todo);
      while todo != {}
        invariant Valid()
        invariant todo == batches.Keys && Visited(s, visited, todo)
        invariant batches.Keys <= s.batches.Keys && forall t | t in batches :: batches[t] == old(batches)[t]
        invariant Value() == TakenThese(s, visited)
        invariant ListingOf(s, visited, order)
        invariant Paired(old(batches), order, handedOff)
        decreases |todo|
      {
        var topic :| topic in todo;
        handedOff, order := Collect(topic, handedOff, s, old(batches), visited, order);
        VisitedOneMore(s, visited, todo, topic);
        visited := visited + {topic};
        todo := todo - {topic};
      }
      assert visited == s.batches.Keys;
      assert values == map[];
    }
  }

  ghost predicate Visited(s: Store, visited: set<string>, todo: set<string>) {
    visited == s.batches.Keys - todo
  }

  lemma VisitedOneMore(s: Store, visited: set<string>, todo: set<string>, topic: string)
    requires Visited(s, visited, todo) && topic in todo && topic in s.batches
    ensures Visited(s, visited + {topic}, todo - {topic})
  {
  }

  // The collected batches are those of the listed topics.
  ghost predicate Paired(batches: map<string, Batch>, order: seq<string>, collected: seq<Batch>) {
    && |collected| == |order|
    && forall i | 0 <= i < |order| :: order[i] in batches && collected[i] == batches[order[i]]
  }
}
