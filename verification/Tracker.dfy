/**
 The message tracker of internal/producer/tracker.go, with the delivery receipt of
 internal/models/receipt.go. Every operation runs in one locked section and takes the time that
 it reads from the clock as a parameter.
 */
module Tracker {
  import opened Prelude

  datatype DeliveryStatus =
      Success | PartialFailure | Failed | Pending | Timeout | Cancelled | OtherStatus(name: string)

  datatype Details = Text(text: string) | ReceiptText(partition: int, offset: int, errorMessage: string)

  datatype Entry = Entry(state: DeliveryStatus, timestamp: int, details: Details)

  datatype Record = Record(
    topic: string,
    currentState: DeliveryStatus,
    createdAt: int,
    updatedAt: int,
    history: seq<Entry>)

  datatype Metadata = Metadata(
    attemptCount: int,
    retryDuration: int,
    brokerAddress: string,
    compressionType: string,
    serializedSize: int)

  datatype ReceiptValue = ReceiptValue(
    messageId: string,
    topic: string,
    partition: int,
    offset: int,
    deliveredAt: int,
    status: DeliveryStatus,
    errorMessage: string,
    metadata: Metadata)

  // ---------- what the operations do ----------

  datatype Event =
    | Track(id: string, topic: string, now: int)
    | Update(id: string, state: DeliveryStatus, details: string, now: int)
    | Receive(id: string, receipt: ReceiptValue, now: int)
    | Remove(id: string)
    | Cleanup(now: int, retention: int)

  predicate IsFinal(state: DeliveryStatus) {
    state == Success || state == Failed || state == Cancelled
  }

  predicate Expired(r: Record, now: int, retention: int) {
    r.updatedAt < now - retention && IsFinal(r.currentState)
  }

  // A bound of None keeps everything.
  function Trimmed(bound: Option<nat>, history: seq<Entry>): seq<Entry> {
    if bound.Some? && |history| > bound.value then history[|history| - bound.value..] else history
  }

  function NewRecord(topic: string, now: int): Record {
    Record(topic, Pending, now, now, [Entry(Pending, now, Text("Message queued for delivery"))])
  }

  function Noted(bound: Option<nat>, r: Record, entry: Entry, now: int): Record {
    r.(currentState := entry.state, updatedAt := now, history := Trimmed(bound, r.history + [entry]))
  }

  function ReceiptEntry(receipt: ReceiptValue): Entry {
    Entry(receipt.status, receipt.deliveredAt, ReceiptText(receipt.partition, receipt.offset, receipt.errorMessage))
  }

  function Apply(bound: Option<nat>, m: map<string, Record>, e: Event): map<string, Record> {
    match e
    case Track(id, topic, now) => m[id := NewRecord(topic, now)]
    case Update(id, state, details, now) =>
      if id in m then m[id := Noted(bound, m[id], Entry(state, now, Text(details)), now)] else m
    case Receive(id, receipt, now) =>
      if id in m then m[id := Noted(bound, m[id], ReceiptEntry(receipt), now)] else m
    case Remove(id) => m - {id}
    case Cleanup(now, retention) => map id | id in m && !Expired(m[id], now, retention) :: m[id]
  }

  function After(bound: Option<nat>, events: seq<Event>): map<string, Record> {
    if events == [] then map[] else Apply(bound, After(bound, events[..|events| - 1]), events[|events| - 1])
  }

  // ---------- the objects ----------

  class DeliveryReceipt {
    const messageId: string
    const topic: string
    const deliveredAt: int
    var partition: int
    var offset: int
    var status: DeliveryStatus
    var errorMessage: string
    var metadata: Metadata

    ghost function Value(): ReceiptValue
      reads this
    {
      ReceiptValue(messageId, topic, partition, offset, deliveredAt, status, errorMessage, metadata)
    }

    constructor (messageId: string, topic: string, partition: int, offset: int, deliveredAt: int,
                 status: DeliveryStatus, errorMessage: string, metadata: Metadata)
      ensures Value() == ReceiptValue(messageId, topic, partition, offset, deliveredAt, status, errorMessage, metadata)
    {
      this.messageId, this.topic, this.deliveredAt := messageId, topic, deliveredAt;
      this.partition, this.offset, this.status := partition, offset, status;
      this.errorMessage, this.metadata := errorMessage, metadata;
    }

    method Clone() returns (copy: DeliveryReceipt)
      ensures fresh(copy) && copy.Value() == Value()
    {
      copy := new DeliveryReceipt(messageId, topic, partition, offset, deliveredAt, status, errorMessage, metadata);
    }

    method SetError(errorMessage: string)
      modifies this
      ensures Value() == old(Value()).(errorMessage := errorMessage, status := Failed, partition := -1, offset := -1)
    {
      this.errorMessage, status := errorMessage, Failed;
      partition, offset := -1, -1;
    }
  }

  class MessageStatus {
    const messageId: string
    const topic: string
    const createdAt: int
    var currentState: DeliveryStatus
    var receipt: DeliveryReceipt?
    var updatedAt: int
    var history: seq<Entry>

    ghost function Value(): Record
      reads this
    {
      Record(topic, currentState, createdAt, updatedAt, history)
    }

    constructor (messageId: string, topic: string, now: int)
      ensures this.messageId == messageId && receipt == null && Value() == NewRecord(topic, now)
    {
      this.messageId, this.topic, createdAt := messageId, topic, now;
      currentState, receipt, updatedAt := Pending, null, now;
      history := [Entry(Pending, now, Text("Message queued for delivery"))];
    }

    constructor Copy(original: MessageStatus, receipt: DeliveryReceipt?)
      ensures messageId == original.messageId && this.receipt == receipt && Value() == original.Value()
    {
      messageId, topic, createdAt := original.messageId, original.topic, original.createdAt;
      currentState, updatedAt, history := original.currentState, original.updatedAt, original.history;
      this.receipt := receipt;
    }

    method Note(maxHistorySize: nat, entry: Entry, now: int)
      modifies this`currentState, this`updatedAt, this`history
      ensures Value() == Noted(Some(maxHistorySize), old(Value()), entry, now)
    {
      currentState, updatedAt := entry.state, now;
      history := history + [entry];
      if |history| > maxHistorySize {
        history := history[|history| - maxHistorySize..];
      }
    }
  }

  class MessageTracker {
    // Trimming to a negative size panics.
    const maxHistorySize: nat
    const retentionTime: int
    var statuses: map<string, MessageStatus>
    ghost var events: seq<Event>  // every operation so far

    ghost function Contents(): map<string, Record>
      reads this, statuses.Values
    {
      map id | id in statuses :: statuses[id].Value()
    }

    ghost predicate Valid()
      reads this, statuses.Values
    {
      && (forall id | id in statuses :: statuses[id].messageId == id)
      && Contents() == After(Some(maxHistorySize), events)
    }

    constructor (maxHistorySize: nat, retentionTime: int)
      ensures Valid() && events == [] && statuses == map[]
      ensures this.maxHistorySize == maxHistorySize && this.retentionTime == retentionTime
    {
      this.maxHistorySize, this.retentionTime := maxHistorySize, retentionTime;
      statuses, events := map[], [];
    }

    // Extends the log of operations once the table agrees with it.
    ghost method Log(e: Event, before: map<string, Record>)
      requires before == After(Some(maxHistorySize), events)
      requires forall id | id in statuses :: statuses[id].messageId == id
      requires Contents() == Apply(Some(maxHistorySize), before, e)
      modifies this`events
      ensures Valid() && events == old(events) + [e]
    {
      events := events + [e];
      assert events[..|events| - 1] == old(events);
    }

    method TrackMessage(id: string, topic: string, now: int)
      requires Valid()
      modifies this
      ensures Valid() && events == old(events) + [Track(id, topic, now)]
      ensures id in statuses && fresh(statuses[id]) && statuses[id].receipt == null
      ensures statuses == old(statuses)[id := statuses[id]]
    {
      ghost var before := Contents();
      var status := new MessageStatus(id, topic, now);
      statuses := statuses[id := status];
      Log(Track(id, topic, now), before);
    }

    method UpdateStatus(id: string, state: DeliveryStatus, details: string, now: int) returns (found: bool)
      requires Valid()
      modifies this`events, if id in statuses then {statuses[id]} else {}
      ensures Valid() && events == old(events) + [Update(id, state, details, now)]
      ensures found <==> id in statuses
      ensures found ==> statuses[id].receipt == old(statuses[id].receipt)
    {
      ghost var before := Contents();
      found := id in statuses;
      if found {
        statuses[id].Note(maxHistorySize, Entry(state, now, Text(details)), now);
      }
      Log(Update(id, state, details, now), before);
    }

    // The tracker keeps the caller's receipt, not a copy.
    method SetReceipt(id: string, receipt: DeliveryReceipt, now: int) returns (found: bool)
      requires Valid()
      modifies this`events, if id in statuses then {statuses[id]} else {}
      ensures Valid() && events == old(events) + [Receive(id, receipt.Value(), now)]
      ensures found <==> id in statuses
      ensures found ==> statuses[id].receipt == receipt
    {
      ghost var before := Contents();
      found := id in statuses;
      if found {
        var status := statuses[id];
        status.receipt := receipt;
        var details := ReceiptText(receipt.partition, receipt.offset, receipt.errorMessage);
        status.Note(maxHistorySize, Entry(receipt.status, receipt.deliveredAt, details), now);
      }
      Log(Receive(id, receipt.Value(), now), before);
    }

    // The snapshot and its receipt are new objects, so nothing that later happens to the
    // tracker's objects reaches them.
    method GetStatus(id: string) returns (snapshot: MessageStatus?)
      requires Valid()
      ensures snapshot != null <==> id in statuses
      ensures snapshot != null ==>
        && fresh(snapshot)
        && snapshot.messageId == id
        && snapshot.Value() == After(Some(maxHistorySize), events)[id]
        && (snapshot.receipt == null <==> statuses[id].receipt == null)
        && (snapshot.receipt != null ==>
              && fresh(snapshot.receipt)
              && snapshot.receipt.Value() == statuses[id].receipt.Value())
    {
      if id !in statuses {
        return null;
      }
      var original := statuses[id];
      var receipt: DeliveryReceipt? := null;
      if original.receipt != null {
        receipt := original.receipt.Clone();
      }
      assert Contents()[id] == original.Value();
      snapshot := new MessageStatus.Copy(original, receipt);
    }

    method RemoveMessage(id: string)
      requires Valid()
      modifies this
      ensures Valid() && events == old(events) + [Remove(id)]
      ensures statuses == old(statuses) - {id}
    {
      ghost var before := Contents();
      statuses := statuses - {id};
      Log(Remove(id), before);
    }

    // The identifiers to delete, found in any order.
    method FindExpired(now: int) returns (toDelete: seq<string>)
      ensures forall id :: id in toDelete <==> id in statuses && Expired(statuses[id].Value(), now, retentionTime)
    {
      toDelete := [];
      var unseen := statuses.Keys;
      while unseen != {}
        invariant unseen <= statuses.Keys
        invariant forall id :: id in toDelete <==>
          id in statuses && id !in unseen && Expired(statuses[id].Value(), now, retentionTime)
        decreases unseen
      {
        var id :| id in unseen;
        unseen := unseen - {id};
        var status := statuses[id];
        if status.updatedAt < now - retentionTime && IsFinal(status.currentState) {
          toDelete := toDelete + [id];
        }
      }
    }

    method DeleteAll(ids: seq<string>)
      modifies this`statuses
      ensures statuses == map id | id in old(statuses) && id !in ids :: old(statuses)[id]
    {
      for i := 0 to |ids|
        invariant statuses == map id | id in old(statuses) && id !in ids[..i] :: old(statuses)[id]
      {
        statuses := statuses - {ids[i]};
      }
    }

    method CleanupOldStatuses(now: int)
      requires Valid()
      modifies this
      ensures Valid() && events == old(events) + [Cleanup(now, retentionTime)]
      ensures statuses ==
              map id | id in old(statuses) && !Expired(old(statuses)[id].Value(), now, retentionTime) ::
                old(statuses)[id]
      ensures forall id | id in old(statuses) ::
                id !in statuses <==>
                  && old(statuses)[id].updatedAt < now - retentionTime
                  && old(statuses)[id].currentState in {Success, Failed, Cancelled}
    {
      ghost var before := Contents();
      var toDelete := FindExpired(now);
      DeleteAll(toDelete);
      Log(Cleanup(now, retentionTime), before);
    }
  }
}
