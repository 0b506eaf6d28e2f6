/**
 Messages and batches of internal/models/message.go and internal/models/batch.go. A Go string
 is a sequence of bytes; a `char` stands for one byte.
 */
module Batches {

  datatype Message = Message(id: string, topic: string, key: string, value: seq<bv8>, headers: map<string, string>)

  const OVERHEAD := 64

  const EMPTY_MESSAGE := Message("", "", "", [], map[])

  // ---------- message size ----------

  // Bytes of all header keys and values. Go ranges over the map in no fixed order.
  ghost function HeaderBytes(headers: map<string, string>): nat
    decreases |headers|
  {
    if headers == map[] then 0
    else
      var k :| k in headers;
      |k| + |headers[k]| + HeaderBytes(headers - {k})
  }

  // Any header may be counted first, so the sum does not depend on the order.
  lemma {:induction false} HeaderBytesAnyOrder(headers: map<string, string>, k: string)
    requires k in headers
    ensures HeaderBytes(headers) == |k| + |headers[k]| + HeaderBytes(headers - {k})
    decreases |headers|
  {
    var j :| j in headers && HeaderBytes(headers) == |j| + |headers[j]| + HeaderBytes(headers - {j});
    if j != k {
      HeaderBytesAnyOrder(headers - {j}, k);
      HeaderBytesAnyOrder(headers - {k}, j);
      assert headers - {j} - {k} == headers - {k} - {j};
    }
  }

  ghost function Size(m: Message): nat {
    |m.value| + |m.key| + |m.topic| + |m.id| + HeaderBytes(m.headers) + OVERHEAD
  }

  // The size starts at 64 and counts every byte of the value, the key, the topic, the identifier
  // and each header once, and nothing else. Any message can be built up in these ways.
  lemma SizeCounts(m: Message, b: bv8, c: char, k: string, v: string)
    ensures Size(EMPTY_MESSAGE) == 64
    ensures Size(m.(value := m.value + [b])) == Size(m) + 1
    ensures Size(m.(key := m.key + [c])) == Size(m) + 1
    ensures Size(m.(topic := m.topic + [c])) == Size(m) + 1
    ensures Size(m.(id := m.id + [c])) == Size(m) + 1
    ensures k !in m.headers ==> Size(m.(headers := m.headers[k := v])) == Size(m) + |k| + |v|
  {
    if k !in m.headers {
      var headers := m.headers[k := v];
      HeaderBytesAnyOrder(headers, k);
      assert headers - {k} == m.headers;
    }
  }

  ghost function TotalSize(messages: seq<Message>): nat {
    if messages == [] then 0 else TotalSize(messages[..|messages| - 1]) + Size(messages[|messages| - 1])
  }

  lemma TotalSizeAppend(messages: seq<Message>, m: Message)
    ensures TotalSize(messages + [m]) == TotalSize(messages) + Size(m)
  {
    assert (messages + [m])[..|messages|] == messages;
  }

  // Every message costs at least the fixed overhead.
  lemma {:induction false} TotalSizeAtLeast(messages: seq<Message>)
    ensures OVERHEAD * |messages| <= TotalSize(messages)
  {
    if messages != [] {
      TotalSizeAtLeast(messages[..|messages| - 1]);
    }
  }

  method CalculateMessageSize(m: Message) returns (size: nat)
    ensures size == Size(m)
  {
    size := |m.value|;
    size := size + |m.key|;
    size := size + |m.topic|;
    size := size + |m.id|;
    var rest := m.headers;
    while rest != map[]
      invariant size + HeaderBytes(rest) + OVERHEAD == Size(m)
      decreases |rest|
    {
      var k :| k in rest;
      HeaderBytesAnyOrder(rest, k);
      size := size + |k| + |rest[k]|;
      rest := rest - {k};
    }
    size := size + OVERHEAD;
  }

  // ---------- batches as values ----------

  datatype BatchValue = BatchValue(
    id: string,
    topic: string,
    messages: seq<Message>,
    totalBytes: int,
    maxMessages: int,
    maxBytes: int)

  ghost predicate Accepts(b: BatchValue, m: Message) {
    && m.topic == b.topic
    && |b.messages| < b.maxMessages
    && b.totalBytes + Size(m) <= b.maxBytes
  }

  predicate IsFull(b: BatchValue) {
    |b.messages| >= b.maxMessages || b.totalBytes >= b.maxBytes
  }

  ghost function Added(b: BatchValue, m: Message): BatchValue {
    b.(messages := b.messages + [m], totalBytes := b.totalBytes + Size(m))
  }

  // The messages are tried one after the other; those that do not fit are skipped.
  ghost function AddedAll(b: BatchValue, messages: seq<Message>): BatchValue {
    if messages == [] then b
    else
      var before, m := AddedAll(b, messages[..|messages| - 1]), messages[|messages| - 1];
      if Accepts(before, m) then Added(before, m) else before
  }

  // What every batch keeps: one topic, an exact byte count, and both limits as soon as it
  // holds a message.
  ghost predicate Sound(b: BatchValue) {
    && (forall m | m in b.messages :: m.topic == b.topic)
    && b.totalBytes == TotalSize(b.messages)
    && (b.messages != [] ==> |b.messages| <= b.maxMessages && b.totalBytes <= b.maxBytes)
  }

  lemma AddedSound(b: BatchValue, m: Message)
    requires Sound(b) && Accepts(b, m)
    ensures Sound(Added(b, m))
  {
    TotalSizeAppend(b.messages, m);
  }

  lemma {:induction false} AddedAllSound(b: BatchValue, messages: seq<Message>)
    requires Sound(b)
    ensures Sound(AddedAll(b, messages))
  {
    if messages != [] {
      var before, m := AddedAll(b, messages[..|messages| - 1]), messages[|messages| - 1];
      AddedAllSound(b, messages[..|messages| - 1]);
      if Accepts(before, m) {
        AddedSound(before, m);
      }
    }
  }

  // No message is skipped that would still fit: each one is in the batch, or too large for it.
  lemma {:induction false} AddedAllGreedy(b: BatchValue, messages: seq<Message>)
    ensures b.messages <= AddedAll(b, messages).messages
    ensures forall m | m in messages :: m in AddedAll(b, messages).messages || !Accepts(AddedAll(b, messages), m)
  {
    if messages != [] {
      var init, last := messages[..|messages| - 1], messages[|messages| - 1];
      var before := AddedAll(b, init);
      AddedAllGreedy(b, init);
      forall m | m in messages ensures m in AddedAll(b, messages).messages || !Accepts(AddedAll(b, messages), m) {
        assert m in init || m == last;
      }
    }
  }

  // A sound batch never holds more messages than their overheads fit into its byte limit.
  lemma CountBoundedByBytes(b: BatchValue)
    requires Sound(b) && b.messages != []
    ensures OVERHEAD * |b.messages| <= b.maxBytes
  {
    TotalSizeAtLeast(b.messages);
  }

  // A batch that holds something is full exactly if it is at one of its limits.
  lemma FullIff(b: BatchValue)
    requires Sound(b) && b.messages != []
    ensures IsFull(b) <==> |b.messages| == b.maxMessages || TotalSize(b.messages) == b.maxBytes
  {
  }

  // ---------- batches as objects ----------

  class Batch {
    const id: string
    const topic: string
    var messages: seq<Message>
    var totalBytes: int
    var maxMessages: int
    var maxBytes: int

    ghost function Value(): BatchValue
      reads this
    {
      BatchValue(id, topic, messages, totalBytes, maxMessages, maxBytes)
    }

    constructor (id: string, topic: string, initial: seq<Message>)
      ensures Value() == AddedAll(BatchValue(id, topic, [], 0, 100, 16384), initial)
      ensures Sound(Value())
    {
      this.id, this.topic := id, topic;
      messages, totalBytes, maxMessages, maxBytes := [], 0, 100, 16384;
      new;
      ghost var empty := Value();
      for i := 0 to |initial|
        invariant Value() == AddedAll(empty, initial[..i])
      {
        assert initial[..i + 1][..i] == initial[..i];
        var _ := AddMessage(initial[i]);
      }
      assert initial[..|initial|] == initial;
      AddedAllSound(empty, initial);
    }

    method CanAccept(message: Message) returns (ok: bool)
      ensures ok == Accepts(Value(), message)
    {
      if message.topic != topic {
        return false;
      }
      if |messages| >= maxMessages {
        return false;
      }
      var messageSize := CalculateMessageSize(message);
      if totalBytes + messageSize > maxBytes {
        return false;
      }
      ok := true;
    }

    method AddMessage(message: Message) returns (ok: bool)
      modifies this
      ensures ok == Accepts(old(Value()), message)
      ensures Value() == if ok then Added(old(Value()), message) else old(Value())
    {
      if message.topic != topic {
        return false;
      }
      ok := CanAccept(message);
      if !ok {
        return;
      }
      messages := messages + [message];
      var size := CalculateMessageSize(message);
      totalBytes := totalBytes + size;
    }

    method Reset()
      modifies this
      ensures Value() == old(Value()).(messages := [], totalBytes := 0)
      ensures Sound(Value())
    {
      messages := [];
      totalBytes := 0;
    }
  }
}
