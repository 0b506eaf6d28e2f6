/**
 How long a batch waits. The configuration calls FlushInterval the longest time before a batch
 is sent, but every added message restarts the topic's timer. This is the coordinator at its
 most prompt: each message is processed when it arrives and its timer restarted at once, and
 each flush request is served when it is made. Only timers take time.
 */
module CoordinatorDeadline {
  import opened Arithmetic
  import opened Batches
  import opened Coordination

  // A batch that left the map: when its first and its last message were added, and when it left.
  datatype Stay = Stay(start: int, last: int, left: int, byTimer: bool)

  // One topic. The times are those of the current batch, if it holds anything.
  datatype Timed = Timed(store: Store, start: int, last: int, stays: seq<Stay>)

  datatype Arrival = Arrival(message: Message, freshId: string, time: int)

  // The topic's timer runs out before the time given, and its flush request is served.
  function Settled(s: Timed, topic: string, interval: int, now: int): Timed {
    if Current(s.store, topic) != [] && s.last + interval < now then
      s.(store := Taken(s.store, topic), stays := s.stays + [Stay(s.start, s.last, s.last + interval, true)])
    else s
  }

  // The message was processed with reply r; the timer is restarted, and a full batch flushed.
  function Answered(s: Timed, r: Reply, topic: string, now: int): Timed {
    var replaced :=
      if r.handedOff.Some? && Current(s.store, topic) != [] then [Stay(s.start, s.last, now, false)] else [];
    if !r.accepted then s.(store := r.store, stays := s.stays + replaced)
    else
      var start := if r.handedOff.Some? || Current(s.store, topic) == [] then now else s.start;
      var store := Started(r.store, topic);
      if r.full then
        Timed(Taken(store, topic), start, now, s.stays + replaced + [Stay(start, now, now, false)])
      else
        Timed(store, start, now, s.stays + replaced)
  }

  ghost function Arrived(cfg: Config, s: Timed, a: Arrival): Timed {
    Answered(s, Processed(cfg, s.store, a.message, a.freshId), a.message.topic, a.time)
  }

  ghost predicate Follows(cfg: Config, interval: int, s: Timed, a: Arrival, s': Timed) {
    s' == Arrived(cfg, Settled(s, a.message.topic, interval, a.time), a)
  }

  // A state with nothing in the map, before anything arrives.
  ghost predicate Begins(cfg: Config, s: Timed) {
    StoreSound(cfg, s.store) && s.store.batches == map[] && s.stays == []
  }

  predicate Ascending(topic: string, arrivals: seq<Arrival>) {
    && (forall i | 0 <= i < |arrivals| :: arrivals[i].message.topic == topic)
    && (forall i, j | 0 <= i < j < |arrivals| :: arrivals[i].time <= arrivals[j].time)
  }

  ghost predicate StepAt(cfg: Config, interval: int, arrivals: seq<Arrival>, states: seq<Timed>, i: nat)
    requires |states| == |arrivals| + 1 && i < |arrivals|
  {
    Follows(cfg, interval, states[i], arrivals[i], states[i + 1])
  }

  // The states that a stream of arrivals for one topic passes through.
  ghost predicate Stream(cfg: Config, interval: int, topic: string, arrivals: seq<Arrival>, states: seq<Timed>) {
    && |states| == |arrivals| + 1
    && Ascending(topic, arrivals)
    && Begins(cfg, states[0])
    && forall i | 0 <= i < |arrivals| :: StepAt(cfg, interval, arrivals, states, i)
  }

  // ---------- the times alone ----------

  datatype Clock = Clock(count: nat, start: int, last: int, stays: seq<Stay>)

  function ClockOf(s: Timed, topic: string): Clock {
    Clock(|Current(s.store, topic)|, s.start, s.last, s.stays)
  }

  function ClockSettled(c: Clock, interval: int, now: int): Clock {
    if c.count > 0 && c.last + interval < now then
      c.(count := 0, stays := c.stays + [Stay(c.start, c.last, c.last + interval, true)])
    else c
  }

  function ClockArrived(c: Clock, accepted: bool, replacing: bool, full: bool, now: int): Clock {
    var stays := c.stays + if replacing && c.count > 0 then [Stay(c.start, c.last, now, false)] else [];
    if !accepted then c.(count := 0, stays := stays)
    else
      var start := if replacing || c.count == 0 then now else c.start;
      if full then Clock(0, start, now, stays + [Stay(start, now, now, false)])
      else Clock(if replacing then 1 else c.count + 1, start, now, stays)
  }

  predicate StayBounded(interval: int, max: int, stay: Stay) {
    && stay.start <= stay.last <= stay.left <= stay.start + interval * (max - 1)
    && (stay.byTimer ==> stay.left == stay.last + interval)
  }

  // A current batch has room for another message, and its n messages came within n - 1 intervals.
  predicate InTime(interval: int, max: int, c: Clock) {
    && (c.count >= 1 ==> c.count < max && c.start <= c.last <= c.start + interval * (c.count - 1))
    && forall i | 0 <= i < |c.stays| :: StayBounded(interval, max, c.stays[i])
  }

  lemma Multiples(interval: int, n: int, max: int)
    requires interval >= 0 && 1 <= n < max
    ensures interval * (n - 1) + interval == interval * n <= interval * (max - 1)
  {
    Distribute(interval, n - 1, 1);
    Distribute(interval, n, max - 1 - n);
    MulMono(0, max - 1 - n, interval);
  }

  lemma SettledInTime(interval: int, max: int, c: Clock, now: int)
    requires interval >= 0 && InTime(interval, max, c)
    ensures InTime(interval, max, ClockSettled(c, interval, now))
    ensures ClockSettled(c, interval, now).count > 0 ==> now <= c.last + interval && ClockSettled(c, interval, now) == c
  {
    if c.count >= 1 {
      Multiples(interval, c.count, max);
    }
  }

  lemma ArrivedInTime(interval: int, max: int, c: Clock, accepted: bool, replacing: bool, full: bool, now: int)
    requires interval >= 0 && max >= 1 && InTime(interval, max, c)
    requires c.count > 0 ==> c.last <= now <= c.last + interval
    requires accepted && !full ==> (if replacing then 1 else c.count + 1) < max
    ensures InTime(interval, max, ClockArrived(c, accepted, replacing, full, now))
  {
    assert interval * (max - 1) >= 0;
    assert interval * (1 - 1) == 0;
    if c.count >= 1 {
      Multiples(interval, c.count, max);
    }
  }

  // ---------- the store follows the times ----------

  lemma SettledClock(cfg: Config, s: Timed, topic: string, interval: int, now: int)
    requires StoreSound(cfg, s.store)
    ensures StoreSound(cfg, Settled(s, topic, interval, now).store)
    ensures ClockOf(Settled(s, topic, interval, now), topic) == ClockSettled(ClockOf(s, topic), interval, now)
  {
    TakenSound(cfg, s.store, topic);
  }

  // What the times need to know of a reply.
  ghost predicate Suits(cfg: Config, before: Store, r: Reply, topic: string) {
    && StoreSound(cfg, r.store)
    && |Current(r.store, topic)| ==
         (if !r.accepted then 0 else if r.handedOff.Some? then 1 else |Current(before, topic)| + 1)
    && (r.accepted && !r.full ==> |Current(r.store, topic)| < cfg.maxMessages)
  }

  lemma ProcessedSuits(cfg: Config, s: Store, m: Message, freshId: string)
    requires StoreSound(cfg, s)
    ensures Suits(cfg, s, Processed(cfg, s, m, freshId), m.topic)
  {
    ProcessedSound(cfg, s, m, freshId);
  }

  lemma FlushedSound(cfg: Config, s: Store, topic: string)
    requires StoreSound(cfg, s)
    ensures StoreSound(cfg, Started(s, topic)) && Started(s, topic).batches == s.batches
    ensures StoreSound(cfg, Taken(Started(s, topic), topic)) && Current(Taken(Started(s, topic), topic), topic) == []
  {
    StartedSound(s, topic);
    TakenSound(cfg, Started(s, topic), topic);
  }

  lemma AnsweredClock(cfg: Config, s: Timed, r: Reply, topic: string, now: int)
    requires Suits(cfg, s.store, r, topic)
    ensures StoreSound(cfg, Answered(s, r, topic, now).store)
    ensures ClockOf(Answered(s, r, topic, now), topic) ==
            ClockArrived(ClockOf(s, topic), r.accepted, r.handedOff.Some?, r.full, now)
  {
    FlushedSound(cfg, r.store, topic);
  }

  // ---------- every stream of arrivals ----------

  ghost predicate Prompt(cfg: Config, interval: int, topic: string, s: Timed) {
    StoreSound(cfg, s.store) && InTime(interval, cfg.maxMessages, ClockOf(s, topic))
  }

  lemma OneAnswer(cfg: Config, interval: int, s: Timed, r: Reply, topic: string, now: int)
    requires interval >= 0 && cfg.maxMessages >= 1 && Prompt(cfg, interval, topic, s) && Suits(cfg, s.store, r, topic)
    requires Current(s.store, topic) != [] ==> s.last <= now <= s.last + interval
    ensures
      var s' := Answered(s, r, topic, now);
      Prompt(cfg, interval, topic, s') && (Current(s'.store, topic) != [] ==> s'.last == now)
  {
    AnsweredClock(cfg, s, r, topic, now);
    ArrivedInTime(interval, cfg.maxMessages, ClockOf(s, topic), r.accepted, r.handedOff.Some?, r.full, now);
    assert |Current(Answered(s, r, topic, now).store, topic)| == ClockOf(Answered(s, r, topic, now), topic).count;
  }

  lemma OneArrival(cfg: Config, interval: int, s: Timed, a: Arrival)
    requires interval >= 0 && cfg.maxMessages >= 1 && Prompt(cfg, interval, a.message.topic, s)
    requires Current(s.store, a.message.topic) != [] ==> s.last <= a.time
    ensures
      var s' := Arrived(cfg, Settled(s, a.message.topic, interval, a.time), a);
      Prompt(cfg, interval, a.message.topic, s') && (Current(s'.store, a.message.topic) != [] ==> s'.last == a.time)
  {
    var topic := a.message.topic;
    var s1 := Settled(s, topic, interval, a.time);
    SettledClock(cfg, s, topic, interval, a.time);
    SettledInTime(interval, cfg.maxMessages, ClockOf(s, topic), a.time);
    assert |Current(s1.store, topic)| == ClockOf(s1, topic).count;
    ProcessedSuits(cfg, s1.store, a.message, a.freshId);
    OneAnswer(cfg, interval, s1, Processed(cfg, s1.store, a.message, a.freshId), topic, a.time);
  }

  lemma {:induction false} PromptAlong(cfg: Config, interval: int, topic: string, arrivals: seq<Arrival>,
                                       states: seq<Timed>, k: nat)
    requires interval >= 0 && cfg.maxMessages >= 1 && Stream(cfg, interval, topic, arrivals, states) && k <= |arrivals|
    ensures Prompt(cfg, interval, topic, states[k])
    ensures Current(states[k].store, topic) != [] ==> k > 0 && states[k].last == arrivals[k - 1].time
  {
    if k > 0 {
      PromptAlong(cfg, interval, topic, arrivals, states, k - 1);
      var a := arrivals[k - 1];
      assert StepAt(cfg, interval, arrivals, states, k - 1);
      OneArrival(cfg, interval, states[k - 1], a);
    }
  }

  lemma PromptStay(cfg: Config, interval: int, topic: string, s: Timed, stay: Stay)
    requires Prompt(cfg, interval, topic, s) && stay in s.stays
    ensures StayBounded(interval, cfg.maxMessages, stay)
  {
    assert stay in ClockOf(s, topic).stays;
  }

  // For every stream of arrivals, no batch stays longer than MaxMessages - 1 intervals. One
  // that its timer flushes stays within one interval only if all its messages came at once.
  lemma StaysBounded(cfg: Config, interval: int, topic: string, arrivals: seq<Arrival>,
                     states: seq<Timed>, k: nat, stay: Stay)
    requires interval >= 0 && cfg.maxMessages >= 1 && Stream(cfg, interval, topic, arrivals, states)
    requires k <= |arrivals| && stay in states[k].stays
    ensures 0 <= stay.left - stay.start <= interval * (cfg.maxMessages - 1)
    ensures stay.byTimer ==> (stay.left - stay.start <= interval <==> stay.last == stay.start)
  {
    PromptAlong(cfg, interval, topic, arrivals, states, k);
    PromptStay(cfg, interval, topic, states[k], stay);
  }

  // ---------- the bound is attained ----------

  // `from`, and k steps on from there.
  function Tick(from: int, step: int, k: nat): int {
    if k == 0 then from else Tick(from, step, k - 1) + step
  }

  lemma {:induction false} TickIs(from: int, step: int, k: nat)
    ensures Tick(from, step, k) == from + step * k
  {
    if k > 0 {
      TickIs(from, step, k - 1);
      Distribute(step, k - 1, 1);
    }
  }

  // The batch holds n messages of so many bytes.
  ghost predicate Holds(s: Store, topic: string, n: nat, bytes: int) {
    if n == 0 then topic !in s.batches
    else topic in s.batches && |s.batches[topic].messages| == n && s.batches[topic].totalBytes == bytes
  }

  ghost predicate HoldsCopies(s: Store, m: Message, n: nat) {
    Holds(s, m.topic, n, Tick(0, Size(m), n))
  }

  lemma OneMore(cfg: Config, s: Store, m: Message, freshId: string, n: nat, bytes: int)
    requires StoreSound(cfg, s) && Holds(s, m.topic, n, bytes) && (n == 0 ==> bytes == 0)
    requires n + 1 < cfg.maxMessages && bytes + Size(m) < cfg.maxBytes
    ensures
      var r := Processed(cfg, s, m, freshId);
      r.accepted && r.handedOff.None? && !r.full && Holds(r.store, m.topic, n + 1, bytes + Size(m))
  {
  }

  lemma CopiesStay(s: Store, topic: string, m: Message, n: nat)
    requires HoldsCopies(s, m, n)
    ensures HoldsCopies(Started(s, topic), m, n)
  {
  }

  // n copies of a message, one interval apart, are in the batch.
  ghost predicate SteadyAt(cfg: Config, interval: int, m: Message, start: int, s: Timed, n: nat) {
    && StoreSound(cfg, s.store) && HoldsCopies(s.store, m, n)
    && (n >= 1 ==> s.start == start && s.last == Tick(start, interval, n - 1))
  }

  lemma SteadyAnswer(cfg: Config, interval: int, m: Message, start: int, s: Timed, r: Reply, n: nat)
    requires SteadyAt(cfg, interval, m, start, s, n) && Suits(cfg, s.store, r, m.topic)
    requires r.accepted && r.handedOff.None? && !r.full && HoldsCopies(r.store, m, n + 1)
    ensures
      var s' := Answered(s, r, m.topic, Tick(start, interval, n));
      SteadyAt(cfg, interval, m, start, s', n + 1) && s'.stays == s.stays
  {
    FlushedSound(cfg, r.store, m.topic);
    CopiesStay(r.store, m.topic, m, n + 1);
  }

  lemma StreamGrows(cfg: Config, interval: int, topic: string, arrivals: seq<Arrival>, states: seq<Timed>,
                    a: Arrival, s: Timed)
    requires Stream(cfg, interval, topic, arrivals, states) && a.message.topic == topic
    requires arrivals != [] ==> arrivals[|arrivals| - 1].time <= a.time
    requires Follows(cfg, interval, states[|arrivals|], a, s)
    ensures Stream(cfg, interval, topic, arrivals + [a], states + [s])
  {
    var arrivals', states' := arrivals + [a], states + [s];
    forall i | 0 <= i < |arrivals'| ensures StepAt(cfg, interval, arrivals', states', i) {
      if i < |arrivals| {
        assert StepAt(cfg, interval, arrivals, states, i);
        assert states'[i] == states[i] && arrivals'[i] == arrivals[i] && states'[i + 1] == states[i + 1];
      }
    }
  }

  lemma SteadyArrival(cfg: Config, interval: int, m: Message, id: string, start: int, s: Timed, n: nat)
    returns (a: Arrival, s': Timed)
    requires interval >= 0 && n + 1 < cfg.maxMessages && Tick(0, Size(m), n + 1) < cfg.maxBytes
    requires SteadyAt(cfg, interval, m, start, s, n)
    ensures a == Arrival(m, id, Tick(start, interval, n)) && Follows(cfg, interval, s, a, s')
    ensures SteadyAt(cfg, interval, m, start, s', n + 1) && s'.stays == s.stays
  {
    a := Arrival(m, id, Tick(start, interval, n));
    s' := Answered(s, Processed(cfg, s.store, m, id), m.topic, a.time);
    assert Settled(s, m.topic, interval, a.time) == s;
    OneMore(cfg, s.store, m, id, n, Tick(0, Size(m), n));
    ProcessedSuits(cfg, s.store, m, id);
    SteadyAnswer(cfg, interval, m, start, s, Processed(cfg, s.store, m, id), n);
  }

  lemma SteadyGrows(cfg: Config, interval: int, m: Message, id: string, start: int, n: nat,
                    arrivals: seq<Arrival>, states: seq<Timed>) returns (a: Arrival, s': Timed)
    requires interval >= 0 && n + 1 < cfg.maxMessages && Tick(0, Size(m), n + 1) < cfg.maxBytes
    requires Stream(cfg, interval, m.topic, arrivals, states) && |arrivals| == n
    requires SteadyAt(cfg, interval, m, start, states[n], n)
    requires n >= 1 ==> arrivals[n - 1].time == Tick(start, interval, n - 1)
    ensures a.time == Tick(start, interval, n) && Stream(cfg, interval, m.topic, arrivals + [a], states + [s'])
    ensures SteadyAt(cfg, interval, m, start, s', n + 1) && s'.stays == states[n].stays
  {
    a, s' := SteadyArrival(cfg, interval, m, id, start, states[n], n);
    assert n >= 1 ==> Tick(start, interval, n - 1) <= a.time;
    StreamGrows(cfg, interval, m.topic, arrivals, states, a, s');
  }

  // A stream of n copies from state s on.
  ghost predicate SteadyRun(cfg: Config, interval: int, m: Message, start: int, s: Timed, n: nat,
                            arrivals: seq<Arrival>, states: seq<Timed>) {
    && Stream(cfg, interval, m.topic, arrivals, states) && |arrivals| == n && states[0] == s
    && (n >= 1 ==> arrivals[n - 1].time == Tick(start, interval, n - 1))
    && SteadyAt(cfg, interval, m, start, states[n], n) && states[n].stays == []
  }

  lemma SteadyNext(cfg: Config, interval: int, m: Message, id: string, start: int, s: Timed, n: nat,
                   arrivals: seq<Arrival>, states: seq<Timed>) returns (a: Arrival, s': Timed)
    requires interval >= 0 && n + 1 < cfg.maxMessages && Tick(0, Size(m), n + 1) < cfg.maxBytes
    requires SteadyRun(cfg, interval, m, start, s, n, arrivals, states)
    ensures SteadyRun(cfg, interval, m, start, s, n + 1, arrivals + [a], states + [s'])
  {
    a, s' := SteadyGrows(cfg, interval, m, id, start, n, arrivals, states);
    assert (states + [s'])[n + 1] == s' && (states + [s'])[0] == states[0] && (arrivals + [a])[n] == a;
  }

  lemma {:induction false} SteadyStream(cfg: Config, interval: int, m: Message, id: string, start: int,
                                        s: Timed, n: nat)
    returns (arrivals: seq<Arrival>, states: seq<Timed>)
    requires interval >= 0 && n < cfg.maxMessages && Tick(0, Size(m), n) < cfg.maxBytes && Begins(cfg, s)
    ensures SteadyRun(cfg, interval, m, start, s, n, arrivals, states)
  {
    if n == 0 {
      arrivals, states := [], [s];
    } else {
      arrivals, states := SteadyStream(cfg, interval, m, id, start, s, n - 1);
      var a, s' := SteadyNext(cfg, interval, m, id, start, s, n - 1, arrivals, states);
      arrivals, states := arrivals + [a], states + [s'];
    }
  }

  lemma SteadyLeaves(cfg: Config, interval: int, m: Message, start: int, s: Timed, n: nat, left: int, now: int)
    requires SteadyAt(cfg, interval, m, start, s, n) && n >= 1 && s.stays == []
    requires left == Tick(start, interval, n) < now
    ensures Settled(s, m.topic, interval, now).stays == [Stay(start, left - interval, left, true)]
  {
    assert [] + [Stay(start, left - interval, left, true)] == [Stay(start, left - interval, left, true)];
  }

  // Under a steady stream of messages that fit, a batch does stay n == MaxMessages - 1 intervals.
  lemma StayAttained(cfg: Config, interval: int, m: Message, id: string, start: int, s: Timed, n: nat, now: int)
    returns (arrivals: seq<Arrival>, states: seq<Timed>)
    requires interval >= 0 && 1 <= n == cfg.maxMessages - 1 && Size(m) * n < cfg.maxBytes && Begins(cfg, s)
    requires now > start + interval * n
    ensures Stream(cfg, interval, m.topic, arrivals, states) && states[0] == s
    ensures
      var left := start + interval * n;
      Settled(states[|arrivals|], m.topic, interval, now).stays == [Stay(start, left - interval, left, true)]
  {
    TickIs(0, Size(m), n);
    TickIs(start, interval, n);
    arrivals, states := SteadyStream(cfg, interval, m, id, start, s, n);
    SteadyLeaves(cfg, interval, m, start, states[n], n, start + interval * n, now);
  }
}
