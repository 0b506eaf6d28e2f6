/** What internal/producer/tracker.go promises over any run of its operations. */
module TrackerRuns {
  import opened Prelude
  import opened Tracker

  // ---------- the bounded history refines the full log ----------

  function LastOf(limit: nat, log: seq<Entry>): seq<Entry> {
    if |log| <= limit then log else log[|log| - limit..]
  }

  // The history kept under a limit. The entry that starts a message is trimmed only by the
  // next update, which shows when the limit is 0.
  function Kept(limit: nat, log: seq<Entry>): seq<Entry> {
    if |log| == 1 then log else LastOf(limit, log)
  }

  // The same message in the bounded table and in the one that forgets nothing.
  predicate Refines(limit: nat, bounded: Record, full: Record) {
    && bounded == full.(history := bounded.history)
    && |full.history| >= 1
    && bounded.history == Kept(limit, full.history)
    && full.currentState == full.history[|full.history| - 1].state
  }

  predicate TableRefines(limit: nat, bounded: map<string, Record>, full: map<string, Record>) {
    bounded.Keys == full.Keys && forall id | id in full :: Refines(limit, bounded[id], full[id])
  }

  lemma KeptExtends(limit: nat, log: seq<Entry>, entry: Entry)
    requires |log| >= 1
    ensures Trimmed(Some(limit), Kept(limit, log) + [entry]) == Kept(limit, log + [entry])
  {
    var kept := Kept(limit, log) + [entry];
    var drop := |log| - |Kept(limit, log)|;
    assert kept == (log + [entry])[drop..];
  }

  lemma NotedRefines(limit: nat, bounded: Record, full: Record, entry: Entry, now: int)
    requires Refines(limit, bounded, full)
    ensures Refines(limit, Noted(Some(limit), bounded, entry, now), Noted(None, full, entry, now))
  {
    KeptExtends(limit, full.history, entry);
  }

  lemma StepRefines(limit: nat, bounded: map<string, Record>, full: map<string, Record>, e: Event)
    requires TableRefines(limit, bounded, full)
    ensures TableRefines(limit, Apply(Some(limit), bounded, e), Apply(None, full, e))
  {
    match e
    case Update(id, state, details, now) =>
      if id in full {
        NotedRefines(limit, bounded[id], full[id], Entry(state, now, Text(details)), now);
      }
    case Receive(id, receipt, now) =>
      if id in full {
        NotedRefines(limit, bounded[id], full[id], ReceiptEntry(receipt), now);
      }
    case _ =>
  }

  // After any run the table tracks the same messages as the unbounded one, each with the same
  // times and state, and with the last entries of its full log.
  lemma {:induction false} HistoryRefinesLog(limit: nat, events: seq<Event>)
    ensures TableRefines(limit, After(Some(limit), events), After(None, events))
  {
    if events != [] {
      HistoryRefinesLog(limit, events[..|events| - 1]);
      StepRefines(limit, After(Some(limit), events[..|events| - 1]), After(None, events[..|events| - 1]),
                  events[|events| - 1]);
    }
  }

  // With a limit of at least 1 the history is never empty, never over the limit, ends in the
  // current state, and is a suffix of the log that is short of the limit only if it is all of it.
  predicate WellKept(limit: nat, r: Record, log: seq<Entry>) {
    && 1 <= |r.history| <= limit
    && r.history[|r.history| - 1].state == r.currentState
    && |r.history| <= |log|
    && r.history == log[|log| - |r.history|..]
    && (|r.history| < limit ==> r.history == log)
  }

  lemma RefinesWellKept(limit: nat, bounded: Record, full: Record)
    requires limit >= 1 && Refines(limit, bounded, full)
    ensures WellKept(limit, bounded, full.history)
  {
    var log := full.history;
    assert log[|log| - |bounded.history|..] == bounded.history;
  }

  lemma HistoryBounds(limit: nat, events: seq<Event>, id: string)
    requires limit >= 1 && id in After(Some(limit), events)
    ensures id in After(None, events)
    ensures WellKept(limit, After(Some(limit), events)[id], After(None, events)[id].history)
  {
    HistoryRefinesLog(limit, events);
    RefinesWellKept(limit, After(Some(limit), events)[id], After(None, events)[id]);
  }

  // ---------- what is known of a message ----------

  predicate Starts(e: Event, id: string) {
    e.Track? && e.id == id
  }

  // The event says something of the message: a start, an update or a receipt.
  predicate Tells(e: Event, id: string) {
    (e.Track? || e.Update? || e.Receive?) && e.id == id
  }

  function StateTold(e: Event): DeliveryStatus
    requires e.Track? || e.Update? || e.Receive?
  {
    match e
    case Track(_, _, _) => Pending
    case Update(_, state, _, _) => state
    case Receive(_, receipt, _) => receipt.status
  }

  // The last event that satisfies p, or -1.
  function LastWhere(events: seq<Event>, p: Event -> bool): (i: int)
    ensures -1 <= i < |events| && (i >= 0 ==> p(events[i]))
    ensures forall j | i < j < |events| :: !p(events[j])
  {
    if events == [] then -1
    else if p(events[|events| - 1]) then |events| - 1
    else LastWhere(events[..|events| - 1], p)
  }

  function LastStart(events: seq<Event>, id: string): int {
    LastWhere(events, (e: Event) => Starts(e, id))
  }

  function LastTold(events: seq<Event>, id: string): int {
    LastWhere(events, (e: Event) => Tells(e, id))
  }

  // A tracked message has the topic and creation time of its last start, and the state and update
  // time of the last event that tells of it, which is no earlier.
  ghost predicate Known(r: Record, events: seq<Event>, id: string) {
    var i, j := LastStart(events, id), LastTold(events, id);
    && 0 <= i <= j
    && Starts(events[i], id) && r.topic == events[i].topic && r.createdAt == events[i].now
    && Tells(events[j], id) && r.updatedAt == events[j].now && r.currentState == StateTold(events[j])
  }

  lemma {:induction false} RecordTells(bound: Option<nat>, events: seq<Event>, id: string)
    requires id in After(bound, events)
    ensures Known(After(bound, events)[id], events, id)
  {
    var init, e := events[..|events| - 1], events[|events| - 1];
    if !Starts(e, id) {
      RecordTells(bound, init, id);
    }
  }

  // The entries that the events have made of the message since its last start.
  function Story(events: seq<Event>, id: string): seq<Entry> {
    if events == [] then []
    else
      var before, e := Story(events[..|events| - 1], id), events[|events| - 1];
      if !Tells(e, id) then before
      else
        match e
        case Track(_, _, now) => [Entry(Pending, now, Text("Message queued for delivery"))]
        case Update(_, state, details, now) => before + [Entry(state, now, Text(details))]
        case Receive(_, receipt, _) =>
          var details := ReceiptText(receipt.partition, receipt.offset, receipt.errorMessage);
          before + [Entry(receipt.status, receipt.deliveredAt, details)]
  }

  lemma {:induction false} LogIsStory(events: seq<Event>, id: string)
    requires id in After(None, events)
    ensures After(None, events)[id].history == Story(events, id)
  {
    var init, e := events[..|events| - 1], events[|events| - 1];
    if !Starts(e, id) {
      LogIsStory(init, id);
    }
  }

  // So the history of a tracked message is the end of its story.
  lemma HistoryIsStory(limit: nat, events: seq<Event>, id: string)
    requires id in After(Some(limit), events)
    ensures After(Some(limit), events)[id].history == Kept(limit, Story(events, id))
  {
    HistoryRefinesLog(limit, events);
    LogIsStory(events, id);
  }

  // ---------- which messages are tracked ----------

  // At the cleanup the last event that told of the message was before the cutoff, and final.
  predicate OutOfDate(events: seq<Event>, id: string, now: int, retention: int) {
    var j := LastTold(events, id);
    j >= 0 && events[j].now < now - retention && StateTold(events[j]) in {Success, Failed, Cancelled}
  }

  // Event j drops the message if it is tracked.
  predicate DroppedAt(events: seq<Event>, id: string, j: nat)
    requires j < |events|
  {
    match events[j]
    case Remove(other) => other == id
    case Cleanup(now, retention) => OutOfDate(events[..j], id, now, retention)
    case _ => false
  }

  // A cleanup drops a tracked message exactly if it is out of date.
  lemma CleanupDrops(bound: Option<nat>, events: seq<Event>, id: string, now: int, retention: int)
    requires id in After(bound, events)
    ensures id !in Apply(bound, After(bound, events), Cleanup(now, retention)) <==>
            OutOfDate(events, id, now, retention)
  {
    RecordTells(bound, events, id);
  }

  predicate StartedAndKept(events: seq<Event>, id: string, i: nat) {
    && i < |events|
    && Starts(events[i], id)
    && forall j | i < j < |events| :: !DroppedAt(events, id, j)
  }

  lemma StartExtends(events: seq<Event>, id: string, i: nat)
    requires |events| >= 1 && i < |events| - 1
    ensures StartedAndKept(events, id, i) <==>
            StartedAndKept(events[..|events| - 1], id, i) && !DroppedAt(events, id, |events| - 1)
  {
    var init := events[..|events| - 1];
    forall j | i < j < |init| ensures DroppedAt(init, id, j) <==> DroppedAt(events, id, j) {
      assert init[..j] == events[..j] && init[j] == events[j];
    }
  }

  // A message is tracked exactly if some call started tracking it and nothing since then
  // removed it or found it final and out of date.
  lemma {:induction false} TrackedIff(bound: Option<nat>, events: seq<Event>, id: string)
    ensures id in After(bound, events) <==> exists i: nat :: StartedAndKept(events, id, i)
  {
    if events != [] {
      var init, e := events[..|events| - 1], events[|events| - 1];
      TrackedIff(bound, init, id);
      forall i: nat | i < |events| - 1
        ensures StartedAndKept(events, id, i) <==>
                StartedAndKept(init, id, i) && !DroppedAt(events, id, |events| - 1)
      {
        StartExtends(events, id, i);
      }
      if Starts(e, id) {
        assert StartedAndKept(events, id, |events| - 1);
      } else {
        assert id in After(bound, events) <==> id in After(bound, init) && !DroppedAt(events, id, |events| - 1) by {
          if e.Cleanup? && id in After(bound, init) {
            CleanupDrops(bound, init, id, e.now, e.retention);
          }
        }
      }
    }
  }

  // ---------- messages do not interfere ----------

  predicate Concerns(e: Event, id: string) {
    e.Cleanup? || e.id == id
  }

  function Concerning(events: seq<Event>, id: string): seq<Event> {
    if events == [] then []
    else
      var e := events[|events| - 1];
      Concerning(events[..|events| - 1], id) + (if Concerns(e, id) then [e] else [])
  }

  predicate SameAt(m: map<string, Record>, m': map<string, Record>, id: string) {
    if id in m then id in m' && m'[id] == m[id] else id !in m'
  }

  lemma SameStep(bound: Option<nat>, m: map<string, Record>, m': map<string, Record>, e: Event, id: string)
    requires SameAt(m, m', id)
    ensures SameAt(Apply(bound, m, e), if Concerns(e, id) then Apply(bound, m', e) else m', id)
  {
  }

  // What is known of a message depends only on the operations on it and the cleanups.
  lemma {:induction false} Independent(bound: Option<nat>, events: seq<Event>, id: string)
    ensures SameAt(After(bound, events), After(bound, Concerning(events, id)), id)
  {
    if events != [] {
      var init, e := events[..|events| - 1], events[|events| - 1];
      Independent(bound, init, id);
      var own := Concerning(init, id);
      SameStep(bound, After(bound, init), After(bound, own), e, id);
      assert (own + [e])[..|own + [e]| - 1] == own;
      assert own + [] == own;
    }
  }

  // ---------- snapshots ----------

  // One further operation, of any kind.
  method Operate(t: MessageTracker, e: Event, receipt: DeliveryReceipt)
    requires t.Valid()
    modifies t, t.statuses.Values
    ensures t.Valid()
    ensures forall s | s in t.statuses.Values :: s in old(t.statuses.Values) || fresh(s)
    ensures forall id | id in t.statuses && (e.Cleanup? || e.id != id) ::
              id in old(t.statuses) && t.statuses[id] == old(t.statuses[id]) && unchanged(t.statuses[id])
  {
    match e
    case Track(id, topic, now) => t.TrackMessage(id, topic, now);
    case Update(id, state, details, now) => var _ := t.UpdateStatus(id, state, details, now);
    case Receive(id, _, now) => var _ := t.SetReceipt(id, receipt, now);
    case Remove(id) => t.RemoveMessage(id);
    case Cleanup(now, _) => t.CleanupOldStatuses(now);
  }

  // A snapshot stays what it was through any further operations on the tracker.
  method SnapshotStands(t: MessageTracker, id: string, run: seq<Event>, receipt: DeliveryReceipt)
    returns (snapshot: MessageStatus)
    requires t.Valid() && id in t.statuses
    modifies t, t.statuses.Values
    ensures snapshot.Value() == old(t.statuses[id].Value())
    ensures snapshot.receipt == null <==> old(t.statuses[id].receipt) == null
    ensures snapshot.receipt != null ==> snapshot.receipt.Value() == old(t.statuses[id].receipt.Value())
  {
    assert t.Contents()[id] == t.statuses[id].Value();
    snapshot := t.GetStatus(id);
    label taken:
    for i := 0 to |run|
      invariant t.Valid()
      invariant forall s | s in t.statuses.Values :: s in old(t.statuses.Values) || fresh@taken(s)
      invariant unchanged@taken(snapshot) && (snapshot.receipt != null ==> unchanged@taken(snapshot.receipt))
    {
      Operate(t, run[i], receipt);
    }
  }

  // Operations that do not name the message leave it as it is, or a cleanup forgets it.
  method OperateElsewhere(t: MessageTracker, id: string, run: seq<Event>, receipt: DeliveryReceipt)
    requires t.Valid() && forall e | e in run :: e.Cleanup? || e.id != id
    modifies t, t.statuses.Values
    ensures t.Valid()
    ensures id in t.statuses ==>
              id in old(t.statuses) && t.statuses[id] == old(t.statuses[id]) && unchanged(t.statuses[id])
  {
    for i := 0 to |run|
      invariant t.Valid()
      invariant forall s | s in t.statuses.Values :: s in old(t.statuses.Values) || fresh(s)
      invariant id in t.statuses ==>
                  id in old(t.statuses) && t.statuses[id] == old(t.statuses[id]) && unchanged(t.statuses[id])
    {
      Operate(t, run[i], receipt);
    }
  }

  // The caller keeps the receipt that it handed in, and may change it at any time. After a
  // SetReceipt, as long as no further operation concerns the message, a snapshot's state agrees
  // with its receipt exactly if the caller's receipt still has, or has again, the status that it
  // had when it was handed in.
  method ReceiptAgreement(t: MessageTracker, id: string, receipt: DeliveryReceipt, now: int, run: seq<Event>,
                          other: DeliveryReceipt, later: DeliveryStatus)
    returns (snapshot: MessageStatus?)
    requires t.Valid() && id in t.statuses && forall e | e in run :: e.Cleanup? || e.id != id
    modifies t, t.statuses.Values, receipt`status
    ensures snapshot != null ==>
      && snapshot.receipt != null && snapshot.receipt.status == receipt.status == later
      && (snapshot.currentState == snapshot.receipt.status <==> later == old(receipt.status))
  {
    var _ := t.SetReceipt(id, receipt, now);
    assert t.statuses[id].currentState == receipt.status by {
      assert t.Contents()[id].currentState == receipt.status;
    }
    OperateElsewhere(t, id, run, other);
    receipt.status := later;
    assert t.Valid();
    snapshot := t.GetStatus(id);
    assert id in t.statuses ==> t.Contents()[id] == t.statuses[id].Value();
  }

  // The caller keeps the receipt that it handed in. Marking it failed afterwards changes the
  // receipt in every later snapshot, while the tracked state stays what it was.
  method ReceiptShared(t: MessageTracker, id: string, receipt: DeliveryReceipt, now: int)
    returns (snapshot: MessageStatus)
    requires t.Valid() && id in t.statuses && receipt.status == Success
    modifies t`events, t.statuses[id], receipt
    ensures snapshot.receipt != null && snapshot.receipt.status == Failed && snapshot.receipt.partition == -1
    ensures snapshot.currentState == Success
  {
    var _ := t.SetReceipt(id, receipt, now);
    assert t.statuses[id].currentState == Success by {
      assert t.Contents()[id].currentState == Success;
    }
    receipt.SetError("late failure");
    assert t.Valid();
    snapshot := t.GetStatus(id);
  }
}
