/** The sticky strategy of internal/partitioner/strategies.go. */
module Sticky {
  import opened Partitioner

  datatype Config = Config(switchThreshold: int, switchInterval: int)

  datatype State = State(currentPartition: int, messageCount: int, lastSwitch: int)

  // One call: the partitions there are, the draw among them should it switch, and the two clock
  // readings, of the test of the interval and of the switch.
  datatype Call = Call(numPartitions: int, draw: int, now: int, switched: int) {
    predicate Valid() {
      0 <= draw < numPartitions
    }
  }

  predicate Switches(c: Config, s: State, call: Call)
    requires Int64(s.messageCount)
  {
    || (c.switchThreshold > 0 && Rem(Add64(s.messageCount, 1), c.switchThreshold) == 0)
    || (c.switchInterval > 0 && call.now - s.lastSwitch >= c.switchInterval)
  }

  function Called(c: Config, s: State, call: Call): (s': State)
    requires Int64(s.messageCount)
    ensures Int64(s'.messageCount)
  {
    var count := Add64(s.messageCount, 1);
    if Switches(c, s, call) then State(call.draw, count, call.switched) else s.(messageCount := count)
  }

  class StickyPartitioner {
    const config: Config
    var currentPartition: int
    var messageCount: int
    var lastSwitch: int

    ghost function Value(): State
      reads this
    {
      State(currentPartition, messageCount, lastSwitch)
    }

    constructor (config: Config, now: int)
      ensures this.config == config && Value() == State(0, 0, now)
    {
      this.config, currentPartition, messageCount, lastSwitch := config, 0, 0, now;
    }

    method GetPartition(call: Call) returns (partition: int)
      requires call.Valid() && Int64(messageCount)
      modifies this
      ensures Int64(messageCount) && Value() == Called(config, old(Value()), call)
      ensures partition == currentPartition
    {
      var count := Add64(messageCount, 1);
      messageCount := count;
      var shouldSwitch := false;
      if config.switchThreshold > 0 && Rem(count, config.switchThreshold) == 0 {
        shouldSwitch := true;
      }
      if config.switchInterval > 0 && call.now - lastSwitch >= config.switchInterval {
        shouldSwitch := true;
      }
      if shouldSwitch {
        currentPartition, lastSwitch := call.draw, call.switched;
      }
      return currentPartition;
    }
  }

  // ---------- runs ----------

  function CalledAll(c: Config, s: State, calls: seq<Call>): (s': State)
    requires Int64(s.messageCount)
    ensures Int64(s'.messageCount)
  {
    if calls == [] then s else Called(c, CalledAll(c, s, calls[..|calls| - 1]), calls[|calls| - 1])
  }

  predicate SwitchesAt(c: Config, s: State, calls: seq<Call>, i: nat)
    requires Int64(s.messageCount) && i < |calls|
  {
    Switches(c, CalledAll(c, s, calls[..i]), calls[i])
  }

  // The last of the first n calls that switches, or -1 if none does.
  function LastSwitch(c: Config, s: State, calls: seq<Call>, n: nat): (i: int)
    requires Int64(s.messageCount) && n <= |calls|
    ensures -1 <= i < n && (i >= 0 ==> SwitchesAt(c, s, calls, i))
    ensures forall j | i < j < n :: !SwitchesAt(c, s, calls, j)
  {
    if n == 0 then -1 else if SwitchesAt(c, s, calls, n - 1) then n - 1 else LastSwitch(c, s, calls, n - 1)
  }

  // The draw of the last call that switches, or else the partition to begin with.
  function LastDraw(c: Config, s: State, calls: seq<Call>): int
    requires Int64(s.messageCount)
  {
    var i := LastSwitch(c, s, calls, |calls|);
    if i < 0 then s.currentPartition else calls[i].draw
  }

  lemma {:induction false} KeptSince(c: Config, s: State, calls: seq<Call>, from: nat)
    requires Int64(s.messageCount) && from <= |calls|
    requires forall j | from <= j < |calls| :: !SwitchesAt(c, s, calls, j)
    ensures CalledAll(c, s, calls).currentPartition == CalledAll(c, s, calls[..from]).currentPartition
    decreases |calls|
  {
    if from == |calls| {
      assert calls[..from] == calls;
    } else {
      var init := calls[..|calls| - 1];
      assert !SwitchesAt(c, s, calls, |calls| - 1);
      forall j | from <= j < |init| ensures !SwitchesAt(c, s, init, j) {
        assert init[..j] == calls[..j] && !SwitchesAt(c, s, calls, j);
      }
      KeptSince(c, s, init, from);
      assert init[..from] == calls[..from];
    }
  }

  // The last call of a run returns the draw of the last call that switched, or the partition to
  // begin with if none did. So its partition exists exactly if that is still below the number of
  // partitions, which may have shrunk. A new partitioner begins with partition 0.
  lemma StickyToLastSwitch(c: Config, s: State, calls: seq<Call>)
    requires Int64(s.messageCount) && s.currentPartition >= 0
    requires calls != [] && forall k | 0 <= k < |calls| :: calls[k].Valid()
    ensures
      var partition, p := CalledAll(c, s, calls).currentPartition, calls[|calls| - 1].numPartitions;
      && partition == LastDraw(c, s, calls)
      && (0 <= partition < p <==> LastDraw(c, s, calls) < p)
      && (s.currentPartition == 0 && (forall k | 0 <= k < |calls| :: calls[k].numPartitions <= p) ==>
            0 <= partition < p)
  {
    var i := LastSwitch(c, s, calls, |calls|);
    KeptSince(c, s, calls, i + 1);
    if i >= 0 {
      assert calls[..i + 1][..i] == calls[..i];
      assert CalledAll(c, s, calls[..i + 1]) == Called(c, CalledAll(c, s, calls[..i]), calls[i]);
    }
  }

  lemma {:induction false} CountAfter(c: Config, s: State, calls: seq<Call>)
    requires Int64(s.messageCount) && Int64(s.messageCount + |calls|)
    ensures CalledAll(c, s, calls).messageCount == s.messageCount + |calls|
  {
    if calls != [] {
      CountAfter(c, s, calls[..|calls| - 1]);
    }
  }

  // The time of the last call that switches, or else that of the start.
  function LastTime(c: Config, s: State, calls: seq<Call>): int
    requires Int64(s.messageCount)
  {
    var i := LastSwitch(c, s, calls, |calls|);
    if i < 0 then s.lastSwitch else calls[i].switched
  }

  lemma {:induction false} LastSwitchInit(c: Config, s: State, calls: seq<Call>, n: nat)
    requires Int64(s.messageCount) && n < |calls|
    ensures LastSwitch(c, s, calls, n) == LastSwitch(c, s, calls[..n], n)
  {
    LastSwitchPrefix(c, s, calls, calls[..n], n);
  }

  lemma {:induction false} LastSwitchPrefix(c: Config, s: State, calls: seq<Call>, prefix: seq<Call>, n: nat)
    requires Int64(s.messageCount) && n <= |prefix| && prefix <= calls
    ensures LastSwitch(c, s, calls, n) == LastSwitch(c, s, prefix, n)
  {
    if n > 0 {
      LastSwitchPrefix(c, s, calls, prefix, n - 1);
      assert calls[..n - 1] == prefix[..n - 1];
    }
  }

  lemma {:induction false} TimeKept(c: Config, s: State, calls: seq<Call>)
    requires Int64(s.messageCount)
    ensures CalledAll(c, s, calls).lastSwitch == LastTime(c, s, calls)
  {
    if calls != [] {
      var n := |calls| - 1;
      TimeKept(c, s, calls[..n]);
      LastSwitchInit(c, s, calls, n);
    }
  }

  // A call switches exactly if its running number is a multiple of the threshold, or the interval
  // has passed since the last call that switched; a setting that is not positive is off.
  lemma SwitchesIff(c: Config, s: State, calls: seq<Call>, i: nat)
    requires i < |calls| && 0 <= s.messageCount && Int64(s.messageCount + |calls|)
    ensures SwitchesAt(c, s, calls, i) <==>
            || (c.switchThreshold > 0 && (s.messageCount + i + 1) % c.switchThreshold == 0)
            || (c.switchInterval > 0 && LastTime(c, s, calls[..i]) + c.switchInterval <= calls[i].now)
  {
    CountAfter(c, s, calls[..i]);
    TimeKept(c, s, calls[..i]);
  }

  // Without an interval, the calls that switch are exactly those whose running number is a
  // multiple of the threshold, whatever the clock and the draws.
  lemma SwitchesByCount(c: Config, s: State, calls: seq<Call>, i: nat)
    requires i < |calls| && 0 <= s.messageCount && Int64(s.messageCount + |calls|)
    requires c.switchInterval <= 0 && c.switchThreshold > 0
    ensures SwitchesAt(c, s, calls, i) <==> (s.messageCount + i + 1) % c.switchThreshold == 0
  {
    CountAfter(c, s, calls[..i]);
  }
}
