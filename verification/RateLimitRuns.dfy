/**
 Interleaved requests of one client. A request first looks its bucket up, making one if there
 is none, and checks it later under the bucket's own lock, so cleanup may drop the bucket in
 between. A step is one locked section; every bucket ever made keeps its index.
 */
module RateLimitRuns {
  import opened Prelude
  import opened RateLimit
  import opened Arithmetic
  import opened TokenBucket

  datatype System = System(
    buckets: seq<Bucket>,   // every bucket made so far
    current: Option<nat>,   // the one in the clients map
    missed: nat,            // requests whose first lookup found no bucket
    holding: seq<nat>,      // buckets held by requests that have not checked yet
    clock: int)

  datatype Step =
    | Lookup
    | Create(now: int)
    | Check(who: nat, limit: Limit, now: int)
    | Cleanup(now: int)

  function Initial(clock: int): System {
    System([], None, 0, [], clock)
  }

  predicate Enabled(s: System, step: Step) {
    match step
    case Lookup => true
    case Create(now) => s.missed > 0 && s.clock <= now
    case Check(who, limit, now) => who < |s.holding| && s.holding[who] < |s.buckets| && limit.Valid() && s.clock <= now
    case Cleanup(now) => s.clock <= now
  }

  function Next(s: System, step: Step): System
    requires Enabled(s, step)
  {
    match step
    case Lookup =>
      if s.current.Some? then s.(holding := s.holding + [s.current.value]) else s.(missed := s.missed + 1)
    case Create(now) =>
      // the map is looked up again under the write lock
      if s.current.Some? then
        s.(missed := s.missed - 1, holding := s.holding + [s.current.value], clock := now)
      else
        System(s.buckets + [Bucket(0, now)], Some(|s.buckets|), s.missed - 1, s.holding + [|s.buckets|], now)
    case Check(who, limit, now) =>
      var i := s.holding[who];
      s.(buckets := s.buckets[i := Checked(s.buckets[i], limit, now)],
         holding := s.holding[..who] + s.holding[who + 1..],
         clock := now)
    case Cleanup(now) =>
      if s.current.Some? && s.current.value < |s.buckets| &&
         s.buckets[s.current.value].lastRefill < now - CLIENT_TIMEOUT
      then s.(current := None, clock := now)
      else s.(clock := now)
  }

  predicate Leads(s: System, run: seq<Step>, s': System)
    decreases |run|
  {
    if run == [] then s' == s else Enabled(s, run[0]) && Leads(Next(s, run[0]), run[1..], s')
  }

  ghost predicate Inv(s: System) {
    && (forall i | 0 <= i < |s.buckets| :: s.buckets[i].tokens >= 0 && s.buckets[i].lastRefill <= s.clock)
    && (s.current.Some? ==> s.current.value < |s.buckets|)
    && (forall i | i in s.holding :: i < |s.buckets|)
  }

  lemma CheckedSound(b: Bucket, limit: Limit, now: int)
    requires limit.Valid() && b.tokens >= 0 && b.lastRefill <= now
    ensures Checked(b, limit, now).tokens >= 0 && b.lastRefill <= Checked(b, limit, now).lastRefill <= now
  {
  }

  lemma InvKept(s: System, step: Step)
    requires Inv(s) && Enabled(s, step)
    ensures Inv(Next(s, step)) && s.clock <= Next(s, step).clock
  {
    if step.Check? {
      var i := s.holding[step.who];
      CheckedSound(s.buckets[i], step.limit, step.now);
      HoldingShrinks(s.holding, step.who);
    }
    var s1 := Next(s, step);
    forall i | i in s1.holding
      ensures i < |s1.buckets|
    {
      if i !in s.holding {
        assert !step.Check? && s1.current == Some(i);
      }
    }
  }

  lemma HoldingShrinks(holding: seq<nat>, who: nat)
    requires who < |holding|
    ensures forall i | i in holding[..who] + holding[who + 1..] :: i in holding
  {
  }

  lemma {:induction false} InvAlong(s: System, run: seq<Step>, s': System)
    requires Inv(s) && Leads(s, run, s')
    ensures Inv(s') && s.clock <= s'.clock
    decreases |run|
  {
    if run != [] {
      InvKept(s, run[0]);
      InvAlong(Next(s, run[0]), run[1..], s');
    }
  }

  // ---------- counting grants ----------

  predicate Granted(s: System, step: Step) {
    step.Check? && Enabled(s, step) && RateLimit.Grants(s.buckets[s.holding[step.who]], step.limit, step.now)
  }

  // The check uses a bucket that cleanup has dropped since the lookup.
  predicate Stale(s: System, step: Step) {
    step.Check? && step.who < |s.holding| && s.current != Some(s.holding[step.who])
  }

  predicate InWindow(step: Step, lo: int, hi: int) {
    step.Check? && lo <= step.now <= hi
  }

  // Requests granted at times in [lo, hi], on the current bucket or on a dropped one.
  function FreshGrants(s: System, run: seq<Step>, lo: int, hi: int): nat
    decreases |run|
  {
    if run == [] || !Enabled(s, run[0]) then 0
    else
      FreshGrants(Next(s, run[0]), run[1..], lo, hi)
      + (if Granted(s, run[0]) && !Stale(s, run[0]) && InWindow(run[0], lo, hi) then 1 else 0)
  }

  function StaleGrants(s: System, run: seq<Step>, lo: int, hi: int): nat
    decreases |run|
  {
    if run == [] || !Enabled(s, run[0]) then 0
    else
      StaleGrants(Next(s, run[0]), run[1..], lo, hi)
      + (if Granted(s, run[0]) && Stale(s, run[0]) && InWindow(run[0], lo, hi) then 1 else 0)
  }

  function AllGrants(s: System, run: seq<Step>, lo: int, hi: int): nat
    decreases |run|
  {
    if run == [] || !Enabled(s, run[0]) then 0
    else
      AllGrants(Next(s, run[0]), run[1..], lo, hi)
      + (if Granted(s, run[0]) && InWindow(run[0], lo, hi) then 1 else 0)
  }

  lemma {:induction false} GrantsSplit(s: System, run: seq<Step>, lo: int, hi: int)
    ensures AllGrants(s, run, lo, hi) == FreshGrants(s, run, lo, hi) + StaleGrants(s, run, lo, hi)
    decreases |run|
  {
    if run != [] && Enabled(s, run[0]) {
      GrantsSplit(Next(s, run[0]), run[1..], lo, hi);
    }
  }

  // ---------- the potential of the current bucket ----------

  function Worth(b: Bucket, rate: int, now: int): int {
    b.tokens * SECOND + rate * (now - b.lastRefill)
  }

  // What the client could still draw, in billionths of a token.
  function Potential(s: System, rate: int): int
    requires Inv(s)
  {
    if s.current.None? then 0 else Worth(s.buckets[s.current.value], rate, s.clock)
  }

  lemma PotentialNonNegative(s: System, rate: int)
    requires Inv(s) && rate >= 0
    ensures Potential(s, rate) >= 0
  {
    if s.current.Some? {
      MulMono(0, rate, s.clock - s.buckets[s.current.value].lastRefill);
    }
  }

  // A granted token is paid for out of the bucket's worth; nothing else raises it but time.
  lemma CheckPays(b: Bucket, limit: Limit, now: int, rate: int)
    requires limit.Valid() && limit.rate <= rate && b.tokens >= 0 && b.lastRefill <= now
    ensures (if RateLimit.Grants(b, limit, now) then SECOND else 0) + Worth(Checked(b, limit, now), rate, now)
            <= Worth(b, rate, now)
  {
    RefillCredits(b, limit, now);
    MulMono(limit.rate, rate, now - b.lastRefill);
  }

  lemma WorthGrows(b: Bucket, rate: int, t: int, now: int)
    ensures Worth(b, rate, now) == Worth(b, rate, t) + rate * (now - t)
  {
    Distribute(rate, t - b.lastRefill, now - t);
  }

  predicate RatesAtMost(run: seq<Step>, rate: int) {
    forall i | 0 <= i < |run| && run[i].Check? :: run[i].limit.rate <= rate
  }

  lemma StepPays(s: System, step: Step, rate: int)
    requires Inv(s) && Enabled(s, step) && rate >= 0
    requires step.Check? ==> step.limit.rate <= rate
    ensures Inv(Next(s, step))
    ensures (if Granted(s, step) && !Stale(s, step) then SECOND else 0) + Potential(Next(s, step), rate)
            <= Potential(s, rate) + rate * (Next(s, step).clock - s.clock)
  {
    InvKept(s, step);
    var s1 := Next(s, step);
    PotentialNonNegative(s, rate);
    MulMono(0, rate, s1.clock - s.clock);
    if s.current.Some? {
      WorthGrows(s.buckets[s.current.value], rate, s.clock, s1.clock);
    }
    if step.Check? && !Stale(s, step) {
      CheckPays(s.buckets[s.current.value], step.limit, step.now, rate);
    }
  }

  // From a state with potential P on, the fresh grants up to time hi are paid for by P and
  // by the rate; limits may differ from check to check.
  lemma {:induction false} GrantsPaid(s: System, run: seq<Step>, s': System, lo: int, hi: int, rate: int)
    requires Inv(s) && Leads(s, run, s') && rate >= 0 && RatesAtMost(run, rate) && s.clock <= hi
    ensures FreshGrants(s, run, lo, hi) * SECOND <= Potential(s, rate) + rate * (hi - s.clock)
    decreases |run|
  {
    PotentialNonNegative(s, rate);
    MulMono(0, rate, hi - s.clock);
    if run != [] {
      var s1 := Next(s, run[0]);
      StepPays(s, run[0], rate);
      InvKept(s, run[0]);
      if s1.clock <= hi {
        assert RatesAtMost(run[1..], rate);
        GrantsPaid(s1, run[1..], s', lo, hi, rate);
        Distribute(rate, hi - s1.clock, s1.clock - s.clock);
      } else {
        NoGrantsAfter(s1, run[1..], s', lo, hi);
      }
    }
  }

  lemma {:induction false} NoGrantsAfter(s: System, run: seq<Step>, s': System, lo: int, hi: int)
    requires Inv(s) && Leads(s, run, s') && s.clock > hi
    ensures FreshGrants(s, run, lo, hi) == 0
    decreases |run|
  {
    if run != [] {
      InvKept(s, run[0]);
      NoGrantsAfter(Next(s, run[0]), run[1..], s', lo, hi);
    }
  }

  // ---------- sliding window ----------

  // Every check is made under one of these limits: the endpoints of a client share its bucket.
  predicate Limited(run: seq<Step>, limits: set<Limit>) {
    forall i | 0 <= i < |run| && run[i].Check? :: run[i].limit in limits
  }

  predicate Uniform(run: seq<Step>, limit: Limit) {
    Limited(run, {limit})
  }

  predicate Bounds(limits: set<Limit>, low: int, high: int, burst: int) {
    forall l | l in limits :: low <= l.rate <= high && l.burst <= burst
  }

  ghost predicate TokensAtMost(s: System, tokens: int) {
    forall i | 0 <= i < |s.buckets| :: s.buckets[i].tokens <= tokens
  }

  // The longest time that a check at this rate can leave unrefilled.
  function Leftover(rate: int): int
    requires rate >= 1
  {
    (SECOND - 1) / rate
  }

  // What unrefilled time left at the low rate is worth at the high one, but at least a token.
  function Slack(low: int, high: int): int
    requires low >= 1
  {
    if high * Leftover(low) > SECOND then high * Leftover(low) else SECOND
  }

  lemma LeftoverAtMost(low: int, high: int, rate: int, time: int)
    requires 1 <= low <= rate && 0 <= high && 0 <= time && rate * time < SECOND
    ensures high * time <= high * Leftover(low)
  {
    MulMono(low, rate, time);
    var q := Leftover(low);
    assert SECOND - 1 == low * q + (SECOND - 1) % low;
    Distribute(low, time, -q);
    MulAtLeast(time - q, low);
    MulMono(time, q, high);
  }

  lemma SlackUniform(rate: int)
    requires rate >= 1
    ensures Slack(rate, rate) == SECOND
  {
    assert SECOND - 1 == rate * Leftover(rate) + (SECOND - 1) % rate;
  }

  // A check leaves fewer tokens than the burst.
  lemma CheckedBelow(b: Bucket, limit: Limit, now: int, burst: int)
    requires limit.burst <= burst && 1 <= burst && b.tokens <= burst - 1
    ensures Checked(b, limit, now).tokens <= burst - 1
  {
  }

  // Whatever the bucket held before, what one check grants and leaves is worth less than the
  // burst and the slack together.
  lemma CheckCaps(b: Bucket, limit: Limit, now: int, low: int, high: int, burst: int)
    requires limit.Valid() && 1 <= low <= limit.rate <= high && limit.burst <= burst && 1 <= burst
    requires 0 <= b.tokens <= burst - 1 && b.lastRefill <= now
    ensures (if RateLimit.Grants(b, limit, now) then SECOND else 0) + Worth(Checked(b, limit, now), high, now)
            <= (burst - 1) * SECOND + Slack(low, high)
  {
    RefillCredits(b, limit, now);
    var c := Checked(b, limit, now);
    var spent := c.tokens + if RateLimit.Grants(b, limit, now) then 1 else 0;
    if TokensToAdd(limit, now - b.lastRefill) == 0 {
      LeftoverAtMost(low, high, limit.rate, now - b.lastRefill);
      assert spent == b.tokens && high * (now - c.lastRefill) <= Slack(low, high);
    } else {
      assert spent <= burst && high * (now - c.lastRefill) == 0 && Slack(low, high) >= SECOND;
    }
  }

  lemma {:induction false} WindowAlong(limits: set<Limit>, low: int, high: int, burst: int,
                                       s: System, run: seq<Step>, s': System, lo: int, hi: int)
    requires Bounds(limits, low, high, burst) && 1 <= low <= high && 1 <= burst && lo <= hi
    requires Inv(s) && TokensAtMost(s, burst - 1) && Leads(s, run, s') && Limited(run, limits)
    ensures FreshGrants(s, run, lo, hi) * SECOND <= (burst - 1) * SECOND + Slack(low, high) + high * (hi - lo)
    decreases |run|
  {
    MulMono(0, high, hi - lo);
    if run != [] {
      var step, s1, rest := run[0], Next(s, run[0]), run[1..];
      InvKept(s, step);
      assert Limited(rest, limits);
      if step.Check? {
        CheckedBelow(s.buckets[s.holding[step.who]], step.limit, step.now, burst);
      }
      if InWindow(step, lo, hi) && !Stale(s, step) {
        CheckCaps(s.buckets[s.current.value], step.limit, step.now, low, high, burst);
        assert RatesAtMost(rest, high);
        GrantsPaid(s1, rest, s', lo, hi, high);
        Distribute(high, hi - step.now, step.now - lo);
        MulMono(0, high, step.now - lo);
      } else {
        WindowAlong(limits, low, high, burst, s1, rest, s', lo, hi);
      }
    }
  }

  // Without a burst no bucket ever holds a token.
  lemma {:induction false} NoBurstNoGrants(limits: set<Limit>, s: System, run: seq<Step>, lo: int, hi: int)
    requires (forall l | l in limits :: l.burst <= 0) && Inv(s) && TokensAtMost(s, 0) && Limited(run, limits)
    ensures AllGrants(s, run, lo, hi) == 0
    decreases |run|
  {
    if run != [] && Enabled(s, run[0]) {
      InvKept(s, run[0]);
      NoBurstNoGrants(limits, Next(s, run[0]), run[1..], lo, hi);
    }
  }

  // ---------- grants on dropped buckets ----------

  // How many waiting requests hold bucket i.
  function Holders(holding: seq<nat>, i: nat): nat {
    multiset(holding)[i]
  }

  // Waiting requests whose bucket is no longer the client's.
  function StaleHolding(s: System): int {
    |s.holding| - (if s.current.Some? then Holders(s.holding, s.current.value) else 0)
  }

  predicate Drops(s: System, step: Step)
    requires Enabled(s, step)
  {
    step.Cleanup? && s.current.Some? && Next(s, step).current.None?
  }

  // A cleanup drops the bucket exactly if nothing was credited to it for more than half an hour.
  lemma DropsIffIdle(s: System, now: int)
    requires Inv(s) && s.current.Some? && s.clock <= now
    ensures Drops(s, Cleanup(now)) <==> now - s.buckets[s.current.value].lastRefill > 30 * 60 * SECOND
  {
  }

  // Requests that hold the bucket when a cleanup drops it, over all cleanups of the run.
  function Orphaned(s: System, run: seq<Step>): nat
    decreases |run|
  {
    if run == [] || !Enabled(s, run[0]) then 0
    else
      Orphaned(Next(s, run[0]), run[1..])
      + (if Drops(s, run[0]) then Holders(s.holding, s.current.value) else 0)
  }

  lemma HoldersAppend(holding: seq<nat>, j: nat, i: nat)
    ensures Holders(holding + [j], i) == Holders(holding, i) + (if j == i then 1 else 0)
  {
  }

  lemma HoldersRemove(holding: seq<nat>, who: nat, i: nat)
    requires who < |holding|
    ensures Holders(holding, i) ==
            Holders(holding[..who] + holding[who + 1..], i) + (if holding[who] == i then 1 else 0)
  {
    assert holding == holding[..who] + [holding[who]] + holding[who + 1..];
  }

  lemma HoldersAtMost(holding: seq<nat>, i: nat)
    ensures Holders(holding, i) <= |holding|
  {
    assert multiset(holding)[i] <= |multiset(holding)|;
  }

  lemma HoldersNone(holding: seq<nat>, i: nat)
    requires i !in holding
    ensures Holders(holding, i) == 0
  {
  }

  // A dropping cleanup makes requests stale, and only a check on a dropped bucket ends
  // that.
  lemma StaleMoves(s: System, step: Step)
    requires Inv(s) && Enabled(s, step)
    ensures StaleHolding(Next(s, step)) ==
            StaleHolding(s) + (if Drops(s, step) then Holders(s.holding, s.current.value) else 0)
            - (if Stale(s, step) then 1 else 0)
  {
    match step
    case Lookup =>
      if s.current.Some? { HoldersAppend(s.holding, s.current.value, s.current.value); }
    case Create(now) =>
      if s.current.Some? {
        HoldersAppend(s.holding, s.current.value, s.current.value);
      } else {
        HoldersAppend(s.holding, |s.buckets|, |s.buckets|);
        assert |s.buckets| !in s.holding;
        HoldersNone(s.holding, |s.buckets|);
      }
    case Check(who, _, _) =>
      if s.current.Some? { HoldersRemove(s.holding, who, s.current.value); }
    case Cleanup(_) =>
  }

  lemma {:induction false} StaleGrantsBounded(s: System, run: seq<Step>, lo: int, hi: int)
    requires Inv(s)
    ensures StaleGrants(s, run, lo, hi) <= StaleHolding(s) + Orphaned(s, run)
    decreases |run|
  {
    if s.current.Some? { HoldersAtMost(s.holding, s.current.value); }
    if run != [] && Enabled(s, run[0]) {
      InvKept(s, run[0]);
      StaleMoves(s, run[0]);
      StaleGrantsBounded(Next(s, run[0]), run[1..], lo, hi);
    }
  }

  // In every run under limits that share a bucket, with cleanup and re-creation interleaved in
  // any way, the requests granted in a window are at most the largest burst less one, the slack
  // between the rates, and the largest rate times its length, but for those granted on a bucket
  // that cleanup dropped under a waiting request; and these are no more than the requests that held
  // the bucket when it was dropped.
  lemma MixedWindow(limits: set<Limit>, low: int, high: int, burst: int,
                    clock: int, run: seq<Step>, s: System, lo: int, hi: int)
    requires Bounds(limits, low, high, burst) && 1 <= low <= high && 1 <= burst && lo <= hi
    requires Leads(Initial(clock), run, s) && Limited(run, limits)
    ensures
      var s0, bound := Initial(clock), (burst - 1) * SECOND + Slack(low, high) + high * (hi - lo);
      && (AllGrants(s0, run, lo, hi) - StaleGrants(s0, run, lo, hi)) * SECOND <= bound
      && StaleGrants(s0, run, lo, hi) <= Orphaned(s0, run)
      && (AllGrants(s0, run, lo, hi) - Orphaned(s0, run)) * SECOND <= bound
  {
    WindowAlong(limits, low, high, burst, Initial(clock), run, s, lo, hi);
    GrantsSplit(Initial(clock), run, lo, hi);
    StaleGrantsBounded(Initial(clock), run, lo, hi);
  }

  // Under one limit that is the burst and the rate times the length.
  lemma SlidingWindow(limit: Limit, clock: int, run: seq<Step>, s: System, lo: int, hi: int)
    requires limit.Valid() && Leads(Initial(clock), run, s) && Uniform(run, limit) && lo <= hi
    ensures
      var s0, bound := Initial(clock), limit.burst * SECOND + limit.rate * (hi - lo);
      && (AllGrants(s0, run, lo, hi) - StaleGrants(s0, run, lo, hi)) * SECOND <= bound
      && StaleGrants(s0, run, lo, hi) <= Orphaned(s0, run)
      && (AllGrants(s0, run, lo, hi) - Orphaned(s0, run)) * SECOND <= bound
  {
    if limit.burst == 0 {
      NoBurstNoGrants({limit}, Initial(clock), run, lo, hi);
      GrantsSplit(Initial(clock), run, lo, hi);
      MulMono(0, limit.rate, hi - lo);
    } else {
      SlackUniform(limit.rate);
      MixedWindow({limit}, limit.rate, limit.rate, limit.burst, clock, run, s, lo, hi);
    }
  }

  // Every cleanup that drops the bucket does so while no request holds it.
  predicate CalmCleanups(s: System, run: seq<Step>)
    decreases |run|
  {
    if run == [] || !Enabled(s, run[0]) then true
    else
      && (Drops(s, run[0]) ==> s.current.value !in s.holding)
      && CalmCleanups(Next(s, run[0]), run[1..])
  }

  lemma {:induction false} CalmOrphansNone(s: System, run: seq<Step>)
    requires CalmCleanups(s, run)
    ensures Orphaned(s, run) == 0
    decreases |run|
  {
    if run != [] && Enabled(s, run[0]) {
      CalmOrphansNone(Next(s, run[0]), run[1..]);
      if Drops(s, run[0]) {
        HoldersNone(s.holding, s.current.value);
      }
    }
  }

  // The full bound, for every run whose cleanups drop no bucket that a request still holds.
  lemma SlidingWindowWhenCalm(limit: Limit, clock: int, run: seq<Step>, s: System, lo: int, hi: int)
    requires limit.Valid() && Leads(Initial(clock), run, s) && Uniform(run, limit) && lo <= hi
    requires CalmCleanups(Initial(clock), run)
    ensures AllGrants(Initial(clock), run, lo, hi) * SECOND <= limit.burst * SECOND + limit.rate * (hi - lo)
  {
    SlidingWindow(limit, clock, run, s, lo, hi);
    CalmOrphansNone(Initial(clock), run);
  }

  // ---------- since the first bucket was made ----------

  // A first bucket was made at time t0, while `waiting` other requests had found none.
  function FirstCreated(t0: int, waiting: nat): System {
    System([Bucket(0, t0)], Some(0), waiting, [0], t0)
  }

  // Buckets are keyed by client alone, so endpoints with different limits draw on one bucket.
  // Still, after a first bucket made at time t0 the grants up to time hi are bounded by the
  // largest rate times hi - t0, since a fresh bucket starts empty and no burst is given away;
  // again but for grants on dropped buckets.
  lemma SinceCreation(t0: int, waiting: nat, run: seq<Step>, s: System, rate: int, hi: int)
    requires rate >= 0 && RatesAtMost(run, rate) && t0 <= hi
    requires Leads(FirstCreated(t0, waiting), run, s)
    ensures
      var s0 := FirstCreated(t0, waiting);
      && (AllGrants(s0, run, t0, hi) - StaleGrants(s0, run, t0, hi)) * SECOND <= rate * (hi - t0)
      && StaleGrants(s0, run, t0, hi) <= Orphaned(s0, run)
      && (AllGrants(s0, run, t0, hi) - Orphaned(s0, run)) * SECOND <= rate * (hi - t0)
  {
    var s0 := FirstCreated(t0, waiting);
    assert Inv(s0);
    assert Potential(s0, rate) == 0;
    GrantsPaid(s0, run, s, t0, hi, rate);
    GrantsSplit(s0, run, t0, hi);
    StaleGrantsBounded(s0, run, t0, hi);
    assert StaleHolding(s0) == 0;
  }

  // The full bound, for every run whose cleanups drop no bucket that a request still holds.
  lemma SinceCreationWhenCalm(t0: int, waiting: nat, run: seq<Step>, s: System, rate: int, hi: int)
    requires rate >= 0 && RatesAtMost(run, rate) && t0 <= hi
    requires Leads(FirstCreated(t0, waiting), run, s) && CalmCleanups(FirstCreated(t0, waiting), run)
    ensures AllGrants(FirstCreated(t0, waiting), run, t0, hi) * SECOND <= rate * (hi - t0)
  {
    SinceCreation(t0, waiting, run, s, rate, hi);
    CalmOrphansNone(FirstCreated(t0, waiting), run);
  }
}
