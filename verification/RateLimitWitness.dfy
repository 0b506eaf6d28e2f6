/**
 Runs that reach what the bounds of RateLimitRuns allow for: endpoints with different limits on
 one bucket, and a cleanup that drops a bucket under waiting requests, so that several buckets
 serve one client.
 */
module RateLimitWitness {
  import opened Prelude
  import opened RateLimit
  import opened RateLimitRuns
  import opened TokenBucket
  import opened Arithmetic

  // A run under these limits, where it ends, and how many requests it grants within [lo, hi].
  datatype Script = Script(
    limits: set<Limit>,
    lo: int,
    hi: int,
    start: System,
    run: seq<Step>,
    end: System,
    grants: int)
  {
    ghost predicate Valid() {
      && Leads(start, run, end) && Limited(run, limits)
      && AllGrants(start, run, lo, hi) == grants
    }
  }

  // 1 if the step is a check that counts.
  function Counted(p: Script, step: Step): int {
    if Granted(p.end, step) && InWindow(step, p.lo, p.hi) then 1 else 0
  }

  lemma {:induction false} RunExtended(s: System, run: seq<Step>, s': System, step: Step, lo: int, hi: int)
    requires Leads(s, run, s') && Enabled(s', step)
    ensures Leads(s, run + [step], Next(s', step))
    ensures AllGrants(s, run + [step], lo, hi) ==
            AllGrants(s, run, lo, hi) + (if Granted(s', step) && InWindow(step, lo, hi) then 1 else 0)
    decreases |run|
  {
    if run == [] {
      assert [] + [step] == [step];
      assert Leads(Next(s', step), [], Next(s', step)) && [step][1..] == [];
      assert AllGrants(Next(s', step), [], lo, hi) == 0;
    } else {
      RunExtended(Next(s, run[0]), run[1..], s', step, lo, hi);
      assert (run + [step])[1..] == run[1..] + [step];
    }
  }

  lemma Do(p: Script, step: Step) returns (p': Script)
    requires p.Valid() && Enabled(p.end, step) && (step.Check? ==> step.limit in p.limits)
    ensures p'.Valid()
    ensures p' == p.(run := p.run + [step], end := Next(p.end, step), grants := p.grants + Counted(p, step))
  {
    RunExtended(p.start, p.run, p.end, step, p.lo, p.hi);
    p' := p.(run := p.run + [step], end := Next(p.end, step), grants := p.grants + Counted(p, step));
  }

  // k requests that wait with bucket i.
  function Waits(i: nat, k: nat): seq<nat> {
    seq(k, _ => i)
  }

  lemma {:induction false} CountWaits(i: nat, k: nat, j: nat)
    ensures Holders(Waits(i, k), j) == if j == i then k else 0
  {
    if k > 0 {
      CountWaits(i, k - 1, j);
      assert Waits(i, k) == Waits(i, k - 1) + [i];
      HoldersAppend(Waits(i, k - 1), i, j);
    }
  }

  lemma HoldersConcat(xs: seq<nat>, ys: seq<nat>, i: nat)
    ensures Holders(xs + ys, i) == Holders(xs, i) + Holders(ys, i)
  {
    assert multiset(xs + ys) == multiset(xs) + multiset(ys);
  }

  lemma {:induction false} LookupMany(p: Script, k: nat) returns (p': Script)
    requires p.Valid() && p.end.current.Some?
    ensures p'.Valid()
    ensures p' == p.(run := p'.run, end := p.end.(holding := p.end.holding + Waits(p.end.current.value, k)))
    ensures |p'.run| == |p.run| + k && p.run <= p'.run
    ensures forall j | |p.run| <= j < |p'.run| :: p'.run[j] == Lookup
    decreases k
  {
    if k == 0 {
      p' := p;
      assert p.end.holding + Waits(p.end.current.value, 0) == p.end.holding;
    } else {
      var i := p.end.current.value;
      p' := LookupMany(p, k - 1);
      p' := Do(p', Lookup);
      assert p.end.holding + Waits(i, k - 1) + [i] == p.end.holding + Waits(i, k);
    }
  }

  // A client's first bucket, made at once.
  lemma MakeFirst(limits: set<Limit>, lo: int, hi: int, t0: int) returns (p: Script)
    ensures p.Valid() && p == Script(limits, lo, hi, Initial(t0), [Lookup, Create(t0)], FirstCreated(t0, 0), 0)
  {
    p := Script(limits, lo, hi, Initial(t0), [], Initial(t0), 0);
    p := Do(p, Lookup);
    p := Do(p, Create(t0));
    assert [] + [Lookup] + [Create(t0)] == [Lookup, Create(t0)];
    assert [] + [Bucket(0, t0)] == [Bucket(0, t0)] && [] + [0] == [0];
  }

  // ---------- what one bucket gives out at one instant ----------

  function Available(b: Bucket, limit: Limit, at: int): int {
    Refilled(b, limit, at).tokens
  }

  lemma CheckTakesOne(b: Bucket, limit: Limit, at: int)
    requires limit.Valid() && Available(b, limit, at) > 0
    ensures Available(Checked(b, limit, at), limit, at) == Available(b, limit, at) - 1
  {
    assert limit.rate * 0 == 0;
  }

  // k requests are granted on the only bucket; without a refill they only take its tokens.
  lemma {:induction false} Drain(p: Script, limit: Limit, at: int, k: nat, m: nat) returns (p': Script, b: Bucket)
    requires p.Valid() && limit in p.limits && limit.Valid() && p.lo <= at <= p.hi && p.end.clock <= at
    requires |p.end.buckets| == 1 && p.end.holding == Waits(0, m) && k <= m
    requires k <= Available(p.end.buckets[0], limit, at)
    ensures p'.Valid() && p' == p.(run := p'.run, end := p'.end, grants := p.grants + k)
    ensures p'.end.buckets == [b] && p'.end.holding == Waits(0, m - k) && p'.end.clock <= at
    ensures TokensToAdd(limit, at - p.end.buckets[0].lastRefill) <= 0 ==>
              b == p.end.buckets[0].(tokens := p.end.buckets[0].tokens - k)
    ensures p.run <= p'.run && forall j | |p.run| <= j < |p'.run| :: !p'.run[j].Cleanup?
    decreases k
  {
    if k == 0 {
      p', b := p, p.end.buckets[0];
    } else {
      var b0 := p.end.buckets[0];
      CheckTakesOne(b0, limit, at);
      p' := Do(p, Check(0, limit, at));
      assert p'.end.holding == Waits(0, m - 1);
      var p1 := p';
      p', b := Drain(p1, limit, at, k - 1, m - 1);
    }
  }

  // ---------- endpoints with different limits ----------

  lemma {:induction false} NoCleanupNoOrphans(s: System, run: seq<Step>)
    requires forall i | 0 <= i < |run| :: !run[i].Cleanup?
    ensures Orphaned(s, run) == 0
    decreases |run|
  {
    if run != [] && Enabled(s, run[0]) {
      assert !run[0].Cleanup?;
      NoCleanupNoOrphans(Next(s, run[0]), run[1..]);
    }
  }

  lemma FullAfter(limit: Limit, b: Bucket, at: int)
    requires limit.Valid() && limit.burst >= 1 && b.tokens >= 0 && at >= b.lastRefill + limit.burst * SECOND
    ensures Available(b, limit, at) == limit.burst && Refilled(b, limit, at).lastRefill == at
  {
    var elapsed := at - b.lastRefill;
    MulMono(1, limit.rate, elapsed);
    FloorBounds(limit.rate * elapsed);
  }

  // What the fast limit credits, up to the burst, for the longest time that the slow one leaves.
  function Credited(slow: Limit, fast: Limit): int
    requires slow.rate >= 1
  {
    var add := fast.rate * Leftover(slow.rate) / SECOND;
    if add > fast.burst then fast.burst else add
  }

  lemma CreditedAfter(slow: Limit, fast: Limit, b: Bucket)
    requires slow.Valid() && fast.Valid() && SECOND <= fast.rate * Leftover(slow.rate) && b.tokens == 0
    ensures Leftover(slow.rate) >= 1
    ensures TokensToAdd(slow, Leftover(slow.rate)) == 0
    ensures Available(b, fast, b.lastRefill + Leftover(slow.rate)) == Credited(slow, fast)
  {
    var u := Leftover(slow.rate);
    assert SECOND - 1 == slow.rate * u + (SECOND - 1) % slow.rate;
    MulMono(0, slow.rate, u);
    DivUnique(slow.rate * u, SECOND, 0, slow.rate * u);
  }

  // Slow checks use the burst up and leave as much time unrefilled as they can; fast ones then
  // credit that time. All of them are granted at one instant, which is exactly as many as MixedWindow
  // allows there unless the fast limit's burst cuts the credit off.
  lemma MixedLimitsAttain(slow: Limit, fast: Limit, t0: int) returns (run: seq<Step>, s: System, at: int)
    requires slow.Valid() && fast.Valid() && slow.rate <= fast.rate && slow.burst == fast.burst >= 1
    requires SECOND <= fast.rate * Leftover(slow.rate)
    ensures Leads(Initial(t0), run, s) && Limited(run, {slow, fast}) && Orphaned(Initial(t0), run) == 0
    ensures AllGrants(Initial(t0), run, at, at) == slow.burst - 1 + Credited(slow, fast)
    ensures fast.rate * Leftover(slow.rate) < (fast.burst + 1) * SECOND ==>
              (AllGrants(Initial(t0), run, at, at) + 1) * SECOND >
                (slow.burst - 1) * SECOND + Slack(slow.rate, fast.rate)
  {
    var first := t0 + slow.burst * SECOND;
    var b := Bucket(0, first);
    CreditedAfter(slow, fast, b);
    at := first + Leftover(slow.rate);
    var k: nat, g: nat := slow.burst - 1, Credited(slow, fast);
    var p := MakeFirst({slow, fast}, at, at, t0);
    p := LookupMany(p, k + g);
    assert p.end.holding == Waits(0, k + g + 1);
    FullAfter(slow, Bucket(0, t0), first);
    p := Do(p, Check(0, slow, first));
    assert p.end.holding == Waits(0, k + g) && p.end.buckets == [b.(tokens := k)] && p.grants == 0;
    p, b := Drain(p, slow, at, k, k + g);
    p, b := Drain(p, fast, at, g, g);
    run, s := p.run, p.end;
    NoCleanupNoOrphans(Initial(t0), run);
  }

  // ---------- several buckets for one client ----------

  // k buckets, the last one the client's, with n requests waiting for each.
  ghost predicate Spread(s: System, k: nat, n: nat) {
    && |s.buckets| == k
    && (forall i | 0 <= i < k ::
          s.buckets[i].tokens >= 0 && s.buckets[i].lastRefill <= s.clock && Holders(s.holding, i) == n)
    && (forall i | i in s.holding :: i < k)
  }

  // Cleanup drops the client's bucket as soon as it may, and the next request makes another.
  lemma Renew(p: Script, k: nat, n: nat) returns (p': Script)
    requires p.Valid() && k >= 1 && n >= 1 && Spread(p.end, k, n) && p.end.current == Some(k - 1) && p.end.missed == 0
    ensures p'.Valid() && p' == p.(run := p'.run, end := p'.end)
    ensures Spread(p'.end, k + 1, n) && p'.end.current == Some(k) && p'.end.missed == 0
    ensures p'.end.clock == p.end.clock + CLIENT_TIMEOUT + 1 && |p'.end.holding| == |p.end.holding| + n
  {
    var t := p.end.clock + CLIENT_TIMEOUT + 1;
    p' := Do(p, Cleanup(t));
    p' := Do(p', Lookup);
    p' := Do(p', Create(t));
    p' := LookupMany(p', n - 1);
    assert p'.end.holding == p.end.holding + Waits(k, n);
    assert p'.end.buckets == p.end.buckets + [Bucket(0, t)];
    forall i | 0 <= i < k + 1 ensures Holders(p'.end.holding, i) == n {
      HoldersConcat(p.end.holding, Waits(k, n), i);
      CountWaits(k, n, i);
      if i == k { HoldersNone(p.end.holding, k); }
    }
  }

  lemma {:induction false} Build(p: Script, t0: int, k: nat, n: nat) returns (p': Script)
    requires p.Valid() && p.end == FirstCreated(t0, 0) && k >= 1 && n >= 1
    ensures p'.Valid() && p' == p.(run := p'.run, end := p'.end)
    ensures Spread(p'.end, k, n) && p'.end.current == Some(k - 1) && p'.end.missed == 0
    ensures p'.end.clock == t0 + (k - 1) * (CLIENT_TIMEOUT + 1) && |p'.end.holding| == k * n
    decreases k
  {
    if k == 1 {
      p' := LookupMany(p, n - 1);
      assert p'.end.holding == Waits(0, n);
      CountWaits(0, n, 0);
    } else {
      var p1 := Build(p, t0, k - 1, n);
      p' := Renew(p1, k - 1, n);
      Successor(k - 1, CLIENT_TIMEOUT + 1);
      Successor(k, n);
    }
  }

  // ---------- the sliding window ----------

  // Every bucket has a token for each request that waits with it.
  ghost predicate Stocked(s: System, limit: Limit, at: int) {
    forall i | 0 <= i < |s.buckets| :: Holders(s.holding, i) <= Available(s.buckets[i], limit, at)
  }

  lemma ServeOne(s: System, limit: Limit, at: int)
    requires limit.Valid() && Inv(s) && s.clock <= at && Stocked(s, limit, at) && s.holding != []
    ensures Granted(s, Check(0, limit, at)) && Stocked(Next(s, Check(0, limit, at)), limit, at)
  {
    var i := s.holding[0];
    assert i in s.holding;
    var s1 := Next(s, Check(0, limit, at));
    HoldersRemove(s.holding, 0, i);
    assert Holders(s.holding, i) <= Available(s.buckets[i], limit, at);
    CheckTakesOne(s.buckets[i], limit, at);
    forall j | 0 <= j < |s1.buckets| ensures Holders(s1.holding, j) <= Available(s1.buckets[j], limit, at) {
      HoldersRemove(s.holding, 0, j);
      assert Holders(s.holding, j) <= Available(s.buckets[j], limit, at);
    }
  }

  // Then all of them are granted at that instant.
  lemma {:induction false} AllServed(p: Script, limit: Limit, at: int) returns (p': Script)
    requires p.Valid() && limit in p.limits && p.lo <= at <= p.hi && limit.Valid()
    requires Inv(p.end) && p.end.clock <= at && Stocked(p.end, limit, at)
    ensures p'.Valid() && p' == p.(run := p'.run, end := p'.end, grants := p.grants + |p.end.holding|)
    decreases |p.end.holding|
  {
    if p.end.holding == [] {
      p' := p;
    } else {
      ServeOne(p.end, limit, at);
      InvKept(p.end, Check(0, limit, at));
      var p1 := Do(p, Check(0, limit, at));
      p' := AllServed(p1, limit, at);
    }
  }

  // For any limit with a burst, requests that hold a dropped bucket let two full buckets serve
  // the client at one instant: twice the burst, where the burst is promised.
  lemma StaleBucketBreaksWindow(limit: Limit, t0: int) returns (run: seq<Step>, s: System, at: int)
    requires limit.Valid() && limit.burst >= 1
    ensures Leads(Initial(t0), run, s) && Uniform(run, limit)
    ensures AllGrants(Initial(t0), run, at, at) == 2 * limit.burst
  {
    at := t0 + CLIENT_TIMEOUT + 1 + limit.burst * SECOND;
    var p := MakeFirst({limit}, at, at, t0);
    p := Build(p, t0, 2, limit.burst);
    forall i | 0 <= i < 2 ensures Available(p.end.buckets[i], limit, at) == limit.burst {
      FullAfter(limit, p.end.buckets[i], at);
    }
    p := AllServed(p, limit, at);
    run, s := p.run, p.end;
  }

  ghost predicate WindowBreaks(limit: Limit, t0: int) {
    exists run, s, lo, hi ::
      && Leads(Initial(t0), run, s) && Uniform(run, limit) && lo <= hi
      && AllGrants(Initial(t0), run, lo, hi) * SECOND > limit.burst * SECOND + limit.rate * (hi - lo)
  }

  // The bound within a window fails in some run exactly if the limit has a burst.
  lemma WindowBreaksIff(limit: Limit, t0: int)
    requires limit.Valid()
    ensures WindowBreaks(limit, t0) <==> limit.burst >= 1
  {
    if limit.burst >= 1 {
      var run, s, at := StaleBucketBreaksWindow(limit, t0);
      assert limit.rate * (at - at) == 0;
      assert AllGrants(Initial(t0), run, at, at) * SECOND > limit.burst * SECOND + limit.rate * (at - at);
    } else if WindowBreaks(limit, t0) {
      var run, s, lo, hi :|
        && Leads(Initial(t0), run, s) && Uniform(run, limit) && lo <= hi
        && AllGrants(Initial(t0), run, lo, hi) * SECOND > limit.burst * SECOND + limit.rate * (hi - lo);
      NoBurstNoGrants({limit}, Initial(t0), run, lo, hi);
      MulMono(0, limit.rate, hi - lo);
    }
  }

  // ---------- since creation ----------

  // A period in which a bucket gains at least one token.
  function Period(limit: Limit): int
    requires limit.Valid()
  {
    (SECOND - 1) / limit.rate + 1
  }

  lemma PeriodEnough(limit: Limit)
    requires limit.Valid()
    ensures SECOND <= limit.rate * Period(limit) < SECOND + limit.rate && Period(limit) >= 1
  {
    var q, r := (SECOND - 1) / limit.rate, (SECOND - 1) % limit.rate;
    assert SECOND - 1 == limit.rate * q + r;
    Distribute(limit.rate, q, 1);
  }

  lemma PeriodGrants(limit: Limit, b: Bucket, now: int)
    requires limit.Valid() && limit.burst >= 1 && b.tokens >= 0 && b.lastRefill + Period(limit) <= now
    ensures RateLimit.Grants(b, limit, now)
    ensures Checked(b, limit, now).tokens >= 0 && Checked(b, limit, now).lastRefill == now
  {
    PeriodEnough(limit);
    MulMono(Period(limit), now - b.lastRefill, limit.rate);
    FloorBounds(limit.rate * (now - b.lastRefill));
  }

  // Whether the bucket has served its request of the round at time now, or can.
  predicate Turn(b: Bucket, limit: Limit, now: int, served: bool)
    requires limit.Valid()
  {
    b.tokens >= 0 && if served then b.lastRefill == now else b.lastRefill + Period(limit) <= now
  }

  // n requests wait for each of the k buckets, one less for the first j of them.
  ghost predicate Waiting(holding: seq<nat>, j: nat, k: nat, n: nat) {
    && (forall i | 0 <= i < k :: Holders(holding, i) == if i < j then n - 1 else n)
    && (forall i | i in holding :: i < k)
  }

  // In the round at time now the first j of the k buckets have served one request each.
  ghost predicate Halfway(s: System, limit: Limit, now: int, j: nat, k: nat, n: nat)
    requires limit.Valid()
  {
    && |s.buckets| == k && s.clock <= now && (j > 0 ==> s.clock == now)
    && (forall i | 0 <= i < k :: Turn(s.buckets[i], limit, now, i < j))
    && Waiting(s.holding, j, k, n)
  }

  lemma NextWaiting(holding: seq<nat>, j: nat, k: nat, n: nat) returns (who: nat)
    requires n >= 1 && j < k && Waiting(holding, j, k, n)
    ensures who < |holding| && holding[who] == j && Waiting(holding[..who] + holding[who + 1..], j + 1, k, n)
  {
    assert Holders(holding, j) == n && j in multiset(holding);
    who :| 0 <= who < |holding| && holding[who] == j;
    var rest := holding[..who] + holding[who + 1..];
    HoldingShrinks(holding, who);
    forall i | 0 <= i < k ensures Holders(rest, i) == if i < j + 1 then n - 1 else n {
      HoldersRemove(holding, who, i);
      assert Holders(holding, i) == if i < j then n - 1 else n;
    }
    forall i | i in rest ensures i < k {
      assert i in holding;
    }
  }

  lemma ServeNext(s: System, limit: Limit, now: int, j: nat, k: nat, n: nat) returns (step: Step)
    requires limit.Valid() && limit.burst >= 1 && n >= 1 && j < k && Halfway(s, limit, now, j, k, n)
    ensures step.Check? && step.limit == limit && step.now == now && Enabled(s, step) && Granted(s, step)
    ensures Halfway(Next(s, step), limit, now, j + 1, k, n)
  {
    var who := NextWaiting(s.holding, j, k, n);
    step := Check(who, limit, now);
    assert Turn(s.buckets[j], limit, now, false);
    PeriodGrants(limit, s.buckets[j], now);
    var s1 := Next(s, step);
    forall i | 0 <= i < k ensures Turn(s1.buckets[i], limit, now, i < j + 1) {
      assert Turn(s.buckets[i], limit, now, i < j);
    }
  }

  lemma {:induction false} Round(p: Script, limit: Limit, now: int, j: nat, k: nat, n: nat) returns (p': Script)
    requires p.Valid() && limit in p.limits && p.lo <= now <= p.hi && limit.Valid() && limit.burst >= 1 && n >= 1
    requires j <= k && Halfway(p.end, limit, now, j, k, n)
    ensures p'.Valid() && p' == p.(run := p'.run, end := p'.end, grants := p.grants + (k - j))
    ensures Halfway(p'.end, limit, now, k, k, n)
    decreases k - j
  {
    if j == k {
      p' := p;
    } else {
      var step := ServeNext(p.end, limit, now, j, k, n);
      var p1 := Do(p, step);
      p' := Round(p1, limit, now, j + 1, k, n);
    }
  }

  // All buckets are polled side by side, a period apart, until no request waits.
  lemma {:induction false} Rounds(p: Script, limit: Limit, k: nat, n: nat) returns (p': Script)
    requires p.Valid() && limit in p.limits && limit.Valid() && limit.burst >= 1 && k >= 1
    requires Spread(p.end, k, n) && p.lo <= p.end.clock && p.end.clock + n * Period(limit) <= p.hi
    ensures p'.Valid() && p' == p.(run := p'.run, end := p'.end, grants := p.grants + k * n)
    decreases n
  {
    if n == 0 {
      p' := p;
    } else {
      var now := p.end.clock + Period(limit);
      PeriodEnough(limit);
      Successor(n, Period(limit));
      MulMono(0, n - 1, Period(limit));
      var p1 := Round(p, limit, now, 0, k, n);
      assert forall i | 0 <= i < k :: Turn(p1.end.buckets[i], limit, now, true);
      p' := Rounds(p1, limit, k, n - 1);
      Distribute(k, n - 1, 1);
    }
  }

  lemma Outruns(gain: int, cost: int, rate: int, setup: int, period: int, n: int)
    requires cost == rate * period && cost + 1 <= gain && n == rate * setup + 1 && n >= 1
    ensures gain * n > rate * (setup + n * period)
  {
    MulAtLeast(gain - cost, n);
    Distribute(n, gain - cost, cost);
    Distribute(rate, setup, n * period);
    Associate(rate, period, n);
  }

  // Enough buckets and enough rounds to outrun the rate since the first bucket was made.
  lemma EnoughRounds(limit: Limit) returns (k: nat, n: nat)
    requires limit.Valid()
    ensures k >= 2 && n >= 1
    ensures k * n * SECOND > limit.rate * ((k - 1) * (CLIENT_TIMEOUT + 1) + n * Period(limit))
  {
    k := limit.rate / SECOND + 2;
    var setup := (k - 1) * (CLIENT_TIMEOUT + 1);
    MulMono(0, limit.rate, setup);
    n := limit.rate * setup + 1;
    PeriodEnough(limit);
    Outruns(k * SECOND, limit.rate * Period(limit), limit.rate, setup, Period(limit), n);
    Associate(n, k, SECOND);
  }

  // For any limit with a burst, enough buckets that are polled side by side for long enough grant
  // more than the rate allows since the first was made.
  lemma StaleBucketBreaksCreation(limit: Limit, t0: int) returns (run: seq<Step>, s: System, hi: int)
    requires limit.Valid() && limit.burst >= 1
    ensures Leads(FirstCreated(t0, 0), run, s) && Uniform(run, limit) && t0 <= hi
    ensures AllGrants(FirstCreated(t0, 0), run, t0, hi) * SECOND > limit.rate * (hi - t0)
  {
    var k, n := EnoughRounds(limit);
    PeriodEnough(limit);
    MulMono(0, n, Period(limit));
    MulMono(0, k - 1, CLIENT_TIMEOUT + 1);
    hi := t0 + (k - 1) * (CLIENT_TIMEOUT + 1) + n * Period(limit);
    var p := Script({limit}, t0, hi, FirstCreated(t0, 0), [], FirstCreated(t0, 0), 0);
    p := Build(p, t0, k, n);
    p := Rounds(p, limit, k, n);
    run, s := p.run, p.end;
  }

  ghost predicate CreationBreaks(limit: Limit, t0: int) {
    exists run, s, hi ::
      && Leads(FirstCreated(t0, 0), run, s) && Uniform(run, limit) && t0 <= hi
      && AllGrants(FirstCreated(t0, 0), run, t0, hi) * SECOND > limit.rate * (hi - t0)
  }

  // The bound since the first bucket fails in some run exactly if the limit has a burst.
  lemma CreationBreaksIff(limit: Limit, t0: int)
    requires limit.Valid()
    ensures CreationBreaks(limit, t0) <==> limit.burst >= 1
  {
    if limit.burst >= 1 {
      var run, s, hi := StaleBucketBreaksCreation(limit, t0);
    } else if CreationBreaks(limit, t0) {
      var run, s, hi :|
        && Leads(FirstCreated(t0, 0), run, s) && Uniform(run, limit) && t0 <= hi
        && AllGrants(FirstCreated(t0, 0), run, t0, hi) * SECOND > limit.rate * (hi - t0);
      NoBurstNoGrants({limit}, FirstCreated(t0, 0), run, t0, hi);
      MulMono(0, limit.rate, hi - t0);
    }
  }
}
