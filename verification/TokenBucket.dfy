/**
 What a single bucket promises over time: how much a refill credits, how a client that polls
 it again and again is served, and what the reported reset times are worth.
 */
module TokenBucket {
  import opened RateLimit
  import opened Arithmetic

  lemma FloorBounds(a: int)
    requires a >= 0
    ensures Truncated(a, SECOND) * SECOND <= a < Truncated(a, SECOND) * SECOND + SECOND
    ensures Truncated(a, SECOND) >= 0
  {
  }

  // A refill either truncates to nothing and leaves lastRefill where it was, so no elapsed
  // time is lost, or credits more than half of what the elapsed time is worth.
  lemma RefillCredits(b: Bucket, limit: Limit, now: int)
    requires limit.Valid() && b.lastRefill <= now
    ensures
      var elapsed := now - b.lastRefill;
      var add := TokensToAdd(limit, elapsed);
      && add >= 0
      && add * SECOND <= limit.rate * elapsed
      && (add == 0 ==> Refilled(b, limit, now) == b && limit.rate * elapsed < SECOND)
      && (add > 0 ==> Refilled(b, limit, now).lastRefill == now && limit.rate * elapsed < 2 * add * SECOND)
  {
    MulMono(0, limit.rate, now - b.lastRefill);
    FloorBounds(limit.rate * (now - b.lastRefill));
  }

  // ---------- polling one bucket ----------

  // What the polls at `times` leave behind, how many were granted, and how many tokens the
  // refills credited before the burst cap was applied.
  datatype Polled = Polled(bucket: Bucket, granted: nat, credit: int)

  function Poll(b: Bucket, limit: Limit, times: seq<int>): Polled
    decreases |times|
  {
    if times == [] then Polled(b, 0, 0)
    else
      var rest := Poll(Checked(b, limit, times[0]), limit, times[1..]);
      var add := TokensToAdd(limit, times[0] - b.lastRefill);
      Polled(
        rest.bucket,
        rest.granted + (if Grants(b, limit, times[0]) then 1 else 0),
        rest.credit + (if add > 0 then add else 0))
  }

  predicate Ordered(start: int, times: seq<int>) {
    (times != [] ==> start <= times[0]) && forall i | 0 < i < |times| :: times[i - 1] <= times[i]
  }

  lemma AddCredit(rate: int, e1: int, c1: int, e2: int, c2: int)
    requires c1 * SECOND <= rate * e1 <= 2 * c1 * SECOND && c2 * SECOND <= rate * e2 <= 2 * c2 * SECOND
    ensures (c1 + c2) * SECOND <= rate * (e1 + e2) <= 2 * (c1 + c2) * SECOND
  {
    Distribute(rate, e1, e2);
  }

  lemma OneCredit(b: Bucket, limit: Limit, now: int)
    requires limit.Valid() && b.lastRefill <= now
    ensures
      var add, last := TokensToAdd(limit, now - b.lastRefill), Checked(b, limit, now).lastRefill;
      add >= 0 && b.lastRefill <= last <= now && add * SECOND <= limit.rate * (last - b.lastRefill) <= 2 * add * SECOND
  {
    RefillCredits(b, limit, now);
    assert limit.rate * 0 == 0;
  }

  // However often the client polls, truncation costs it less than half of the configured
  // rate: the credit up to lastRefill is at least rate * elapsed / 2, and at most rate * elapsed.
  lemma {:induction false} CreditAtLeastHalf(b: Bucket, limit: Limit, times: seq<int>)
    requires limit.Valid() && Ordered(b.lastRefill, times)
    ensures
      var p := Poll(b, limit, times);
      p.credit * SECOND <= limit.rate * (p.bucket.lastRefill - b.lastRefill) <= 2 * p.credit * SECOND
    decreases |times|
  {
    if times == [] {
      assert limit.rate * 0 == 0;
    } else {
      var b1 := Checked(b, limit, times[0]);
      OneCredit(b, limit, times[0]);
      CreditAtLeastHalf(b1, limit, times[1..]);
      var rest := Poll(b1, limit, times[1..]);
      AddCredit(limit.rate, b1.lastRefill - b.lastRefill, TokensToAdd(limit, times[0] - b.lastRefill),
                rest.bucket.lastRefill - b1.lastRefill, rest.credit);
    }
  }

  // Polls no further apart than one token's worth of time, the first one counted from `last`.
  predicate Eager(limit: Limit, last: int, times: seq<int>)
    decreases |times|
  {
    times == [] || (last <= times[0] && limit.rate * (times[0] - last) <= SECOND && Eager(limit, times[0], times[1..]))
  }

  lemma EagerPoll(b: Bucket, limit: Limit, last: int, now: int)
    requires limit.Valid() && limit.burst >= 1 && b.tokens == 0
    requires b.lastRefill <= last <= now && limit.rate * (last - b.lastRefill) < SECOND
    requires limit.rate * (now - last) <= SECOND
    ensures
      var b1 := Checked(b, limit, now);
      var add := TokensToAdd(limit, now - b.lastRefill);
      && b1.tokens == 0 && b.lastRefill <= b1.lastRefill <= now && limit.rate * (now - b1.lastRefill) < SECOND
      && 0 <= add <= 1 && (Grants(b, limit, now) <==> add == 1)
      && limit.rate * (b1.lastRefill - b.lastRefill) <= 2 * add * SECOND
  {
    RefillCredits(b, limit, now);
    Distribute(limit.rate, now - last, last - b.lastRefill);
  }

  // A client that polls an empty bucket eagerly gets every credited token, so it is served at
  // least half of the configured rate. `last` is the time of the poll before the first.
  lemma {:induction false} EagerClientServed(b: Bucket, limit: Limit, last: int, times: seq<int>)
    requires limit.Valid() && limit.burst >= 1 && b.tokens == 0
    requires b.lastRefill <= last && limit.rate * (last - b.lastRefill) < SECOND
    requires Eager(limit, last, times)
    ensures
      var p := Poll(b, limit, times);
      var end := if times == [] then last else times[|times| - 1];
      && p.bucket.tokens == 0 && p.granted == p.credit
      && limit.rate * (end - b.lastRefill) < 2 * p.granted * SECOND + SECOND
    decreases |times|
  {
    if times != [] {
      var now, rest := times[0], times[1..];
      var b1 := Checked(b, limit, now);
      EagerPoll(b, limit, last, now);
      EagerClientServed(b1, limit, now, rest);
      var end := if rest == [] then now else rest[|rest| - 1];
      assert end == times[|times| - 1];
      Distribute(limit.rate, end - b1.lastRefill, b1.lastRefill - b.lastRefill);
    }
  }

  // ---------- polling at a fixed period ----------

  // Grants among the first n polls at start + p, start + 2p, ...
  function PeriodicBucket(limit: Limit, start: int, p: int, n: nat): Bucket {
    if n == 0 then Bucket(0, start)
    else Checked(PeriodicBucket(limit, start, p, n - 1), limit, start + n * p)
  }

  function PeriodicGrants(limit: Limit, start: int, p: int, n: nat): nat {
    if n == 0 then 0
    else PeriodicGrants(limit, start, p, n - 1)
         + (if Grants(PeriodicBucket(limit, start, p, n - 1), limit, start + n * p) then 1 else 0)
  }

  // The number of periods a new token takes: the least k with rate * p * k >= 1 second.
  function PeriodsPerToken(limit: Limit, p: int): (k: int)
    requires limit.rate > 0 && p > 0
    ensures k >= 1
    ensures limit.rate * p * k >= SECOND
    ensures limit.rate * p * (k - 1) < SECOND
  {
    var x := limit.rate * p;
    assert x > 0;
    var k := (SECOND + x - 1) / x;
    CeilBounds(x);
    k
  }

  lemma CeilBounds(x: int)
    requires x > 0
    ensures var k := (SECOND + x - 1) / x; k >= 1 && x * k >= SECOND && x * (k - 1) < SECOND
  {
    var k := (SECOND + x - 1) / x;
    var r := (SECOND + x - 1) % x;
    assert SECOND + x - 1 == k * x + r;
    Distribute(x, k, -1);
    MulAtLeast(k, x);
  }

  // j polls after the token was taken at time t (j < k), the bucket is still empty.
  lemma NotYet(limit: Limit, p: int, t: int, j: int)
    requires limit.Valid() && p > 0 && 1 <= j < PeriodsPerToken(limit, p)
    ensures !Grants(Bucket(0, t), limit, t + j * p)
    ensures Checked(Bucket(0, t), limit, t + j * p) == Bucket(0, t)
  {
    var x, k := limit.rate * p, PeriodsPerToken(limit, p);
    assert x > 0 by { MulAtLeast(p, limit.rate); }
    Distribute(x, k - 1 - j, j);
    MulAtLeast(k - 1 - j, x);
    MulAtLeast(j, x);
    Associate(limit.rate, p, j);
    var e := limit.rate * (j * p);
    assert 0 <= e < SECOND by { assert j * p == p * j; }
    assert TokensToAdd(limit, (t + j * p) - t) == e / SECOND == 0;
  }

  lemma OneToken(limit: Limit, p: int, t: int)
    requires limit.Valid() && limit.burst >= 1 && p > 0 && limit.rate * p < SECOND
    ensures
      var now := t + PeriodsPerToken(limit, p) * p;
      Grants(Bucket(0, t), limit, now) && Checked(Bucket(0, t), limit, now) == Bucket(0, now)
  {
    var x, k := limit.rate * p, PeriodsPerToken(limit, p);
    Distribute(x, k - 1, 1);
    Associate(limit.rate, p, k);
    var e := limit.rate * (k * p);
    assert SECOND <= e < 2 * SECOND by { assert k * p == p * k; }
    assert TokensToAdd(limit, (t + k * p) - t) == e / SECOND == 1;
  }

  lemma {:induction false} PeriodicState(limit: Limit, start: int, p: int, n: nat)
    requires limit.Valid() && limit.burst >= 1 && p > 0 && limit.rate * p < SECOND
    ensures
      var k := PeriodsPerToken(limit, p);
      && PeriodicBucket(limit, start, p, n) == Bucket(0, start + (n / k * k) * p)
      && PeriodicGrants(limit, start, p, n) == n / k
  {
    var k := PeriodsPerToken(limit, p);
    if n == 0 {
      DivUnique(0, k, 0, 0);
    } else {
      PeriodicState(limit, start, p, n - 1);
      var q, j := (n - 1) / k, (n - 1) % k;
      var t := start + (q * k) * p;
      NextPoll(k, p, n, q, j);
      if j + 1 < k {
        NotYet(limit, p, t, j + 1);
      } else {
        OneToken(limit, p, t);
      }
    }
  }

  lemma NextPoll(k: int, p: int, n: int, q: int, j: int)
    requires k > 0 && q == (n - 1) / k && j == (n - 1) % k
    ensures n * p == (q * k) * p + (j + 1) * p
    ensures j + 1 < k ==> n / k == q
    ensures j + 1 == k ==> n / k == q + 1 && (n / k * k) * p == (q * k) * p + k * p
    ensures j + 1 <= k
  {
    assert n - 1 == q * k + j;
    Distribute(p, q * k, j + 1);
    Distribute(k, q, 1);
    Distribute(p, q * k, k);
    if j + 1 < k { DivUnique(n, k, q, j + 1); } else { DivUnique(n, k, q + 1, 0); }
  }

  lemma {:induction false} SlowPollsAllGranted(limit: Limit, start: int, p: int, n: nat)
    requires limit.Valid() && limit.burst >= 1 && p > 0 && limit.rate * p >= SECOND
    ensures PeriodicGrants(limit, start, p, n) == n
    ensures n > 0 ==> PeriodicBucket(limit, start, p, n).lastRefill == start + n * p
    ensures PeriodicBucket(limit, start, p, n).tokens >= 0
  {
    if n > 0 {
      SlowPollsAllGranted(limit, start, p, n - 1);
      assert n * p == (n - 1) * p + p;
      assert PeriodicBucket(limit, start, p, n - 1).lastRefill == start + (n - 1) * p;
    }
  }

  lemma PeriodsFor(limit: Limit, p: int)
    requires limit.Valid() && p > 0
    ensures SECOND <= limit.rate * p ==> PeriodsPerToken(limit, p) == 1
    ensures limit.rate * p < SECOND <= 2 * (limit.rate * p) ==> PeriodsPerToken(limit, p) == 2
  {
    var x, k := limit.rate * p, PeriodsPerToken(limit, p);
    assert x > 0 by { MulAtLeast(p, limit.rate); }
    MulAtLeast(k - 1, x);
    Distribute(x, k - 2, 1);
    MulAtLeast(k - 2, x);
    assert k == 1 ==> x * k == x;
  }

  // The service law of a client that polls every p nanoseconds: exactly one poll in
  // PeriodsPerToken is granted. So the served rate is quantised: polling just faster than
  // the configured rate halves the service, whatever the rate is.
  lemma PeriodicService(limit: Limit, start: int, p: int, n: nat)
    requires limit.Valid() && limit.burst >= 1 && p > 0
    ensures PeriodicGrants(limit, start, p, n) == n / PeriodsPerToken(limit, p)
    ensures SECOND <= limit.rate * p ==> PeriodicGrants(limit, start, p, n) == n
    ensures limit.rate * p < SECOND <= 2 * (limit.rate * p) ==> PeriodicGrants(limit, start, p, n) == n / 2
  {
    PeriodsFor(limit, p);
    if limit.rate * p >= SECOND {
      SlowPollsAllGranted(limit, start, p, n);
    } else {
      PeriodicState(limit, start, p, n);
    }
  }

  // ---------- reported reset times ----------

  // A refused client is told when to come back. It then finds a token if and only if the rate
  // is one per second: for any higher rate the integer quotient is zero and the reported time
  // is the last refill, which has passed already.
  lemma RetryTimeRight(b: Bucket, limit: Limit, now: int)
    requires limit.Valid() && limit.burst >= 1 && b.lastRefill <= now && b.tokens >= 0
    requires !Grants(b, limit, now)
    ensures
      var c, reset := Checked(b, limit, now), ReportedReset(b, limit, now);
      && (Grants(c, limit, reset) <==> limit.rate == 1)
      && (limit.rate != 1 ==> reset == b.lastRefill <= now)
  {
    RefillCredits(b, limit, now);
    assert Checked(b, limit, now) == b && b.tokens == 0;
    assert Truncated(1, limit.rate) == if limit.rate == 1 then 1 else 0;
    if limit.rate == 1 {
      assert TokensToAdd(limit, SECOND) == 1;
    } else {
      assert TokensToAdd(limit, 0) == 0;
    }
  }

  lemma WholeSeconds(limit: Limit, q: int, rest: int)
    requires limit.Valid() && q >= 0 && rest >= 0 && limit.rate * rest < SECOND
    ensures TokensToAdd(limit, q * SECOND + rest) == q * limit.rate
  {
    var x := limit.rate * rest;
    MulMono(0, limit.rate, rest);
    MulMono(0, limit.rate, q);
    Distribute(limit.rate, q * SECOND, rest);
    Associate(limit.rate, q, SECOND);
    DivUnique((limit.rate * q) * SECOND + x, SECOND, limit.rate * q, x);
  }

  // A bucket with less than a token's worth of unrefilled time gets whole quotients of the rate.
  lemma WholeQuotients(c: Bucket, limit: Limit, now: int)
    requires limit.Valid() && c.lastRefill <= now && limit.rate * (now - c.lastRefill) < SECOND
    requires c.tokens < limit.burst
    ensures
      var missing := limit.burst - c.tokens;
      var full := Refilled(c, limit, now + Truncated(missing, limit.rate) * SECOND).tokens;
      full <= limit.burst && (full == limit.burst <==> missing % limit.rate == 0)
  {
    var missing := limit.burst - c.tokens;
    var q := missing / limit.rate;
    assert missing == q * limit.rate + missing % limit.rate;
    MulAtLeast(q, limit.rate);
    WholeSeconds(limit, q, now - c.lastRefill);
    assert now + q * SECOND - c.lastRefill == q * SECOND + (now - c.lastRefill);
  }

  // A granted client is told when its bucket will be full. At that time the bucket holds the
  // burst if and only if the rate divides the missing tokens, or none are missing: an endpoint
  // with a larger burst may have left more. A bucket within the burst stays within it.
  lemma FullTimeRight(b: Bucket, limit: Limit, now: int)
    requires limit.Valid() && b.lastRefill <= now && b.tokens >= 0
    requires Grants(b, limit, now)
    ensures
      var c, reset := Checked(b, limit, now), ReportedReset(b, limit, now);
      && (Refilled(c, limit, reset).tokens >= limit.burst <==>
            c.tokens >= limit.burst || (limit.burst - c.tokens) % limit.rate == 0)
      && (b.tokens <= limit.burst ==> Refilled(c, limit, reset).tokens <= limit.burst)
  {
    var c := Checked(b, limit, now);
    RefillCredits(b, limit, now);
    if c.tokens < limit.burst {
      WholeQuotients(c, limit, now);
    }
  }
}
