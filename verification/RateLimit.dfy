/**
 The token-bucket limiter of internal/security/ratelimit.go: the arithmetic of one bucket as
 functions, and the limiter and its buckets as classes updated in place. Times and durations
 are whole nanoseconds and the floating-point products are taken exactly before truncation.
 */
module RateLimit {
  import opened Prelude

  const SECOND := 1_000_000_000

  // The limiter drops buckets that were not refilled for this long.
  const CLIENT_TIMEOUT := 30 * 60 * SECOND

  datatype Limit = Limit(rate: int, burst: int) {
    predicate Valid() { rate > 0 && burst >= 0 }
  }

  datatype Bucket = Bucket(tokens: int, lastRefill: int)

  datatype Verdict = Verdict(allowed: bool, remaining: int, resetTime: int)

  // Go's conversion of a quotient to an integer, which drops the fraction.
  function Truncated(a: int, b: int): int
    requires b > 0
  {
    if a >= 0 then a / b else -((-a) / b)
  }

  // The quotient is the integer next to the exact one on the side of zero.
  lemma TruncatedTowardsZero(a: int, b: int)
    requires b > 0
    ensures
      var q := Truncated(a, b);
      (a >= 0 ==> 0 <= q && q * b <= a < (q + 1) * b) && (a <= 0 ==> q <= 0 && (q - 1) * b < a <= q * b)
  {
    var q := Truncated(a, b);
    if a >= 0 {
      QuotientBounds(a, b);
    } else {
      QuotientBounds(-a, b);
      assert q * b == -(-q * b) && (q - 1) * b == q * b - b;
    }
  }

  lemma QuotientBounds(n: nat, b: int)
    requires b > 0
    ensures 0 <= n / b && n / b * b <= n < (n / b + 1) * b
  {
    var q := n / b;
    assert n == q * b + n % b;
    assert (q + 1) * b == q * b + b;
  }

  function TokensToAdd(limit: Limit, elapsed: int): int {
    Truncated(limit.rate * elapsed, SECOND)
  }

  function Min(a: int, b: int): int { if a <= b then a else b }

  function Refilled(b: Bucket, limit: Limit, now: int): Bucket {
    var add := TokensToAdd(limit, now - b.lastRefill);
    if add > 0 then Bucket(Min(b.tokens + add, limit.burst), now) else b
  }

  predicate Grants(b: Bucket, limit: Limit, now: int) {
    Refilled(b, limit, now).tokens > 0
  }

  // The bucket after one check.
  function Checked(b: Bucket, limit: Limit, now: int): Bucket {
    var r := Refilled(b, limit, now);
    if r.tokens > 0 then r.(tokens := r.tokens - 1) else r
  }

  function ReportedReset(b: Bucket, limit: Limit, now: int): int
    requires limit.rate > 0
  {
    var c := Checked(b, limit, now);
    if Grants(b, limit, now) then now + Truncated(limit.burst - c.tokens, limit.rate) * SECOND
    else c.lastRefill + Truncated(1, limit.rate) * SECOND
  }

  // ---------- endpoint patterns ----------

  predicate HasPrefix(s: string, prefix: string) { prefix <= s }

  predicate HasSuffix(s: string, suffix: string) {
    |suffix| <= |s| && s[|s| - |suffix|..] == suffix
  }

  // Position of the first star, or the length if there is none.
  function StarAt(s: string): (i: nat)
    ensures i <= |s| && '*' !in s[..i]
    ensures i < |s| ==> s[i] == '*'
  {
    if s == [] || s[0] == '*' then 0 else 1 + StarAt(s[1..])
  }

  predicate MatchesPattern(endpoint: string, pattern: string) {
    var i := StarAt(pattern);
    if i == |pattern| then endpoint == pattern
    else if '*' in pattern[i + 1..] then false
    else HasPrefix(endpoint, pattern[..i]) && HasSuffix(endpoint, pattern[i + 1..])
  }

  lemma {:induction false} FirstStar(prefix: string, rest: string)
    requires '*' !in prefix
    ensures StarAt(prefix + "*" + rest) == |prefix|
  {
    var s := prefix + "*" + rest;
    if prefix == "" {
      assert s[0] == '*';
    } else {
      assert s[0] == prefix[0] && s[1..] == prefix[1..] + "*" + rest;
      FirstStar(prefix[1..], rest);
    }
  }

  // A pattern without a star matches itself only.
  lemma ExactPattern(endpoint: string, pattern: string)
    requires '*' !in pattern
    ensures MatchesPattern(endpoint, pattern) <==> endpoint == pattern
  {
    assert forall k | 0 <= k < |pattern| :: pattern[k] != '*';
  }

  // A pattern with several stars matches nothing.
  lemma ManyStars(endpoint: string, pattern: string, i: nat, j: nat)
    requires i < j < |pattern| && pattern[i] == pattern[j] == '*'
    ensures !MatchesPattern(endpoint, pattern)
  {
    var first := StarAt(pattern);
    assert forall k | 0 <= k < first :: pattern[..first][k] == pattern[k] != '*';
    assert pattern[first + 1..][j - first - 1] == '*';
  }

  // A pattern with one star matches what the star can stand for, and one case more: prefix and
  // suffix may overlap in a shorter endpoint.
  lemma PatternMeansGlob(endpoint: string, prefix: string, suffix: string)
    requires '*' !in prefix && '*' !in suffix
    ensures
      var matches := MatchesPattern(endpoint, prefix + "*" + suffix);
      && (matches <==> HasPrefix(endpoint, prefix) && HasSuffix(endpoint, suffix))
      && (matches && |endpoint| >= |prefix| + |suffix| <==> exists middle :: endpoint == prefix + middle + suffix)
  {
    var pattern := prefix + "*" + suffix;
    FirstStar(prefix, suffix);
    assert pattern[..|prefix|] == prefix && pattern[|prefix| + 1..] == suffix;
    if HasPrefix(endpoint, prefix) && HasSuffix(endpoint, suffix) && |endpoint| >= |prefix| + |suffix| {
      assert endpoint == prefix + endpoint[|prefix|..|endpoint| - |suffix|] + suffix;
    }
    if middle :| endpoint == prefix + middle + suffix {
      assert HasPrefix(endpoint, prefix) && HasSuffix(endpoint, suffix);
    }
  }

  // "a/" + star + "/b" matches "a/b", though no text between the slashes gives it.
  lemma OverlapMatches(a: string, b: string, c: char)
    requires '*' !in a && '*' !in b && c != '*'
    ensures MatchesPattern(a + [c] + b, a + [c] + "*" + ([c] + b))
    ensures !exists middle :: a + [c] + b == a + [c] + middle + ([c] + b)
  {
    PatternMeansGlob(a + [c] + b, a + [c], [c] + b);
    assert a + [c] + b == a + ([c] + b);
    assert (a + [c] + b)[|a|..] == [c] + b;
    forall middle ensures a + [c] + b != a + [c] + middle + ([c] + b) {
      assert |a + [c] + middle + ([c] + b)| > |a + [c] + b|;
    }
  }

  // ---------- the objects ----------

  class ClientBucket {
    var tokens: int
    var lastRefill: int

    ghost function Value(): Bucket
      reads this
    {
      Bucket(tokens, lastRefill)
    }

    constructor (now: int)
      ensures Value() == Bucket(0, now)
    {
      tokens, lastRefill := 0, now;
    }
  }

  class RateLimiter {
    const enabled: bool
    var limits: map<string, Limit>
    var clients: map<string, ClientBucket>

    // Every client has a bucket of its own.
    ghost predicate Valid()
      reads this
    {
      forall c, d | c in clients && d in clients && c != d :: clients[c] != clients[d]
    }

    constructor (enabled: bool, limits: map<string, Limit>)
      ensures Valid() && this.enabled == enabled && this.limits == limits && clients == map[]
    {
      this.enabled, this.limits, clients := enabled, limits, map[];
    }

    // An exact entry wins; otherwise any matching pattern may be returned, because Go ranges
    // over a map in no fixed order.
    method GetLimitForEndpoint(endpoint: string) returns (limit: Option<Limit>)
      ensures endpoint in limits ==> limit == Some(limits[endpoint])
      ensures endpoint !in limits && limit.Some? ==>
                exists p :: p in limits && MatchesPattern(endpoint, p) && limits[p] == limit.value
      ensures limit.None? ==> endpoint !in limits && forall p | p in limits :: !MatchesPattern(endpoint, p)
      ensures (forall p | p in limits :: '*' !in p) ==> (limit.Some? <==> endpoint in limits)
    {
      if endpoint in limits {
        return Some(limits[endpoint]);
      }
      var todo := limits.Keys;
      while todo != {}
        invariant todo <= limits.Keys
        invariant forall p | p in limits.Keys - todo :: !MatchesPattern(endpoint, p)
        decreases |todo|
      {
        var pattern :| pattern in todo;
        if MatchesPattern(endpoint, pattern) {
          if '*' !in pattern {
            ExactPattern(endpoint, pattern);
          }
          return Some(limits[pattern]);
        }
        todo := todo - {pattern};
      }
      limit := None;
    }

    method GetOrCreateBucket(client: string, now: int) returns (bucket: ClientBucket)
      requires Valid()
      modifies this
      ensures Valid() && limits == old(limits)
      ensures client in old(clients) ==> clients == old(clients) && bucket == clients[client]
      ensures client !in old(clients) ==>
                fresh(bucket) && bucket.Value() == Bucket(0, now) && clients == old(clients)[client := bucket]
    {
      if client in clients {
        return clients[client];
      }
      bucket := new ClientBucket(now);
      clients := clients[client := bucket];
    }

    method CheckLimit(bucket: ClientBucket, limit: Limit, now: int) returns (verdict: Verdict)
      requires limit.rate > 0
      modifies bucket
      ensures bucket.Value() == Checked(old(bucket.Value()), limit, now)
      ensures verdict.allowed == Grants(old(bucket.Value()), limit, now)
      ensures verdict.remaining == if verdict.allowed then bucket.tokens else 0
      ensures verdict.resetTime == ReportedReset(old(bucket.Value()), limit, now)
    {
      var elapsed := now - bucket.lastRefill;
      var tokensToAdd := TokensToAdd(limit, elapsed);
      if tokensToAdd > 0 {
        bucket.tokens := Min(bucket.tokens + tokensToAdd, limit.burst);
        bucket.lastRefill := now;
      }
      if bucket.tokens > 0 {
        bucket.tokens := bucket.tokens - 1;
        var resetTime := now + Truncated(limit.burst - bucket.tokens, limit.rate) * SECOND;
        return Verdict(true, bucket.tokens, resetTime);
      }
      var nextTokenTime := bucket.lastRefill + Truncated(1, limit.rate) * SECOND;
      verdict := Verdict(false, 0, nextTokenTime);
    }

    method Cleanup(now: int) returns (removed: nat)
      requires Valid()
      modifies this
      ensures Valid() && limits == old(limits)
      ensures clients ==
              map c | c in old(clients) && old(clients)[c].lastRefill >= now - CLIENT_TIMEOUT :: old(clients)[c]
      ensures removed == |old(clients)| - |clients|
    {
      var cutoff := now - CLIENT_TIMEOUT;
      removed := 0;
      var todo := clients.Keys;
      while todo != {}
        invariant todo <= clients.Keys <= old(clients).Keys
        invariant limits == old(limits)
        invariant forall c | c in clients :: clients[c] == old(clients)[c]
        invariant forall c | c in old(clients).Keys - todo :: c in clients <==> old(clients)[c].lastRefill >= cutoff
        invariant |clients| == |old(clients)| - removed
        decreases |todo|
      {
        var ip :| ip in todo;
        if clients[ip].lastRefill < cutoff {
          assert clients.Keys == (clients - {ip}).Keys + {ip};
          clients := clients - {ip};
          removed := removed + 1;
        }
        todo := todo - {ip};
      }
    }

    // One request whose lookup and check nothing interrupts. `created` is the clock reading
    // of the lookup, used only if it makes a bucket, and `now` that of the check.
    method Allow(client: string, endpoint: string, created: int, now: int) returns (verdict: Option<Verdict>)
      requires Valid() && forall p | p in limits :: limits[p].rate > 0
      modifies this, clients.Values
      ensures Valid() && limits == old(limits)
      ensures verdict.None? <==>
              !enabled || (endpoint !in limits && forall p | p in limits :: !MatchesPattern(endpoint, p))
      ensures (forall p | p in limits :: '*' !in p) ==> (verdict.Some? <==> enabled && endpoint in limits)
      ensures verdict.None? ==> clients == old(clients)
      ensures forall c | c in old(clients) && c != client ::
                c in clients && clients[c] == old(clients)[c] && clients[c].Value() == old(clients[c].Value())
      ensures verdict.Some? ==>
                && clients.Keys == old(clients).Keys + {client}
                && exists p | p in limits && (endpoint == p || (endpoint !in limits && MatchesPattern(endpoint, p))) ::
                     var before := if client in old(clients) then old(clients[client].Value()) else Bucket(0, created);
                     && clients[client].Value() == Checked(before, limits[p], now)
                     && verdict.value.allowed == Grants(before, limits[p], now)
                     && verdict.value.remaining == (if verdict.value.allowed then clients[client].tokens else 0)
                     && verdict.value.resetTime == ReportedReset(before, limits[p], now)
    {
      if !enabled {
        return None;
      }
      var limit := GetLimitForEndpoint(endpoint);
      if limit.None? {
        return None;
      }
      ghost var p :| p in limits && limits[p] == limit.value &&
                     (endpoint == p || (endpoint !in limits && MatchesPattern(endpoint, p)));
      var bucket := GetOrCreateBucket(client, created);
      ghost var before := bucket.Value();
      var v := CheckLimit(bucket, limit.value, now);
      assert clients[client].Value() == Checked(before, limits[p], now);
      assert v.resetTime == ReportedReset(before, limits[p], now);
      verdict := Some(v);
    }
  }
}
