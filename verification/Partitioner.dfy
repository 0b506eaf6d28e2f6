/**
 The partition strategies of internal/partitioner/strategies.go that keep state or search.
 Random draws are parameters; weights are exact reals.
 */
module Partitioner {
  import opened Arithmetic

  // ---------- machine integers ----------

  const TWO63: int := 0x8000_0000_0000_0000

  predicate Int64(x: int) {
    -TWO63 <= x < TWO63
  }

  // Addition of two int64 values, wrapping around.
  function Add64(x: int, y: int): (r: int)
    requires Int64(x) && Int64(y)
    ensures Int64(r) && r in {x + y, x + y - 2 * TWO63, x + y + 2 * TWO63}
  {
    if x + y >= TWO63 then x + y - 2 * TWO63 else if x + y < -TWO63 then x + y + 2 * TWO63 else x + y
  }

  // The remainder that truncates towards zero.
  function Rem(x: int, p: int): int
    requires p > 0
  {
    if x >= 0 then x % p else -((-x) % p)
  }

  // ---------- round robin ----------

  class RoundRobinPartitioner {
    var counter: int

    constructor ()
      ensures counter == 0
    {
      counter := 0;
    }

    // The call takes the counter's old value as its ticket, at the wrap-around too.
    method GetPartition(numPartitions: int) returns (partition: int)
      requires numPartitions > 0 && Int64(counter)
      modifies this
      ensures Int64(counter) && counter == Add64(old(counter), 1)
      ensures partition == Rem(old(counter), numPartitions)
      ensures 0 <= partition < numPartitions <==> old(counter) >= 0 || old(counter) % numPartitions == 0
    {
      counter := Add64(counter, 1);
      var next := Add64(counter, -1);
      partition := Rem(next, numPartitions);
      RemInRange(next, numPartitions);
    }
  }

  lemma Congruent(x: int, p: int, r: int)
    requires p > 0 && 0 <= r < p && (-x) % p == r
    ensures (x + r) % p == 0
    ensures x % p == if r == 0 then 0 else p - r
  {
    var q := (-x) / p;
    assert -x == q * p + r;
    DivUnique(x + r, p, -q, 0);
    if r != 0 {
      assert (-q - 1) * p == -(q * p) - p;
      DivUnique(x, p, -q - 1, p - r);
    }
  }

  lemma RemInRange(x: int, p: int)
    requires p > 0
    ensures -p < Rem(x, p) < p && (x - Rem(x, p)) % p == 0
    ensures x >= 0 ==> Rem(x, p) >= 0
    ensures x <= 0 ==> Rem(x, p) <= 0
    ensures 0 <= Rem(x, p) <==> x >= 0 || x % p == 0
  {
    if x >= 0 {
      assert x == x / p * p + x % p;
      DivUnique(x - x % p, p, x / p, 0);
    } else {
      Congruent(x, p, (-x) % p);
    }
  }

  // The counter after n calls, and the partitions they return.
  function CounterAfter(counter: int, n: nat): (c: int)
    requires Int64(counter)
    ensures Int64(c)
  {
    if n == 0 then counter else Add64(CounterAfter(counter, n - 1), 1)
  }

  function Served(counter: int, n: nat, p: int): seq<int>
    requires Int64(counter) && p > 0
  {
    if n == 0 then [] else Served(counter, n - 1, p) + [Rem(CounterAfter(counter, n - 1), p)]
  }

  function Count(xs: seq<int>, x: int): nat {
    if xs == [] then 0 else Count(xs[..|xs| - 1], x) + (if xs[|xs| - 1] == x then 1 else 0)
  }

  // How many of 0 .. m - 1 leave remainder j.
  function Below(m: nat, p: int, j: nat): nat
    requires p > 0
  {
    m / p + (if m % p > j then 1 else 0)
  }

  lemma BelowStep(m: nat, p: int, j: nat)
    requires j < p
    ensures Below(m + 1, p, j) == Below(m, p, j) + (if m % p == j then 1 else 0)
  {
    var q, r := m / p, m % p;
    assert m == q * p + r;
    if r + 1 < p {
      DivUnique(m + 1, p, q, r + 1);
    } else {
      assert (q + 1) * p == q * p + p;
      DivUnique(m + 1, p, q + 1, 0);
    }
  }

  lemma BelowSpread(c: nat, n: nat, p: int, j: nat)
    requires j < p
    ensures n / p <= Below(c + n, p, j) - Below(c, p, j) <= n / p + (if n % p == 0 then 0 else 1)
  {
    var q, r := c / p, c % p;
    var a, b := n / p, n % p;
    assert c == q * p + r && n == a * p + b;
    Distribute(p, q, a);
    if r + b < p {
      DivUnique(c + n, p, q + a, r + b);
    } else {
      Distribute(p, q + a, 1);
      DivUnique(c + n, p, q + a + 1, r + b - p);
    }
  }

  lemma {:induction false} CountIsDifference(c: nat, n: nat, p: int, j: nat)
    requires j < p && c + n <= TWO63 && c < TWO63
    ensures n < TWO63 - c ==> CounterAfter(c, n) == c + n
    ensures Count(Served(c, n, p), j) == Below(c + n, p, j) - Below(c, p, j)
  {
    if n > 0 {
      CountIsDifference(c, n - 1, p, j);
      BelowStep(c + n - 1, p, j);
      assert Served(c, n, p)[..n - 1] == Served(c, n - 1, p) by { ServedLength(c, n - 1, p); }
      ServedLength(c, n, p);
    }
  }

  lemma {:induction false} ServedLength(c: int, n: nat, p: int)
    requires Int64(c) && p > 0
    ensures |Served(c, n, p)| == n
  {
    if n > 0 {
      ServedLength(c, n - 1, p);
    }
  }

  // Until the counter wraps around, any n consecutive calls with p partitions choose each one
  // floor(n / p) or ceil(n / p) times.
  lemma RoundRobinFair(counter: nat, n: nat, p: int, j: nat)
    requires j < p && counter < TWO63 && counter + n <= TWO63
    ensures n / p <= Count(Served(counter, n, p), j) <= n / p + (if n % p == 0 then 0 else 1)
  {
    CountIsDifference(counter, n, p, j);
    BelowSpread(counter, n, p, j);
  }

  // ---------- weights ----------

  function Prefix(weights: seq<real>, n: nat): real
    requires n <= |weights|
  {
    if n == 0 then 0.0 else Prefix(weights, n - 1) + weights[n - 1]
  }

  predicate NonNegative(weights: seq<real>) {
    forall i | 0 <= i < |weights| :: weights[i] >= 0.0
  }

  // None of the first n prefix sums reaches r.
  predicate AllUnder(weights: seq<real>, r: real, n: nat)
    requires n <= |weights|
  {
    forall j: nat | 1 <= j <= n :: Prefix(weights, j) < r
  }

  // i is the first partition whose prefix sum reaches r.
  predicate FirstReaching(weights: seq<real>, r: real, i: nat) {
    && i < |weights|
    && r <= Prefix(weights, i + 1)
    && AllUnder(weights, r, i)
  }

  // The partition that a draw of r selects from p: the first whose prefix sum reaches r, or else
  // the last.
  predicate Selects(weights: seq<real>, p: nat, r: real, i: nat)
    requires 1 <= p <= |weights|
  {
    i < p && (FirstReaching(weights, r, i) || (i == p - 1 && AllUnder(weights, r, p)))
  }

  method Sum(weights: seq<real>) returns (total: real)
    ensures total == Prefix(weights, |weights|)
  {
    total := 0.0;
    for i := 0 to |weights|
      invariant total == Prefix(weights, i)
    {
      total := total + weights[i];
    }
  }

  class WeightedRandomPartitioner {
    var weights: seq<real>
    var total: real

    ghost predicate Valid()
      reads this
    {
      total == Prefix(weights, |weights|)
    }

    constructor (weights: seq<real>)
      ensures Valid() && this.weights == weights
    {
      var sum := Sum(weights);
      this.weights, total := weights, sum;
    }

    method UpdateWeights(weights: seq<real>)
      modifies this
      ensures Valid() && this.weights == weights
    {
      this.weights := weights;
      total := Sum(weights);
    }

    // `uniform` is the draw from 0 .. numPartitions - 1, and `draw` the one from [0, 1).
    method GetPartition(numPartitions: nat, draw: real, uniform: nat) returns (partition: nat)
      requires Valid() && uniform < numPartitions && 0.0 <= draw < 1.0
      ensures partition < numPartitions
      ensures |weights| < numPartitions ==> partition == uniform
      ensures |weights| >= numPartitions ==> Selects(weights, numPartitions, draw * total, partition)
    {
      if |weights| < numPartitions {
        return uniform;
      }
      var r := draw * total;
      var cumulative := 0.0;
      for i := 0 to numPartitions
        invariant cumulative == Prefix(weights, i)
        invariant AllUnder(weights, r, i)
      {
        cumulative := cumulative + weights[i];
        if r <= cumulative {
          return i;
        }
      }
      return numPartitions - 1;
    }
  }

  lemma {:induction false} PrefixMono(weights: seq<real>, i: nat, j: nat)
    requires NonNegative(weights) && i <= j <= |weights|
    ensures 0.0 <= Prefix(weights, i) <= Prefix(weights, j)
    decreases j
  {
    if i < j {
      PrefixMono(weights, i, j - 1);
    } else if j > 0 {
      PrefixMono(weights, i - 1, j - 1);
    }
  }

  lemma Scaled(draw: real, total: real) returns (r: real)
    requires 0.0 <= draw < 1.0 && total >= 0.0
    ensures r == draw * total && 0.0 <= r <= total
    ensures total > 0.0 ==> r < total && (r == 0.0 <==> draw == 0.0)
  {
    r := draw * total;
    assert (1.0 - draw) * total >= 0.0;
    if total > 0.0 { assert (1.0 - draw) * total > 0.0; }
    if total > 0.0 && draw > 0.0 { assert draw * total > 0.0; }
  }

  lemma AllBelow(weights: seq<real>, r: real, n: nat)
    requires NonNegative(weights) && n <= |weights|
    ensures AllUnder(weights, r, n) <==> n == 0 || Prefix(weights, n) < r
  {
    if Prefix(weights, n) < r {
      forall j: nat | 1 <= j <= n ensures Prefix(weights, j) < r {
        PrefixMono(weights, j, n);
      }
    }
  }

  // With non-negative weights partition i owns the half-open interval of draws r whose length
  // is its weight: the first interval is closed below, and if there are more weights than
  // partitions the last partition owns the rest as well.
  lemma SelectionInterval(weights: seq<real>, p: nat, r: real, i: nat)
    requires NonNegative(weights) && 1 <= p <= |weights| && i < p
    ensures Selects(weights, p, r, i) <==>
            (i == 0 || Prefix(weights, i) < r) && (r <= Prefix(weights, i + 1) || i == p - 1)
  {
    AllBelow(weights, r, i);
    AllBelow(weights, r, p);
    assert FirstReaching(weights, r, i) <==> (i == 0 || Prefix(weights, i) < r) && r <= Prefix(weights, i + 1);
    PrefixMono(weights, i, i + 1);
  }

  // The fallback after the loop is reached exactly when the draw lands beyond the weights in
  // use, and so never if there are exactly as many weights as partitions.
  lemma FallsThrough(weights: seq<real>, p: nat, draw: real, total: real)
    requires NonNegative(weights) && 1 <= p <= |weights| && 0.0 <= draw < 1.0
    requires total == Prefix(weights, |weights|)
    ensures AllUnder(weights, draw * total, p) <==> Prefix(weights, p) < draw * total
    ensures p == |weights| ==> draw * total <= Prefix(weights, p)
  {
    PrefixMono(weights, 0, |weights|);
    var r := Scaled(draw, total);
    AllBelow(weights, r, p);
  }

  lemma ZeroWeightInterval(weights: seq<real>, r: real, i: nat)
    requires NonNegative(weights) && 0.0 <= r < Prefix(weights, |weights|)
    requires i < |weights| && weights[i] == 0.0
    ensures Selects(weights, |weights|, r, i) <==> i == 0 && r == 0.0
  {
    SelectionInterval(weights, |weights|, r, i);
    assert Prefix(weights, i + 1) == Prefix(weights, i);
    assert Prefix(weights, 0) == 0.0;
    if i + 1 == |weights| {
      assert r < Prefix(weights, i);
    }
  }

  // A partition of weight zero is chosen only as the first one, by a draw of exactly zero.
  lemma ZeroWeightChosen(weights: seq<real>, draw: real, total: real, i: nat)
    requires NonNegative(weights) && total == Prefix(weights, |weights|) > 0.0 && 0.0 <= draw < 1.0
    requires i < |weights| && weights[i] == 0.0
    ensures Selects(weights, |weights|, draw * total, i) <==> i == 0 && draw == 0.0
  {
    var r := Scaled(draw, total);
    ZeroWeightInterval(weights, r, i);
  }

  // ---------- key ranges ----------

  datatype KeyRange = KeyRange(startKey: string, endKey: string, partition: int)

  // Byte-wise lexicographic order.
  predicate Leq(s: string, t: string) {
    s == [] || (t != [] && (s[0] < t[0] || (s[0] == t[0] && Leq(s[1..], t[1..]))))
  }

  // s is a prefix of t, or smaller at the first byte in which they differ.
  predicate Before(s: string, t: string) {
    || s <= t
    || exists i :: 0 <= i < |s| && i < |t| && s[..i] == t[..i] && s[i] < t[i]
  }

  lemma {:induction false} LeqIsLexicographic(s: string, t: string)
    ensures Leq(s, t) <==> Before(s, t)
  {
    if s != [] && t != [] {
      LeqIsLexicographic(s[1..], t[1..]);
      if s[0] == t[0] {
        BeforeTail(s, t);
      } else {
        assert s[..0] == t[..0];
        forall i | 0 < i < |s| && i < |t| ensures s[..i] != t[..i] {
          assert s[..i][0] == s[0] && t[..i][0] == t[0];
        }
      }
    }
  }

  lemma BeforeTail(s: string, t: string)
    requires s != [] && t != [] && s[0] == t[0]
    ensures Before(s, t) <==> Before(s[1..], t[1..])
  {
    var s', t' := s[1..], t[1..];
    assert s == [s[0]] + s' && t == [t[0]] + t';
    if i :| 0 <= i < |s'| && i < |t'| && s'[..i] == t'[..i] && s'[i] < t'[i] {
      assert s[..i + 1] == [s[0]] + s'[..i] && t[..i + 1] == [t[0]] + t'[..i];
      assert s[i + 1] < t[i + 1];
    }
    if i :| 0 <= i < |s| && i < |t| && s[..i] == t[..i] && s[i] < t[i] {
      assert s'[..i - 1] == s[..i][1..] && t'[..i - 1] == t[..i][1..];
      assert s'[i - 1] < t'[i - 1];
    }
  }

  predicate Qualifies(range: KeyRange, key: string, p: int) {
    Leq(range.startKey, key) && Leq(key, range.endKey) && range.partition < p
  }

  function Qualifying(ranges: seq<KeyRange>, key: string, p: int): seq<KeyRange> {
    if ranges == [] then []
    else (if Qualifies(ranges[0], key, p) then [ranges[0]] else []) + Qualifying(ranges[1..], key, p)
  }

  // Range i is the first that holds the key, both ends included, with a partition that is not too
  // large.
  predicate FirstHolding(ranges: seq<KeyRange>, key: string, p: int, i: nat) {
    && i < |ranges|
    && Before(ranges[i].startKey, key) && Before(key, ranges[i].endKey) && ranges[i].partition < p
    && forall j | 0 <= j < i && ranges[j].partition < p ::
         !(Before(ranges[j].startKey, key) && Before(key, ranges[j].endKey))
  }

  lemma {:induction false} QualifyingFirst(ranges: seq<KeyRange>, key: string, p: int) returns (i: nat)
    ensures if Qualifying(ranges, key, p) == [] then forall j: nat :: !FirstHolding(ranges, key, p, j)
            else FirstHolding(ranges, key, p, i) && Qualifying(ranges, key, p)[0] == ranges[i]
  {
    i := 0;
    if ranges != [] {
      LeqIsLexicographic(ranges[0].startKey, key);
      LeqIsLexicographic(key, ranges[0].endKey);
      if !Qualifies(ranges[0], key, p) {
        var rest := QualifyingFirst(ranges[1..], key, p);
        i := rest + 1;
        forall j: nat ensures FirstHolding(ranges, key, p, j) <==> j > 0 && FirstHolding(ranges[1..], key, p, j - 1) {
          FirstHoldingTail(ranges, key, p, j);
        }
      }
    }
  }

  lemma FirstHoldingTail(ranges: seq<KeyRange>, key: string, p: int, j: nat)
    requires ranges != [] && !Qualifies(ranges[0], key, p)
    ensures FirstHolding(ranges, key, p, j) <==> j > 0 && FirstHolding(ranges[1..], key, p, j - 1)
  {
    LeqIsLexicographic(ranges[0].startKey, key);
    LeqIsLexicographic(key, ranges[0].endKey);
    var rest := ranges[1..];
    assert forall k | 1 <= k < |ranges| :: ranges[k] == rest[k - 1];
    assert forall k | 0 <= k < |rest| :: rest[k] == ranges[k + 1];
  }

  class KeyRangePartitioner {
    const hash: string -> nat  // the 32-bit FNV-1a hash
    var ranges: seq<KeyRange>

    constructor (ranges: seq<KeyRange>, hash: string -> nat)
      ensures this.ranges == ranges && this.hash == hash
    {
      this.ranges, this.hash := ranges, hash;
    }

    method UpdateRanges(ranges: seq<KeyRange>)
      modifies this
      ensures this.ranges == ranges
    {
      this.ranges := ranges;
    }

    // The first range that holds the key and whose partition is not too large decides, even if
    // that partition is negative; only the hash is always in range.
    method GetPartition(key: string, numPartitions: int) returns (partition: int)
      requires numPartitions > 0
      ensures
        var qs := Qualifying(ranges, key, numPartitions);
        && partition == (if qs == [] then hash(key) % numPartitions else qs[0].partition)
        && (0 <= partition < numPartitions <==> qs == [] || qs[0].partition >= 0)
      ensures (forall i: nat :: !FirstHolding(ranges, key, numPartitions, i)) ==> partition == hash(key) % numPartitions
      ensures forall i: nat :: FirstHolding(ranges, key, numPartitions, i) ==> partition == ranges[i].partition
    {
      ghost var first := QualifyingFirst(ranges, key, numPartitions);
      for i := 0 to |ranges|
        invariant Qualifying(ranges, key, numPartitions) == Qualifying(ranges[i..], key, numPartitions)
      {
        assert ranges[i..][1..] == ranges[i + 1..];
        var r := ranges[i];
        if Leq(r.startKey, key) && Leq(key, r.endKey) && r.partition < numPartitions {
          assert Qualifying(ranges[i..], key, numPartitions)[0] == r;
          QualifyingFit(ranges, key, numPartitions);
          return r.partition;
        }
      }
      partition := hash(key) % numPartitions;
    }
  }

  lemma {:induction false} QualifyingFit(ranges: seq<KeyRange>, key: string, p: int)
    ensures forall r | r in Qualifying(ranges, key, p) :: r in ranges && Qualifies(r, key, p)
  {
    if ranges != [] {
      QualifyingFit(ranges[1..], key, p);
    }
  }
}
