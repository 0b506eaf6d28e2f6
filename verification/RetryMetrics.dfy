/** The running averages that internal/retry/coordinator.go keeps of its operations. */
module RetryMetrics {
  import opened Arithmetic

  datatype Metrics = Metrics(
    totalRetries: nat,
    successfulRetries: nat,
    failedRetries: nat,
    averageAttempts: real,
    averageDelay: int)

  const NO_METRICS := Metrics(0, 0, 0, 0.0, 0)

  datatype Operation = Operation(success: bool, attempts: int, totalDelay: nat)

  // recordSuccess and recordFailure; the delay average is an integer quotient.
  function Recorded(m: Metrics, op: Operation): Metrics {
    var n := m.totalRetries + 1;
    Metrics(
      n,
      m.successfulRetries + (if op.success then 1 else 0),
      m.failedRetries + (if op.success then 0 else 1),
      (m.averageAttempts * (n - 1) as real + op.attempts as real) / n as real,
      (m.averageDelay * (n - 1) + op.totalDelay) / n)
  }

  function RecordedAll(ops: seq<Operation>): Metrics {
    if ops == [] then NO_METRICS else Recorded(RecordedAll(ops[..|ops| - 1]), ops[|ops| - 1])
  }

  function DelaySum(ops: seq<Operation>): nat {
    if ops == [] then 0 else DelaySum(ops[..|ops| - 1]) + ops[|ops| - 1].totalDelay
  }

  function AttemptSum(ops: seq<Operation>): int {
    if ops == [] then 0 else AttemptSum(ops[..|ops| - 1]) + ops[|ops| - 1].attempts
  }

  function Successes(ops: seq<Operation>): nat {
    if ops == [] then 0 else Successes(ops[..|ops| - 1]) + (if ops[|ops| - 1].success then 1 else 0)
  }

  lemma {:induction false} CountersAddUp(ops: seq<Operation>)
    ensures
      var m := RecordedAll(ops);
      m.totalRetries == |ops| == m.successfulRetries + m.failedRetries && m.successfulRetries == Successes(ops)
  {
    if ops != [] {
      CountersAddUp(ops[..|ops| - 1]);
    }
  }

  lemma QuotientTimes(x: real, n: real)
    requires n > 0.0
    ensures x / n * n == x
  {
  }

  // The attempts that a mean over the recorded operations stands for.
  function AttemptTotal(m: Metrics): real {
    m.averageAttempts * m.totalRetries as real
  }

  lemma OneMoreAttempt(m: Metrics, op: Operation)
    ensures AttemptTotal(Recorded(m, op)) == AttemptTotal(m) + op.attempts as real
  {
    var n := m.totalRetries + 1;
    QuotientTimes(m.averageAttempts * (n - 1) as real + op.attempts as real, n as real);
  }

  // The attempt average is the true mean.
  lemma {:induction false} AttemptAverageExact(ops: seq<Operation>)
    ensures AttemptTotal(RecordedAll(ops)) == AttemptSum(ops) as real
  {
    if ops != [] {
      AttemptAverageExact(ops[..|ops| - 1]);
      OneMoreAttempt(RecordedAll(ops[..|ops| - 1]), ops[|ops| - 1]);
    }
  }

  // One truncated update loses at most n - 1.
  lemma MeanStep(sum: nat, n: nat)
    requires n >= 1
    ensures 0 <= sum / n && 0 <= sum - n * (sum / n) <= n - 1
  {
    assert sum == n * (sum / n) + sum % n;
    MulAtLeast(sum / n, n);
  }

  // The shortfall after one more operation, given the one before.
  lemma DriftStep(sum: int, average: int, n: nat, delay: nat, drift: int)
    requires n >= 1 && average >= 0 && 0 <= sum - (n - 1) * average <= drift
    ensures
      var average' := (average * (n - 1) + delay) / n;
      average' >= 0 && 0 <= sum + delay - n * average' <= drift + (n - 1)
  {
    MulMono(0, average, n - 1);
    MeanStep(average * (n - 1) + delay, n);
  }

  function Triangle(n: nat): nat {
    if n == 0 then 0 else Triangle(n - 1) + (n - 1)
  }

  lemma {:induction false} TriangleIs(n: nat)
    ensures Triangle(n) == n * (n - 1) / 2
  {
    if n > 0 {
      TriangleIs(n - 1);
      assert n * (n - 1) == (n - 1) * (n - 2) + 2 * (n - 1);
    }
  }

  lemma {:induction false} DelayDrift(ops: seq<Operation>)
    ensures
      var average := RecordedAll(ops).averageDelay;
      average >= 0 && 0 <= DelaySum(ops) - |ops| * average <= Triangle(|ops|)
  {
    if ops != [] {
      var init, last, n := ops[..|ops| - 1], ops[|ops| - 1], |ops|;
      DelayDrift(init);
      CountersAddUp(init);
      DriftStep(DelaySum(init), RecordedAll(init).averageDelay, n, last.totalDelay, Triangle(n - 1));
    }
  }

  // After any n operations the counters add up, the attempt average is exact, and n times
  // the truncated delay average is short of the true sum by at most n(n - 1)/2.
  lemma MeanDrift(ops: seq<Operation>)
    ensures
      var m, n := RecordedAll(ops), |ops|;
      && m.totalRetries == n == m.successfulRetries + m.failedRetries && m.successfulRetries == Successes(ops)
      && AttemptTotal(m) == AttemptSum(ops) as real
      && m.averageDelay >= 0
      && 0 <= DelaySum(ops) - n * m.averageDelay <= n * (n - 1) / 2
  {
    CountersAddUp(ops);
    AttemptAverageExact(ops);
    DelayDrift(ops);
    TriangleIs(|ops|);
  }

  // The true mean is a whole number after every operation.
  ghost predicate WholeMeans(ops: seq<Operation>) {
    forall i | 1 <= i <= |ops| :: WholeMean(ops[..i], i)
  }

  predicate WholeMean(ops: seq<Operation>, n: nat)
    requires n >= 1
  {
    DelaySum(ops) % n == 0
  }

  lemma WholeMeansAppend(ops: seq<Operation>)
    requires ops != []
    ensures WholeMeans(ops) <==> WholeMeans(ops[..|ops| - 1]) && WholeMean(ops, |ops|)
  {
    var init := ops[..|ops| - 1];
    assert forall i | 1 <= i <= |init| :: init[..i] == ops[..i];
    assert ops[..|ops|] == ops;
  }

  // The shortfall never shrinks, and grows by the remainder of the update.
  lemma ShortfallStep(sum: int, average: int, n: nat, delay: nat)
    requires n >= 1 && 0 <= sum - (n - 1) * average
    ensures
      var average' := (average * (n - 1) + delay) / n;
      sum + delay == n * average' <==> sum == (n - 1) * average && (sum + delay) % n == 0
  {
    var total := average * (n - 1) + delay;
    assert total == n * (total / n) + total % n;
  }

  // The reported delay average is the true mean exactly if after every operation so far the true
  // mean was a whole number. Once it is short of the mean it stays short.
  lemma {:induction false} MeanExactIff(ops: seq<Operation>)
    ensures DelaySum(ops) == |ops| * RecordedAll(ops).averageDelay <==> WholeMeans(ops)
  {
    if ops != [] {
      var init, last, n := ops[..|ops| - 1], ops[|ops| - 1], |ops|;
      MeanExactIff(init);
      DelayDrift(init);
      CountersAddUp(init);
      ShortfallStep(DelaySum(init), RecordedAll(init).averageDelay, n, last.totalDelay);
      WholeMeansAppend(ops);
    }
  }

  // Operations whose delays are 0, 1, 2, ..., n - 1 nanoseconds.
  function Staircase(n: nat): (ops: seq<Operation>)
    ensures |ops| == n
  {
    if n == 0 then [] else Staircase(n - 1) + [Operation(true, 1, n - 1)]
  }

  lemma StaircaseStep(average: int, n: nat)
    requires average == 0 && n >= 1
    ensures (average * (n - 1) + (n - 1)) / n == 0
  {
    assert average * (n - 1) == 0;
    DivUnique(n - 1, n, 0, n - 1);
  }

  lemma {:induction false} StaircaseDrift(n: nat)
    ensures RecordedAll(Staircase(n)).averageDelay == 0 && DelaySum(Staircase(n)) == Triangle(n)
  {
    if n > 0 {
      var init, last := Staircase(n - 1), Operation(true, 1, n - 1);
      StaircaseDrift(n - 1);
      CountersAddUp(init);
      StaircaseStep(RecordedAll(init).averageDelay, n);
      assert (init + [last])[..n - 1] == init;
    }
  }

  // The bound is attained for every n: under these delays the reported average stays 0 for
  // ever, while the true one is (n - 1)/2.
  lemma MeanDriftAttained(n: nat)
    ensures |Staircase(n)| == n
    ensures RecordedAll(Staircase(n)).averageDelay == 0
    ensures DelaySum(Staircase(n)) == n * (n - 1) / 2
  {
    StaircaseDrift(n);
    TriangleIs(n);
  }
}
