/** What the retry loop of internal/retry/coordinator.go promises over a whole call. */
module RetryLaws {
  import opened Prelude
  import opened ErrorReports
  import opened RetryMetrics
  import opened Retry
  import Arithmetic
  import Strategies = Backoff
  import Table = ErrorCategories

  // ---------- where a call leaves ----------

  lemma ExitFrom(s: Setup, k: nat) returns (f: nat)
    requires 1 <= k <= s.policy.maxAttempts
    requires forall j | 1 <= j < k :: Continues(s, j)
    ensures StopsAt(s, f)
    decreases s.policy.maxAttempts - k
  {
    if Continues(s, k) {
      f := ExitFrom(s, k + 1);
    } else {
      f := k;
    }
  }

  // An error that ends the call if it occurs at attempt k.
  predicate Final(s: Setup, k: nat)
    requires FailsAt(s, k)
  {
    || k >= s.policy.maxAttempts
    || InfoAt(s, k).errorType in s.policy.stopOn
    || !s.categorizer.isRetryable(InfoAt(s, k).errorType, InfoAt(s, k).severity)
  }

  // A call that may attempt at all leaves its loop at exactly one attempt, so the code after
  // the loop is never reached. Every earlier attempt failed with an error that the policy and
  // the categorizer let it repeat, and no cancellation was seen before it or in its wait.
  lemma StopsOnce(s: Setup) returns (f: nat)
    requires s.policy.maxAttempts >= 1
    ensures StopsAt(s, f) && forall g | StopsAt(s, g) :: g == f
    ensures forall k | 1 <= k < f ::
              && FailsAt(s, k) && !Final(s, k)
              && !s.world.cancelledBefore(k) && !s.world.cancelledDuring(k)
  {
    f := ExitFrom(s, 1);
    forall g: nat | StopsAt(s, g) ensures g == f {
      assert g < f ==> Continues(s, g);
      assert f < g ==> Continues(s, f);
    }
    forall k | 1 <= k < f
      ensures
        && FailsAt(s, k) && !Final(s, k)
        && !s.world.cancelledBefore(k) && !s.world.cancelledDuring(k)
    {
      assert Continues(s, k);
    }
  }

  // How the call leaves there: it is cancelled if the context is found cancelled before the attempt,
  // succeeds if the attempt does, and gives up exactly on an error at the last attempt allowed,
  // of a stopping type, or not to be retried. Otherwise it is cancelled in the wait.
  lemma ExitTells(s: Setup, f: nat)
    requires StopsAt(s, f)
    ensures ExitAt(s, f).CancelledBefore? <==> s.world.cancelledBefore(f)
    ensures ExitAt(s, f).Succeeded? <==> !s.world.cancelledBefore(f) && s.world.outcome(f).None?
    ensures ExitAt(s, f).GaveUp? <==> !s.world.cancelledBefore(f) && FailsAt(s, f) && Final(s, f)
    ensures ExitAt(s, f).CancelledWaiting? <==>
            && !s.world.cancelledBefore(f) && FailsAt(s, f)
            && !Final(s, f) && s.world.cancelledDuring(f)
  {
  }

  // What the call returns and records there: the error of the attempt that made it give up, and
  // one operation with that attempt and the time waited, unless it was cancelled.
  lemma ResultTells(s: Setup, f: nat)
    requires StopsAt(s, f)
    ensures AllFail(s, f - 1)
    ensures
      var exit, e, ops := ExitAt(s, f), ErrorAtExit(s, f), LoggedAtExit(s, f);
      && (e == NoError <==> exit.Succeeded?)
      && (exit.GaveUp? <==> e.Failed?) && (e.Failed? ==> Some(e.message) == s.world.outcome(f))
      && (ops == [] <==> exit.CancelledBefore? || exit.CancelledWaiting?)
      && (ops != [] ==> ops == [Operation(exit.Succeeded?, f, WaitedAtExit(s, f))])
      && Failures(s, f) == f - (if s.world.cancelledBefore(f) || s.world.outcome(f).None? then 1 else 0)
  {
    FailuresFail(s, f);
  }

  lemma FailuresFail(s: Setup, f: nat)
    requires StopsAt(s, f)
    ensures AllFail(s, f - 1) && AllFail(s, Failures(s, f))
  {
    forall k | 1 <= k < f ensures FailsAt(s, k) {
      assert Continues(s, k);
    }
  }

  // ---------- the report ----------

  lemma {:induction false} HistoryShape(s: Setup, n: nat, i: nat)
    requires AllFail(s, n) && n >= 1
    ensures |HistoryAfter(s, n)| == n - 1
    ensures i < n - 1 ==>
      HistoryAfter(s, n)[i] == RetryAttempt(i + 2, MessageAt(s, i + 2), RecordedDelay(s, i + 2))
  {
    if n > 1 {
      HistoryShape(s, n - 1, i);
    }
  }

  // The report counts the failures, describes the first of them, numbers the others 2, 3, ...
  // in order, and is resolved exactly when the call succeeds.
  lemma ReportShape(s: Setup, messageId: string, topic: string, f: nat)
    requires StopsAt(s, f) && Failures(s, f) >= 1
    ensures AllFail(s, Failures(s, f))
    ensures
      var report, n := ReportAtExit(s, messageId, topic, f), Failures(s, f);
      && report.messageId == messageId && report.topic == topic
      && report.errorMessage == MessageAt(s, 1)
      && report.errorType == InfoAt(s, 1).errorType && report.severity == InfoAt(s, 1).severity
      && report.attemptNumber == n == |report.retryHistory| + 1
      && (forall i | 0 <= i < n - 1 ::
            report.retryHistory[i] == RetryAttempt(i + 2, MessageAt(s, i + 2), RecordedDelay(s, i + 2)))
      && (report.isResolved <==> ExitAt(s, f).Succeeded?)
      && (report.isResolved ==> report.resolvedOn.value == n + 1)
  {
    FailuresFail(s, f);
    var n := Failures(s, f);
    HistoryShape(s, n, 0);
    forall i | 0 <= i < n - 1
      ensures HistoryAfter(s, n)[i] == RetryAttempt(i + 2, MessageAt(s, i + 2), RecordedDelay(s, i + 2))
    {
      HistoryShape(s, n, i);
    }
  }

  // ---------- the table of active retries ----------

  // A returning call leaves the table as it found it exactly when it saw no failure, or it did
  // not leave through the cancellation check at the top of the loop and its identifier was
  // unused before. The check at the top leaves the entry behind.
  lemma ActiveRestored<T>(active: map<string, T>, id: string, exit: Exit, failures: nat, report: T)
    requires report !in active.Values  // a call's report is new
    ensures ActiveAfter(active, id, exit, failures, report) == active
            <==> failures == 0 || (exit != CancelledBefore && id !in active)
  {
    if failures > 0 && exit == CancelledBefore {
      assert id in active ==> active[id] in active.Values;
      assert active[id := report][id] == report;
    } else if failures > 0 {
      assert id !in active - {id};
    }
  }

  // ---------- delays ----------

  function HistorySum(history: seq<RetryAttempt>): int {
    if history == [] then 0 else HistorySum(history[..|history| - 1]) + history[|history| - 1].delay
  }

  lemma HistorySumGrows(s: Setup, n: nat)
    requires n >= 2 && AllFail(s, n)
    ensures HistorySum(HistoryAfter(s, n)) == HistorySum(HistoryAfter(s, n - 1)) + RecordedDelay(s, n)
  {
    var last := RetryAttempt(n, MessageAt(s, n), RecordedDelay(s, n));
    assert HistoryAfter(s, n) == HistoryAfter(s, n - 1) + [last];
    assert (HistoryAfter(s, n - 1) + [last])[..|HistoryAfter(s, n)| - 1] == HistoryAfter(s, n - 1);
  }

  // The history and the total agree on the first n failures.
  predicate Accounted(s: Setup, n: nat)
    requires n >= 1 && AllFail(s, n)
  {
    HistorySum(HistoryAfter(s, n)) == TotalWait(s, n - 1)
  }

  // Attempt k's history entry is the wait that preceded the attempt.
  predicate Aligned(s: Setup, k: nat)
    requires k >= 2 && AllFail(s, k)
  {
    RecordedDelay(s, k) == WaitAt(s, k - 1)
  }

  lemma AlignedStep(s: Setup, n: nat)
    requires n >= 2 && AllFail(s, n)
    ensures Accounted(s, n - 1) ==> (Accounted(s, n) <==> Aligned(s, n))
  {
    HistorySumGrows(s, n);
  }

  predicate AllAccounted(s: Setup, n: nat)
    requires AllFail(s, n)
  {
    forall m | 1 <= m <= n :: Accounted(s, m)
  }

  predicate AllAligned(s: Setup, n: nat)
    requires AllFail(s, n)
  {
    forall k | 2 <= k <= n :: Aligned(s, k)
  }

  lemma {:induction false} AccountedIffAligned(s: Setup, n: nat)
    requires n >= 1 && AllFail(s, n)
    ensures AllAccounted(s, n) <==> AllAligned(s, n)
  {
    if n >= 2 {
      AccountedIffAligned(s, n - 1);
      AlignedStep(s, n);
      assert AllAccounted(s, n) <==> AllAccounted(s, n - 1) && Accounted(s, n);
      assert AllAligned(s, n) <==> AllAligned(s, n - 1) && Aligned(s, n);
      assert AllAccounted(s, n - 1) ==> Accounted(s, n - 1);
    } else {
      assert HistoryAfter(s, n) == [] && TotalWait(s, n - 1) == 0;
    }
  }

  // Without jitter a delay is the same for the wait and for the record.
  predicate Steady(s: Setup, n: nat) {
    forall k: int | 2 <= k <= n :: Backoff(s, k, true) == Backoff(s, k, false)
  }

  predicate ZeroesAgree(s: Setup, k: nat)
    requires k >= 2 && AllFail(s, k)
  {
    ZeroAt(s, k - 1) <==> ZeroAt(s, k)
  }

  // The wait after a failed attempt is the backoff of the next, and zero exactly if the categorizer
  // asks for an immediate retry, or names no strategy and the policy asks for one or names none.
  lemma WaitTells(s: Setup, k: nat)
    requires FailsAt(s, k)
    ensures
      var strategy := s.categorizer.strategyOf(InfoAt(s, k).errorType, InfoAt(s, k).severity);
      && (ZeroAt(s, k) <==>
            || strategy == Table.Immediate
            || (strategy == Table.NoStrategy && s.policy.strategy in {Table.Immediate, Table.NoStrategy}))
      && WaitAt(s, k) == (if ZeroAt(s, k) then 0 else s.world.backoff(k + 1, false))
      && RecordedDelay(s, k) == (if ZeroAt(s, k) then 0 else s.world.backoff(k, true))
  {
  }

  // An entry takes its strategy from the error that follows the wait, not from the one that
  // caused it. So without jitter the history adds up to the time waited, at every point of the
  // call, exactly when no two neighbouring errors differ in asking for a zero delay, unless
  // the backoff between them is zero anyway.
  lemma DelaysAccounted(s: Setup, n: nat)
    requires n >= 1 && AllFail(s, n) && Steady(s, n)
    ensures AllAccounted(s, n) <==> forall k | 2 <= k <= n :: ZeroesAgree(s, k) || Backoff(s, k, false) == 0
  {
    AccountedIffAligned(s, n);
    forall k | 2 <= k <= n
      ensures Aligned(s, k) <==> ZeroesAgree(s, k) || Backoff(s, k, false) == 0
    {
      assert Backoff(s, k, true) == Backoff(s, k, false);
    }
  }

  // The delays of attempts 2 to n.
  function BackoffSum(s: Setup, n: nat): nat {
    if n < 2 then 0 else BackoffSum(s, n - 1) + Backoff(s, n, false)
  }

  lemma {:induction false} WaitsAreBackoffs(s: Setup, n: nat)
    requires AllFail(s, n) && forall k | 1 <= k <= n :: FailsAt(s, k) && !ZeroAt(s, k)
    ensures TotalWait(s, n) == BackoffSum(s, n + 1)
  {
    if n > 0 {
      WaitsAreBackoffs(s, n - 1);
    }
  }

  predicate NoZero(s: Setup, n: nat) {
    forall k | 1 <= k <= n :: FailsAt(s, k) ==> !ZeroAt(s, k)
  }

  lemma HistoryIsBackoffs(s: Setup, n: nat)
    requires n >= 1 && AllFail(s, n) && Steady(s, n) && NoZero(s, n)
    ensures TotalWait(s, n - 1) == HistorySum(HistoryAfter(s, n)) == BackoffSum(s, n)
  {
    forall k | 2 <= k <= n ensures ZeroesAgree(s, k) {
      assert !ZeroAt(s, k - 1) && !ZeroAt(s, k);
    }
    DelaysAccounted(s, n);
    assert Accounted(s, n);
    WaitsAreBackoffs(s, n - 1);
  }

  // A call that gives up at attempt f, without jitter and without an error that asks for a
  // zero delay: the total, the history and the delays of attempts 2 to f agree.
  lemma GiveUpAccounted(s: Setup, messageId: string, topic: string, f: nat)
    requires StopsAt(s, f) && ExitAt(s, f).GaveUp? && Steady(s, f) && NoZero(s, f)
    ensures AllFail(s, f)
    ensures WaitedAtExit(s, f) == HistorySum(ReportAtExit(s, messageId, topic, f).retryHistory) == BackoffSum(s, f)
  {
    FailuresFail(s, f);
    HistoryIsBackoffs(s, f);
  }

  lemma {:induction false} WaitAtMost(s: Setup, n: nat, max: nat)
    requires AllFail(s, n) && forall k: int :: Backoff(s, k, false) <= max
    ensures TotalWait(s, n) <= n * max
  {
    if n > 0 {
      WaitAtMost(s, n - 1, max);
      Arithmetic.Successor(n, max);
      assert Backoff(s, n + 1, false) <= max;
    }
  }

  // The waits a call begins that leaves at attempt f: one before each repetition, and one more if
  // it is cancelled while it waits.
  function Waits(s: Setup, f: nat): nat
    requires StopsAt(s, f)
  {
    if ExitAt(s, f).CancelledWaiting? then f else f - 1
  }

  // Whatever the strategy: if none of its delays exceeds a maximum, a call waits at most that
  // maximum for each wait it begins, however it leaves.
  lemma WaitedAtMost(s: Setup, f: nat, max: nat)
    requires StopsAt(s, f) && forall k: int :: Backoff(s, k, false) <= max
    ensures AllFail(s, f - 1)
    ensures WaitedAtExit(s, f) <= Waits(s, f) * max
    ensures Waits(s, f) <= s.policy.maxAttempts - 1
  {
    FailuresFail(s, f);
    WaitAtMost(s, Waits(s, f), max);
  }

  // The three strategies of internal/retry/backoff.go.
  datatype BackoffStrategy =
    | Exponential(eb: Strategies.Exponential, draws: (int, bool) -> real)
    | Linear(lb: Strategies.Linear)
    | Fixed(delay: nat)
  {
    ghost predicate Valid() {
      match this
      case Exponential(eb, draws) => eb.Valid() && forall k: int, recording: bool :: 0.0 <= draws(k, recording) < 1.0
      case Linear(lb) => lb.Valid()
      case Fixed(_) => true
    }

    function Delay(k: int, recording: bool): int {
      match this
      case Exponential(eb, draws) => Strategies.CalculateDelay(eb, k, draws(k, recording))
      case Linear(lb) => Strategies.LinearDelay(lb, k)
      case Fixed(delay) => delay
    }

    predicate Jitters() {
      Exponential? && eb.jitter
    }

    function MaxDelay(): int {
      match this
      case Exponential(eb, _) => eb.maxDelay
      case Linear(lb) => lb.maxDelay
      case Fixed(delay) => delay
    }
  }

  ghost predicate Uses(s: Setup, strategy: BackoffStrategy) {
    strategy.Valid() && forall k: int, recording: bool :: Backoff(s, k, recording) == strategy.Delay(k, recording)
  }

  lemma StrategyDelay(s: Setup, strategy: BackoffStrategy, k: int)
    requires Uses(s, strategy)
    ensures 10 * Backoff(s, k, false) <= 11 * strategy.MaxDelay() && strategy.MaxDelay() >= 0
    ensures !strategy.Jitters() ==> Backoff(s, k, true) == Backoff(s, k, false) <= strategy.MaxDelay()
  {
    assert Backoff(s, k, true) == strategy.Delay(k, true) && Backoff(s, k, false) == strategy.Delay(k, false);
    match strategy
    case Exponential(eb, draws) =>
      if eb.jitter {
        Strategies.JitterBand(eb, k, draws(k, false));
      } else {
        Strategies.DelaysOrdered(eb, k, k, draws(k, true), draws(k, false));
      }
    case Linear(lb) => Strategies.LinearWithin(lb, k);
    case Fixed(_) =>
  }

  // With any of the strategies a call waits at most the maximum for each wait it begins, or a
  // tenth more with jitter, however it leaves.
  lemma TotalDelayBounded(s: Setup, strategy: BackoffStrategy, f: nat)
    requires Uses(s, strategy) && StopsAt(s, f)
    ensures AllFail(s, f - 1)
    ensures WaitedAtExit(s, f) <= Waits(s, f) * (11 * strategy.MaxDelay() / 10)
    ensures !strategy.Jitters() ==> WaitedAtExit(s, f) <= Waits(s, f) * strategy.MaxDelay()
    ensures Waits(s, f) <= s.policy.maxAttempts - 1
  {
    StrategyDelay(s, strategy, 0);
    forall k: int
      ensures Backoff(s, k, false) <= 11 * strategy.MaxDelay() / 10
      ensures !strategy.Jitters() ==> Backoff(s, k, false) <= strategy.MaxDelay()
    {
      StrategyDelay(s, strategy, k);
    }
    WaitedAtMost(s, f, 11 * strategy.MaxDelay() / 10);
    if !strategy.Jitters() {
      WaitedAtMost(s, f, strategy.MaxDelay());
    }
  }

  // ---------- with the table of internal/producer/errors.go ----------

  ghost predicate UsesTable(s: Setup) {
    && (forall t, v :: s.categorizer.isRetryable(t, v) == Table.IsRetryable(t, v))
    && (forall t, v :: s.categorizer.strategyOf(t, v) == Table.GetRetryStrategy(t, v))
  }

  // Under the table the only errors that are repeated at once are network errors of low
  // severity; the policy's strategy matters only for errors that are not repeated.
  lemma TableZero(s: Setup, k: nat)
    requires UsesTable(s) && FailsAt(s, k)
    ensures
      var info := InfoAt(s, k);
      && (ZeroAt(s, k) <==>
            || (info.errorType == Table.Network && info.severity == Table.Low)
            || (!Table.IsRetryable(info.errorType, info.severity) &&
                s.policy.strategy in {Table.Immediate, Table.NoStrategy}))
      && (Continues(s, k) ==> (ZeroAt(s, k) <==> info.errorType == Table.Network && info.severity == Table.Low))
  {
    var info := InfoAt(s, k);
    Table.StrategyFollowsTable(info.errorType, info.severity);
    assert s.categorizer.strategyOf(info.errorType, info.severity) ==
        Table.GetRetryStrategy(info.errorType, info.severity);
    assert s.categorizer.isRetryable(info.errorType, info.severity) == Table.IsRetryable(info.errorType, info.severity);
  }

  // Under the table a call gives up exactly on an error at the last attempt, of a stopping type, of
  // one of the five types that no repetition mends, or critical and not of the network, the
  // broker or a timeout.
  lemma TableGivesUp(s: Setup, f: nat)
    requires UsesTable(s) && StopsAt(s, f)
    ensures ExitAt(s, f).GaveUp? <==>
      && !s.world.cancelledBefore(f) && FailsAt(s, f)
      && var info := InfoAt(s, f);
         || f == s.policy.maxAttempts || info.errorType in s.policy.stopOn
         || info.errorType in {Table.Authentication, Table.Authorization, Table.Validation,
                               Table.Configuration, Table.Serialization}
         || (info.severity == Table.Critical && info.errorType !in {Table.Network, Table.Timeout, Table.Broker})
  {
    if FailsAt(s, f) {
      var info := InfoAt(s, f);
      Table.RetryableIff(info.errorType, info.severity);
      assert s.categorizer.isRetryable(info.errorType, info.severity) ==
             Table.IsRetryable(info.errorType, info.severity);
    }
  }

  // Under the table, with a policy strategy that is not zero and any backoff without jitter: a
  // call that meets no network error of low severity and gives up has waited what its report says.
  lemma TableAccounted(s: Setup, strategy: BackoffStrategy, messageId: string, topic: string, f: nat)
    requires UsesTable(s) && Uses(s, strategy) && !strategy.Jitters()
    requires s.policy.strategy !in {Table.Immediate, Table.NoStrategy}
    requires StopsAt(s, f) && ExitAt(s, f).GaveUp?
    requires forall k | 1 <= k <= f ::
               FailsAt(s, k) ==> InfoAt(s, k).errorType != Table.Network || InfoAt(s, k).severity != Table.Low
    ensures AllFail(s, f)
    ensures WaitedAtExit(s, f) == HistorySum(ReportAtExit(s, messageId, topic, f).retryHistory) == BackoffSum(s, f)
  {
    forall k | 1 <= k <= f && FailsAt(s, k) ensures !ZeroAt(s, k) {
      TableZero(s, k);
    }
    forall k: int | 2 <= k <= f ensures Backoff(s, k, true) == Backoff(s, k, false) {
      StrategyDelay(s, strategy, k);
    }
    GiveUpAccounted(s, messageId, topic, f);
  }
}
