/**
 The retry loop of internal/retry/coordinator.go. One call takes its surroundings from a
 `World`: what the operation returns at each attempt, where the context is found cancelled, and
 the delays that the backoff strategy hands out.
 */
module Retry {
  import opened Prelude
  import opened ErrorCategories
  import opened ErrorReports
  import opened RetryMetrics

  datatype Policy = Policy(maxAttempts: int, strategy: Strategy, stopOn: seq<ErrorType>)

  datatype Categorizer = Categorizer(
    categorize: string -> Info,
    isRetryable: (ErrorType, Severity) -> bool,
    strategyOf: (ErrorType, Severity) -> Strategy)

  // `backoff(k, recording)` is CalculateDelay(k), drawn anew for the wait and for the record.
  datatype World = World(
    outcome: nat -> Option<string>,
    cancelledBefore: nat -> bool,
    cancelledDuring: nat -> bool,
    backoff: (int, bool) -> nat)

  datatype Setup = Setup(policy: Policy, categorizer: Categorizer, world: World)

  datatype FinalError = NoError | Failed(message: string) | Cancelled

  datatype Exit = CancelledBefore | Succeeded | GaveUp | CancelledWaiting

  datatype RetryResult = RetryResult(
    success: bool,
    finalError: FinalError,
    attemptCount: int,
    totalDelay: nat,
    report: ErrorReport?)

  // ---------- one attempt ----------

  predicate ShouldRetry(policy: Policy, categorizer: Categorizer, info: Info, attempt: int) {
    && attempt < policy.maxAttempts
    && info.errorType !in policy.stopOn
    && categorizer.isRetryable(info.errorType, info.severity)
  }

  predicate IsZero(strategy: Strategy) {
    strategy == Immediate || strategy == NoStrategy
  }

  // The strategy in force for an error: the categorizer's, or else the policy's.
  function StrategyFor(policy: Policy, categorizer: Categorizer, info: Info): Strategy {
    var strategy := categorizer.strategyOf(info.errorType, info.severity);
    if strategy == NoStrategy then policy.strategy else strategy
  }

  predicate FailsAt(s: Setup, k: nat) {
    s.world.outcome(k).Some?
  }

  function MessageAt(s: Setup, k: nat): string
    requires FailsAt(s, k)
  {
    s.world.outcome(k).value
  }

  function InfoAt(s: Setup, k: nat): Info
    requires FailsAt(s, k)
  {
    s.categorizer.categorize(MessageAt(s, k))
  }

  predicate ZeroAt(s: Setup, k: nat)
    requires FailsAt(s, k)
  {
    IsZero(StrategyFor(s.policy, s.categorizer, InfoAt(s, k)))
  }

  // Attempt k fails, may be repeated, and no cancellation is seen before it or during its wait.
  predicate Continues(s: Setup, k: nat) {
    && !s.world.cancelledBefore(k)
    && FailsAt(s, k)
    && ShouldRetry(s.policy, s.categorizer, InfoAt(s, k), k)
    && !s.world.cancelledDuring(k)
  }

  function Backoff(s: Setup, attempt: int, recording: bool): nat {
    s.world.backoff(attempt, recording)
  }

  // The wait after attempt k, and the delay that attempt k's history entry reports.
  function WaitAt(s: Setup, k: nat): nat
    requires FailsAt(s, k)
  {
    if ZeroAt(s, k) then 0 else Backoff(s, k + 1, false)
  }

  function RecordedDelay(s: Setup, k: nat): nat
    requires FailsAt(s, k)
  {
    if ZeroAt(s, k) then 0 else Backoff(s, k, true)
  }

  // ---------- a whole call ----------

  predicate AllFail(s: Setup, n: nat) {
    forall k | 1 <= k <= n :: FailsAt(s, k)
  }

  // The call leaves at attempt f: the first that does not continue.
  predicate StopsAt(s: Setup, f: nat) {
    && 1 <= f <= s.policy.maxAttempts
    && (forall k | 1 <= k < f :: Continues(s, k))
    && !Continues(s, f)
  }

  function ExitAt(s: Setup, f: nat): Exit {
    if s.world.cancelledBefore(f) then CancelledBefore
    else if !FailsAt(s, f) then Succeeded
    else if !ShouldRetry(s.policy, s.categorizer, InfoAt(s, f), f) then GaveUp
    else CancelledWaiting
  }

  // The failures that a call leaving at attempt f has seen.
  function Failures(s: Setup, f: nat): nat
    requires f >= 1
  {
    if ExitAt(s, f).CancelledBefore? || ExitAt(s, f).Succeeded? then f - 1 else f
  }

  function TotalWait(s: Setup, n: nat): nat
    requires AllFail(s, n)
  {
    if n == 0 then 0 else TotalWait(s, n - 1) + WaitAt(s, n)
  }

  function HistoryAfter(s: Setup, n: nat): seq<RetryAttempt>
    requires AllFail(s, n)
  {
    if n <= 1 then []
    else HistoryAfter(s, n - 1) + [RetryAttempt(n, MessageAt(s, n), RecordedDelay(s, n))]
  }

  function ReportAfter(s: Setup, messageId: string, topic: string, n: nat): ReportValue
    requires n >= 1 && AllFail(s, n)
  {
    ReportValue(messageId, topic, MessageAt(s, 1), InfoAt(s, 1).errorType, InfoAt(s, 1).severity,
                n, HistoryAfter(s, n), false, None)
  }

  function ReportAtExit(s: Setup, messageId: string, topic: string, f: nat): ReportValue
    requires f >= 1 && Failures(s, f) >= 1 && AllFail(s, Failures(s, f))
  {
    var report := ReportAfter(s, messageId, topic, Failures(s, f));
    if ExitAt(s, f).Succeeded? then report.(isResolved := true, resolvedOn := Some(f)) else report
  }

  function WaitedAtExit(s: Setup, f: nat): nat
    requires f >= 1 && AllFail(s, f - 1)
  {
    if ExitAt(s, f).CancelledWaiting? then TotalWait(s, f) else TotalWait(s, f - 1)
  }

  function ErrorAtExit(s: Setup, f: nat): FinalError {
    match ExitAt(s, f)
    case CancelledBefore | CancelledWaiting => Cancelled
    case Succeeded => NoError
    case GaveUp => Failed(MessageAt(s, f))
  }

  // What a call leaving at attempt f adds to the metrics: a cancelled call adds nothing.
  function LoggedAtExit(s: Setup, f: nat): seq<Operation>
    requires f >= 1 && AllFail(s, f - 1)
  {
    match ExitAt(s, f)
    case CancelledBefore | CancelledWaiting => []
    case Succeeded => [Operation(true, f, TotalWait(s, f - 1))]
    case GaveUp => [Operation(false, f, TotalWait(s, f - 1))]
  }

  // The entry of the operation in the table of active retries when the call returns.
  function ActiveAfter<T>(active: map<string, T>, id: string, exit: Exit, failures: nat, report: T): map<string, T> {
    if failures == 0 then active
    else if exit.CancelledBefore? then active[id := report]
    else active - {id}
  }

  // ---------- the coordinator ----------

  class RetryCoordinator {
    const policy: Policy
    const categorizer: Categorizer
    var activeRetries: map<string, ErrorReport>
    var retryMetrics: Metrics
    ghost var log: seq<Operation>  // every operation recorded so far

    ghost predicate Valid()
      reads this
    {
      retryMetrics == RecordedAll(log)
    }

    constructor (policy: Policy, categorizer: Categorizer)
      ensures Valid() && this.policy == policy && this.categorizer == categorizer
      ensures activeRetries == map[] && log == []
    {
      this.policy, this.categorizer := policy, categorizer;
      activeRetries, retryMetrics, log := map[], NO_METRICS, [];
    }

    method MayRetry(info: Info, attempt: int) returns (retry: bool)
      ensures retry == ShouldRetry(policy, categorizer, info, attempt)
    {
      if attempt >= policy.maxAttempts {
        return false;
      }
      for i := 0 to |policy.stopOn|
        invariant info.errorType !in policy.stopOn[..i]
      {
        if info.errorType == policy.stopOn[i] {
          return false;
        }
      }
      return categorizer.isRetryable(info.errorType, info.severity);
    }

    method CalculateDelay(world: World, attempt: int, info: Info, recording: bool) returns (delay: nat)
      ensures delay ==
              if IsZero(StrategyFor(policy, categorizer, info)) then 0 else world.backoff(attempt + 1, recording)
    {
      var strategy := categorizer.strategyOf(info.errorType, info.severity);
      if strategy == NoStrategy {
        strategy := policy.strategy;
      }
      if strategy == Immediate || strategy == NoStrategy {
        return 0;
      }
      return world.backoff(attempt + 1, recording);
    }

    method AddWait(world: World, attempt: nat, info: Info, totalDelay: nat) returns (totalDelay': nat)
      requires attempt >= 1
      ensures
        var s := Setup(policy, categorizer, world);
        AllFail(s, attempt) && InfoAt(s, attempt) == info && totalDelay == TotalWait(s, attempt - 1) ==>
          totalDelay' == TotalWait(s, attempt)
    {
      var delay := CalculateDelay(world, attempt, info, false);
      totalDelay' := totalDelay + delay;
    }

    method Record(success: bool, attempts: int, totalDelay: nat)
      requires Valid()
      modifies this`retryMetrics, this`log
      ensures Valid() && log == old(log) + [Operation(success, attempts, totalDelay)]
    {
      var op := Operation(success, attempts, totalDelay);
      retryMetrics := Recorded(retryMetrics, op);
      log := log + [op];
      assert log[..|log| - 1] == old(log);
    }

    // Book-keeping for the failure of one attempt.
    method NoteFailure(world: World, id: string, messageId: string, topic: string, attempt: nat, report: ErrorReport?)
      returns (report': ErrorReport)
      requires attempt >= 1 && AllFail(Setup(policy, categorizer, world), attempt)
      requires attempt == 1 <==> report == null
      requires report != null ==>
                 report.Value() == ReportAfter(Setup(policy, categorizer, world), messageId, topic, attempt - 1)
      modifies this`activeRetries, report
      ensures report'.Value() == ReportAfter(Setup(policy, categorizer, world), messageId, topic, attempt)
      ensures if report == null then fresh(report') else report' == report
      ensures activeRetries == if report == null then old(activeRetries)[id := report'] else old(activeRetries)
    {
      assert FailsAt(Setup(policy, categorizer, world), attempt);
      var message := world.outcome(attempt).value;
      var info := categorizer.categorize(message);
      if report == null {
        report' := new ErrorReport(messageId, topic, message, info.errorType, info.severity);
        activeRetries := activeRetries[id := report'];
      } else {
        report' := report;
        var delay := CalculateDelay(world, attempt - 1, info, true);
        report'.AddRetryAttempt(message, delay);
      }
    }

    // How a call stands when `n` attempts have failed and it goes on.
    ghost predicate Underway(s: Setup, id: string, messageId: string, topic: string, n: nat, waited: nat,
                             report: ErrorReport?, active: map<string, ErrorReport>)
      reads this, report
    {
      && AllFail(s, n) && waited == TotalWait(s, n)
      && (report == null <==> n == 0)
      && (report != null ==> report.Value() == ReportAfter(s, messageId, topic, n))
      && activeRetries == (if report == null then active else active[id := report])
    }

    // What a call leaving at attempt f returns and leaves behind, given the table and the log
    // it found.
    ghost predicate Returned(s: Setup, id: string, messageId: string, topic: string, f: nat, r: RetryResult,
                             active: map<string, ErrorReport>, recorded: seq<Operation>)
      reads this, r.report
    {
      && 1 <= f && AllFail(s, f - 1) && AllFail(s, Failures(s, f))
      && r.success == ExitAt(s, f).Succeeded?
      && r.finalError == ErrorAtExit(s, f)
      && r.attemptCount == (if ExitAt(s, f).CancelledBefore? then f - 1 else f)
      && r.totalDelay == WaitedAtExit(s, f)
      && (r.report == null <==> Failures(s, f) == 0)
      && (r.report != null ==> r.report.Value() == ReportAtExit(s, messageId, topic, f))
      && activeRetries == (if r.report == null then active
                           else ActiveAfter(active, id, ExitAt(s, f), Failures(s, f), r.report))
      && log == recorded + LoggedAtExit(s, f)
    }

    method Succeed(ghost s: Setup, id: string, ghost messageId: string, ghost topic: string, attempt: nat, waited: nat,
                   report: ErrorReport?, ghost active: map<string, ErrorReport>)
      returns (r: RetryResult)
      requires Valid() && attempt >= 1 && Underway(s, id, messageId, topic, attempt - 1, waited, report, active)
      requires ExitAt(s, attempt).Succeeded?
      modifies this`activeRetries, this`retryMetrics, this`log, report
      ensures Valid() && r.report == report
      ensures Returned(s, id, messageId, topic, attempt, r, active, old(log))
    {
      if report != null {
        report.MarkResolved(attempt);
        activeRetries := activeRetries - {id};
        assert activeRetries == active - {id};
      }
      Record(true, attempt, waited);
      return RetryResult(true, NoError, attempt, waited, report);
    }

    method GiveUp(ghost s: Setup, id: string, ghost messageId: string, ghost topic: string, attempt: nat, waited: nat,
                  message: string, report: ErrorReport, ghost active: map<string, ErrorReport>)
      returns (r: RetryResult)
      requires Valid() && attempt >= 1 && ExitAt(s, attempt).GaveUp? && MessageAt(s, attempt) == message
      requires AllFail(s, attempt) && waited == TotalWait(s, attempt - 1)
      requires report.Value() == ReportAfter(s, messageId, topic, attempt) && activeRetries == active[id := report]
      modifies this`activeRetries, this`retryMetrics, this`log
      ensures Valid() && r.report == report
      ensures Returned(s, id, messageId, topic, attempt, r, active, old(log))
    {
      Record(false, attempt, waited);
      activeRetries := activeRetries - {id};
      assert activeRetries == active - {id};
      return RetryResult(false, Failed(message), attempt, waited, report);
    }

    method CancelWait(ghost s: Setup, id: string, ghost messageId: string, ghost topic: string,
                      attempt: nat, waited: nat, report: ErrorReport, ghost active: map<string, ErrorReport>)
      returns (r: RetryResult)
      requires Valid() && attempt >= 1 && Underway(s, id, messageId, topic, attempt, waited, report, active)
      requires ExitAt(s, attempt).CancelledWaiting?
      modifies this`activeRetries
      ensures Valid() && r.report == report
      ensures Returned(s, id, messageId, topic, attempt, r, active, old(log))
    {
      activeRetries := activeRetries - {id};
      assert activeRetries == active - {id};
      return RetryResult(false, Cancelled, attempt, waited, report);
    }

    // When at least one attempt is allowed, `f` is the attempt at which the call leaves.
    method ExecuteWithRetry(world: World, id: string, messageId: string, topic: string)
      returns (r: RetryResult, ghost f: nat)
      requires Valid()
      modifies this
      ensures Valid()
      ensures r.report != null ==> fresh(r.report)
      ensures policy.maxAttempts < 1 ==>
        && r == RetryResult(false, NoError, policy.maxAttempts, 0, null)
        && log == old(log) + [Operation(false, policy.maxAttempts, 0)]
        && activeRetries == old(activeRetries) - {id}
      ensures policy.maxAttempts >= 1 ==>
        var s := Setup(policy, categorizer, world);
        StopsAt(s, f) && Returned(s, id, messageId, topic, f, r, old(activeRetries), old(log))
    {
      ghost var s := Setup(policy, categorizer, world);
      ghost var active := activeRetries;
      var report: ErrorReport? := null;
      var lastError := NoError;
      var totalDelay: nat := 0;
      var attempt := 1;
      while attempt <= policy.maxAttempts
        invariant 1 <= attempt && (attempt <= policy.maxAttempts || policy.maxAttempts < 1 == attempt)
        invariant attempt == 1 ==> lastError == NoError
        invariant forall k | 1 <= k < attempt :: Continues(s, k)
        invariant report != null ==> fresh(report)
        invariant Valid() && log == old(log)
        invariant Underway(s, id, messageId, topic, attempt - 1, totalDelay, report, active)
        decreases policy.maxAttempts - attempt
      {
        f := attempt;
        if world.cancelledBefore(attempt) {
          return RetryResult(false, Cancelled, attempt - 1, totalDelay, report), f;
        }
        var outcome := world.outcome(attempt);
        if outcome == None {
          r := Succeed(s, id, messageId, topic, attempt, totalDelay, report, active);
          return r, f;
        }
        assert FailsAt(s, attempt);
        lastError := Failed(outcome.value);
        var info := categorizer.categorize(outcome.value);
        report := NoteFailure(world, id, messageId, topic, attempt, report);
        var retry := MayRetry(info, attempt);
        if !retry {
          r := GiveUp(s, id, messageId, topic, attempt, totalDelay, outcome.value, report, active);
          return r, f;
        }
        if attempt < policy.maxAttempts {
          totalDelay := AddWait(world, attempt, info, totalDelay);
          if world.cancelledDuring(attempt) {
            r := CancelWait(s, id, messageId, topic, attempt, totalDelay, report, active);
            return r, f;
          }
        }
        attempt := attempt + 1;
      }
      Record(false, policy.maxAttempts, totalDelay);
      activeRetries := activeRetries - {id};
      return RetryResult(false, lastError, policy.maxAttempts, totalDelay, report), 0;
    }
  }
}
