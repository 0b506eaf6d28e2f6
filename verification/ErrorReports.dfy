/**
 The error report of internal/models/error.go that a retry run builds up in place. Times are
 not modelled.
 */
module ErrorReports {
  import opened Prelude
  import opened ErrorCategories

  datatype RetryAttempt = RetryAttempt(attemptNumber: int, errorMessage: string, delay: int)

  datatype ReportValue = ReportValue(
    messageId: string,
    topic: string,
    errorMessage: string,
    errorType: ErrorType,
    severity: Severity,
    attemptNumber: int,
    retryHistory: seq<RetryAttempt>,
    isResolved: bool,
    resolvedOn: Option<int>)  // the attempt named in the resolution text

  class ErrorReport {
    const messageId: string
    const topic: string
    const errorMessage: string
    const errorType: ErrorType
    const severity: Severity
    var attemptNumber: int
    var retryHistory: seq<RetryAttempt>
    var isResolved: bool
    var resolvedOn: Option<int>

    ghost function Value(): ReportValue
      reads this
    {
      ReportValue(messageId, topic, errorMessage, errorType, severity,
                  attemptNumber, retryHistory, isResolved, resolvedOn)
    }

    constructor (messageId: string, topic: string, errorMessage: string, errorType: ErrorType, severity: Severity)
      ensures Value() == ReportValue(messageId, topic, errorMessage, errorType, severity, 1, [], false, None)
    {
      this.messageId, this.topic, this.errorMessage := messageId, topic, errorMessage;
      this.errorType, this.severity := errorType, severity;
      attemptNumber, retryHistory, isResolved, resolvedOn := 1, [], false, None;
    }

    method IncrementAttempt()
      modifies this
      ensures Value() == old(Value()).(attemptNumber := old(attemptNumber) + 1)
    {
      attemptNumber := attemptNumber + 1;
    }

    method AddRetryAttempt(errorMessage: string, delay: int)
      modifies this
      ensures Value() == old(Value()).(
                attemptNumber := old(attemptNumber) + 1,
                retryHistory := old(retryHistory) + [RetryAttempt(old(attemptNumber) + 1, errorMessage, delay)])
    {
      IncrementAttempt();
      retryHistory := retryHistory + [RetryAttempt(attemptNumber, errorMessage, delay)];
    }

    method MarkResolved(attempt: int)
      modifies this
      ensures Value() == old(Value()).(isResolved := true, resolvedOn := Some(attempt))
    {
      isResolved := true;
      resolvedOn := Some(attempt);
    }
  }
}
