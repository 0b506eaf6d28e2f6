# Verification model of the Kafka producer service

This project models the in-memory protocols of the producer service and proves what they keep.
There are five clusters, and each is built the same way: value functions say what one locked
section does, classes with the fields of the Go structs are proved to do exactly that in place,
and lemmas are then proved about every run of those functions.

| files | source | subject |
|---|---|---|
| `Batches`, `Coordination`, `Coordinator`, `CoordinatorRuns`, `CoordinatorOrder`, `CoordinatorDispatch`, `CoordinatorFlush`, `CoordinatorStop`, `CoordinatorOversize`, `CoordinatorFifo`, `CoordinatorPacking`, `CoordinatorDeadline`, `CoordinatorPrompt`, `CoordinatorWitness` | `internal/batch`, `internal/models/batch.go` | batching: workers, flush manager, timers, a bounded flush channel, one `topic -> batch` map |
| `Circuit`, `CircuitRuns`, `CircuitProbes`, `CircuitTrace`, `CircuitWitness` | `internal/producer/circuit.go` | the circuit breaker |
| `RateLimit`, `TokenBucket`, `RateLimitRuns`, `RateLimitWitness` | `internal/security/ratelimit.go` | the token-bucket limiter |
| `Backoff`, `ErrorCategories`, `ErrorReports`, `RetryMetrics`, `Retry`, `RetryLaws` | `internal/retry`, `internal/models/error.go`, `internal/producer/errors.go` | retries |
| `Tracker`, `TrackerRuns`, `Partitioner`, `Sticky` | `internal/producer/tracker.go`, `internal/partitioner/strategies.go` | message status and partition choice |

`Prelude` and `Arithmetic` hold an option type and a few facts about products.

## How concurrency is modelled

`CoordinatorRuns`, `CircuitRuns` and `RateLimitRuns` are interleaving machines. A step is one
locked section, one channel operation, one test of an atomic flag, one timer event or one start of
a goroutine; `Enabled`
says when it can be taken and `Next` what it does, and `Leads(.., run, s')` says that a sequence
of steps ends in `s'`. The scheduler is free, the clock never goes back, and every result about
runs holds for every such sequence. The steps use the same value functions that the class methods
are proved against. Where an operation takes several sections in the Go code (`Execute`, testing
for a stopped coordinator and enqueuing a message, adding a message and restarting its timer,
looking up a bucket and checking it) it takes several steps here.

## Idealisations

- Times and durations are whole nanoseconds of one monotone clock. Quotients that the Go code
  forms in floating point and truncates are exact quotients, truncated; powers, weights and draws
  are exact reals.
- Integers are unbounded, except the round-robin and sticky counters, whose 64-bit wrap-around is
  written out.
- Strings are sequences of characters that stand for bytes.
- Regular expressions and the FNV-1a hash are uninterpreted; random draws, clock readings, new
  identifiers, and the outcomes of user operations are arbitrary parameters.

## Where the code does not do what is expected of it

Each of these is proved, together with the condition under which the expectation does hold, or
with the bound that holds instead.

- The half-open limit of the breaker is exceeded by concurrent arrivals, because the check and
  the increment are separate sections. The counter exceeds it by at most one less than the number
  of calls between the two, and that is attained (`HalfOpenCap`, `HalfOpenCapAttained`). The calls
  themselves can exceed even that, because a decrement left over from an earlier half-open phase
  frees a slot of a later one (`StaleDecrementReleasesSlot`). They keep the bound if the breaker
  half-opens only while no counted call is left (`ProbesBounded`), and from any other half-opening
  on they can exceed it (`LeftoverExceeds`).
- `WindowDuration` never makes old failures expire: the time of the last failure is overwritten
  just before it is compared, so only a stall between the two clock readings is ever measured
  (`WindowHasNoEffect`, `OldFailuresCount`).
- The data model calls `FlushInterval` the maximum time before a batch is sent
  (`specs/001-kafka-producer/data-model.md:55`). Each message restarts the timer, so a batch may
  wait `MaxMessages - 1` intervals, and no longer if requests are served at once (`StaysBounded`,
  `StayAttained`).
- A flush request that finds the channel full is dropped, and the batch then stays
  (`DroppedRequestStrands`). Short of that a non-empty batch always has work pending
  (`NoStrandedBatch`), but a request still in the channel when the manager leaves is never served,
  so a cancelled context, which ends workers and manager without a flush, strands a batch as well
  (`ManagerGoneStrands`). There is no third way: once everything is at rest, the batches left are
  those whose last request was dropped or left behind so (`RestMeansDelivered`), and there are none
  if the channel was never full and the manager left nothing behind (`NeverFullDelivers`).
- `Stop` does not wait for the workers or for clients that are past its check: a message can be
  accepted and never sent (`StopLeavesMessage`). After `Stop` a flush of everything is final exactly
  if, at that moment, no message that can be stored is in a worker's hands, or, while a worker
  lives, in the queue or with a client that has passed the check (`FlushFinalIff`). If there is no
  message in any of these places, nothing is lost (`StopLosesNothing`).
- A second oversized message on a topic hands off an empty batch (`OversizedHandsOffEmpty`). An
  empty batch is handed off exactly when the topic's batch is empty and the message cannot be stored
  (`EmptyHandOffIff`): never more often than messages are refused (`EmptiesBounded`), and so never if
  every submitted message can be stored (`NoEmptyHandOff`).
- Requests are queued in order, but four workers are started whatever `NumWorkers` says, and with two or
  more a later message can be accepted first (`TwoWorkersReorder`). With one worker messages are
  accepted in the order of submission (`OneWorkerInOrder`).
- Batches leave the map in order, but `sendBatch` may be started for them in another order
  (`DispatchOutOfOrder`). The order is kept if a topic's batches leave the map only while none of
  them is waiting to be dispatched (`DispatchInOrder`); when one leaves while another is waiting, the
  scheduler can put them out of order (`DetachCanOvertake`), and they stay so (`OvertakenForGood`).
- A cleanup between a request's bucket lookup and its check lets several buckets serve one client,
  and both bounds on the grants, within a window and since the first bucket, fail exactly if the
  limit has a burst (`WindowBreaksIff`, `CreationBreaksIff`). They hold but for one grant for each
  request that holds a bucket when it is dropped (`SlidingWindow`, `SinceCreation`), and so in full if
  there is no such request (`SlidingWindowWhenCalm`, `SinceCreationWhenCalm`).
- Buckets belong to clients, limits to endpoints. A check under a slow limit leaves time unrefilled
  that a fast one then credits, so one instant can grant more than the largest burst
  (`MixedLimitsAttain`). How much more depends on the ratio of the rates (`MixedWindow`).
- The reset time reported to a refused client is right exactly if the rate is one per second
  (`RetryTimeRight`). Polling just faster than the configured rate halves the service
  (`PeriodicService`).
- Jitter is added after the cap, so a delay can exceed the maximum, by at most a tenth
  (`JitterBand`, `JitterExceedsMaximum`). The first wait of a retry is that of attempt 2.
- A retry history entry computes its delay from the error that follows the wait. The history adds
  up to the time waited exactly when neighbouring errors agree on asking for a zero delay
  (`DelaysAccounted`).
- A cancellation seen at the top of the retry loop leaves the entry in the table of active retries
  (`ActiveRestored`).
- The reported mean of delays is the true mean exactly if the true mean was a whole number after
  every operation (`MeanExactIff`). Otherwise it can lag without bound: for delays 0, 1, 2, ... it
  stays 0 (`MeanDriftAttained`).
- The tracker keeps the caller's receipt object; later changes to it show in later snapshots, while
  the tracked state stays (`ReceiptShared`). As long as no other operation concerns the message, the
  two agree exactly if the receipt's status is what it was when it was handed in
  (`ReceiptAgreement`).
- `KeyRange` may return a configured negative partition, `Sticky` a partition that no longer
  exists, and `RoundRobin` a negative one after its counter wraps around; the exact conditions are
  in the contracts.

## Model

| member | source | states |
|---|---|---|
| Batches.HeaderBytesAnyOrder | internal/models/batch.go:193-208 | the byte count of the headers does not depend on the order in which the map is ranged over |
| Batches.SizeCounts | internal/models/batch.go:193-208 | the size of an empty message is 64, each further byte of value, key, topic or identifier adds one, and each new header adds the bytes of its key and value |
| Batches.CalculateMessageSize | internal/models/batch.go:193-208 | the loop returns the bytes of value, key, topic, identifier and headers, and 64 of overhead |
| Batches.AddedSound | internal/models/batch.go:50-63 | adding an acceptable message keeps a batch topic-uniform, within both limits, and its byte total equal to the sum of its sizes |
| Batches.AddedAllSound | internal/models/batch.go:40-44 | initial messages of which some do not fit leave a sound batch |
| Batches.AddedAllGreedy | internal/models/batch.go:40-44 | no initial message is skipped that would still fit |
| Batches.FullIff | internal/models/batch.go:87-89 | a sound batch that holds something is full exactly if it is at its message limit or at its byte limit |
| Batches.CountBoundedByBytes | internal/models/batch.go:193-208 | 64 times the message count is at most MaxBytes |
| Batches.Batch.constructor | internal/models/batch.go:29-47 | a new batch has the default limits and those of its initial messages that fit, tried in order |
| Batches.Batch.CanAccept | internal/models/batch.go:66-84 | true exactly when topic, count and bytes admit the message |
| Batches.Batch.AddMessage | internal/models/batch.go:50-63 | appends the message and its size if acceptable, and otherwise changes nothing |
| Batches.Batch.Reset | internal/models/batch.go:130-136 | empties the batch and keeps its identity and limits; times are not modelled |
| Coordination.TakenOneMore | internal/batch/coordinator.go:320-336 | flushing topics one by one removes exactly their batches and timers, in any order |
| Coordination.StoppedSound | internal/batch/coordinator.go:381-386 | stopping a topic's timer disarms that topic and no other |
| Coordination.StartedSound | internal/batch/coordinator.go:361-378 | restarting a topic's timer leaves it exactly one pending timer and touches no other topic |
| Coordination.TakenAllSound | internal/batch/coordinator.go:320-336 | a flush of everything leaves no timer registered twice and no pending timer unregistered, and disarms exactly the topics that had a batch |
| Coordination.RefusedIffTooLarge | internal/batch/coordinator.go:223-252 | a processed message is refused exactly when its own size exceeds MaxBytes, given MaxMessages >= 1; a refusal leaves an empty batch in place |
| Coordination.EmptyHandOffIff | internal/batch/coordinator.go:226-244 | an empty batch is handed off exactly if the topic's batch is empty and the message cannot be stored at all |
| Coordination.OversizedHandsOffEmpty | internal/batch/coordinator.go:226-232 | so a second oversized message on a topic hands off the empty batch that the first one left |
| Coordination.ProcessedSound | internal/batch/coordinator.go:220-259 | the locked add keeps every batch sound and every other topic's timer |
| Coordination.AcceptedReply | internal/batch/coordinator.go:220-259 | the reply to an accepted message names the batch that now ends with it, the topic's own or a new one whose predecessor's timer is stopped, and reports it full exactly if it is at one of its limits |
| Coordination.TakenSound | internal/batch/coordinator.go:299-317 | a flush of one topic removes its batch and disarms its timer, and keeps the others' batches and timers |
| Coordinator.BatchCoordinator.constructor | internal/batch/coordinator.go:85-97 | starts with no batch and no timer |
| Coordinator.BatchCoordinator.StopFlushTimer | internal/batch/coordinator.go:381-386 | stops and forgets the topic's timer |
| Coordinator.BatchCoordinator.StartFlushTimer | internal/batch/coordinator.go:361-378 | replaces the topic's timer by a new one |
| Coordinator.BatchCoordinator.FlushTopic | internal/batch/coordinator.go:174-181 | queues the request, or drops it when 100 are queued |
| Coordinator.BatchCoordinator.Open | internal/batch/coordinator.go:223-244 | gives the topic a batch that can take the message, handing off the one that cannot |
| Coordinator.BatchCoordinator.Add | internal/batch/coordinator.go:246-257 | adds the message or refuses it, and reports whether the batch is full |
| Coordinator.BatchCoordinator.Process | internal/batch/coordinator.go:220-259 | the whole locked add, as one function of the store |
| Coordinator.BatchCoordinator.ProcessMessageRequest | internal/batch/coordinator.go:220-277 | add, then timer restart, then flush request for a full batch |
| Coordinator.BatchCoordinator.FlushTopicBatch | internal/batch/coordinator.go:299-317 | takes the topic's batch out of the map with its timer, and hands it off unless empty |
| Coordinator.BatchCoordinator.FlushAllBatches | internal/batch/coordinator.go:320-336 | takes every batch, and hands off the non-empty ones, each once, in the order visited |
| CoordinatorRuns.InvKept | internal/batch/coordinator.go:220-336 | every step keeps all batches sound and the channel within its capacity |
| CoordinatorRuns.InvAlong | internal/batch/coordinator.go:220-336 | every reachable batch, in the map or handed off, is topic-uniform, counts its bytes exactly and keeps both limits |
| CoordinatorOrder.OrderPreserved | internal/batch/coordinator.go:220-336 | for every interleaving and topic, the handed-off batches in order and then the current batch are exactly the accepted messages in order |
| CoordinatorOrder.EveryMessageInOnePlace | internal/batch/coordinator.go:143-336 | each submission is in the queue, with a worker, refused, handed off or in the current batch, and in only one of them |
| CoordinatorOrder.BatchesSentOnce | internal/batch/coordinator.go:226-358 | each batch taken out to be sent is given to sendBatch exactly once, or is still held for it |
| CoordinatorDispatch.DispatchInOrder | internal/batch/coordinator.go:220-336 | if a topic's batches leave the map only while none is waiting, those handed off are those dispatched and then the at most one waiting, in order |
| CoordinatorDispatch.OvertakenForGood | internal/batch/coordinator.go:226-336 | once two batches of a topic are dispatched out of order, they are in every later state |
| CoordinatorDispatch.ProcessOvertakes | internal/batch/coordinator.go:226-232 | a worker that replaces a batch while a different one is waiting dispatches it first |
| CoordinatorDispatch.DetachCanOvertake | internal/batch/coordinator.go:299-336 | whenever a batch leaves while a different one is waiting, some schedule dispatches it first |
| CoordinatorStop.NothingMore | internal/batch/coordinator.go:143-277 | if no storable message is in a worker's hands, and none can reach a living worker from the queue, from a client past the running check or from a new call, then nothing more is accepted in any run |
| CoordinatorStop.OutstandingAccepted | internal/batch/coordinator.go:143-277 | a storable message in one of these places can still be accepted: one worker alone can bring it, or another before it, into the map |
| CoordinatorStop.FlushFinalIff | internal/batch/coordinator.go:125-160 | a flush of everything leaves the map bare for ever exactly if at that moment no storable message is in one of these places and no new call can bring one, as none can after Stop |
| CoordinatorStop.StopLosesNothing | internal/batch/coordinator.go:125-160 | if after Stop a flush of everything finds no message with a worker, in the queue or with a client past the running check, every accepted message has been handed off, in every later state |
| CoordinatorStop.FlushAllComplete | internal/batch/coordinator.go:320-336 | what is accepted after a flush of everything is, in order, what is handed off later and then the current batch; there is nothing later exactly if nothing is accepted |
| CoordinatorOversize.NoEmptyHandOff | internal/batch/coordinator.go:220-336 | if every message that AddMessage is called with can be stored, no run refuses one or hands off an empty batch |
| CoordinatorOversize.EmptiesBounded | internal/batch/coordinator.go:220-336 | in every run no more empty batches are handed off than messages are refused |
| CoordinatorFifo.QueueFifo | internal/batch/coordinator.go:153-209 | workers take messages in the order of submission, each once, and the queue holds the rest |
| CoordinatorFifo.CallsConserved | internal/batch/coordinator.go:143-160 | each call past the running check is with its client, submitted or given up, and only one of them |
| CoordinatorFifo.ChannelFifo | internal/batch/coordinator.go:174-291 | the manager serves the queued flush requests in the order in which they were queued, and the channel holds the rest |
| CoordinatorFifo.OneWorkerInOrder | internal/batch/coordinator.go:201-259 | with one worker a topic's batches hold, in order, the first storable messages submitted for it |
| CoordinatorFifo.TwoWorkersReorder | internal/batch/coordinator.go:111-113 | with two, a run that accepts any two storable messages in the opposite order |
| CoordinatorFlush.NoStrandedBatch | internal/batch/coordinator.go:174-386 | a non-empty batch always has a timer armed or fired, a flush request queued or in hand, or a worker about to arm, unless its last request was dropped |
| CoordinatorFlush.LostOnlyWhenFull | internal/batch/coordinator.go:174-181 | a request is dropped only when the channel holds 100 |
| CoordinatorFlush.RestMeansDelivered | internal/batch/coordinator.go:174-386 | once nothing is under way, a topic has messages in its batch if its last flush request was dropped, and else only if the manager left one in the channel; all other topics are delivered, in order |
| CoordinatorFlush.NothingLost | internal/batch/coordinator.go:174-181 | no request is dropped in a run whose channel is never full |
| CoordinatorFlush.NeverFullDelivers | internal/batch/coordinator.go:174-386 | such a run has delivered every topic once it is at rest, except one whose request the manager left in the channel |
| CoordinatorPacking.NextFitBound | internal/batch/coordinator.go:226-244 | over every run, hand-offs for lack of room number at most n/MaxMessages + 2T/MaxBytes |
| CoordinatorPacking.HandOffBound | internal/batch/coordinator.go:220-336 | all hand-offs number at most that, plus one for each flush and each refused message |
| CoordinatorPacking.Charged | internal/models/batch.go:66-84 | each full hand-off uses up MaxMessages messages, and neighbouring batches split for bytes exceed MaxBytes together |
| CoordinatorDeadline.StaysBounded | internal/batch/coordinator.go:361-378 | with prompt service no batch waits longer than MaxMessages - 1 flush intervals, and a timer flush is within one interval only if all its messages came at once |
| CoordinatorDeadline.StayAttained | internal/batch/coordinator.go:262-272 | a steady stream of messages makes a batch wait exactly that long |
| CoordinatorPrompt.StreamIsRun | internal/batch/coordinator.go:201-386 | every stream of arrivals on the prompt schedule is a run of the interleaving machine, with the same map and as many non-empty hand-offs |
| CoordinatorWitness.DroppedRequestStrands | internal/batch/coordinator.go:174-181 | a run at rest whose accepted message nothing will ever flush |
| CoordinatorWitness.ManagerGoneStrands | internal/batch/coordinator.go:280-296 | a run at rest without Stop and without a dropped request, whose accepted message nothing will ever flush because the manager has left |
| CoordinatorWitness.NothingSentAfterExit | internal/batch/coordinator.go:201-217 | once workers and manager have exited, only a further flush of everything sends a batch |
| CoordinatorWitness.StopLeavesMessage | internal/batch/coordinator.go:125-140 | a run in which an accepted message is left behind by Stop |
| CoordinatorWitness.DispatchOutOfOrder | internal/batch/coordinator.go:299-317 | a run in which a later batch of a topic is dispatched before an earlier one |
| Circuit.WithDefaults | internal/producer/circuit.go:90-114 | every positive setting is kept, all settings are positive afterwards, and without any settings the thresholds are 5 and 2, the times 30 and 60 seconds, and the limit 1 |
| Circuit.CircuitBreaker.constructor | internal/producer/circuit.go:90-114 | starts closed with all counters at zero |
| Circuit.CircuitBreaker.TransitionToClosed | internal/producer/circuit.go:248-260 | changes state and clears the counts unless already closed |
| Circuit.CircuitBreaker.TransitionToOpen | internal/producer/circuit.go:263-276 | changes state, clears the counts and counts the opening unless already open |
| Circuit.CircuitBreaker.TransitionToHalfOpen | internal/producer/circuit.go:279-290 | changes state and clears the counts unless already half-open |
| Circuit.CircuitBreaker.CanExecute | internal/producer/circuit.go:148-171 | admits as the state, the recovery time and the half-open limit say |
| Circuit.CircuitBreaker.RecordSuccess | internal/producer/circuit.go:181-204 | resets the failures of a closed breaker, or counts towards closing a half-open one |
| Circuit.CircuitBreaker.RecordFailure | internal/producer/circuit.go:207-238 | counts towards tripping a closed breaker, and reopens a half-open one |
| Circuit.CircuitBreaker.IncrementHalfOpenRequests | internal/producer/circuit.go:293-297 | one more half-open request |
| Circuit.CircuitBreaker.DecrementHalfOpenRequests | internal/producer/circuit.go:300-306 | one less, never below zero |
| Circuit.CircuitBreaker.Reset | internal/producer/circuit.go:369-388 | back to the initial value |
| Circuit.CircuitBreaker.Execute | internal/producer/circuit.go:117-145 | a whole undisturbed call, rejection and deferred decrement included |
| CircuitRuns.InvAlong | internal/producer/circuit.go:117-306 | in every interleaving the counts stay below their thresholds and halfOpenRequests is at most the number of calls that owe a decrement |
| CircuitRuns.NoWedge | internal/producer/circuit.go:164-166 | a half-open breaker that refuses has MaxConcurrentRequests counted calls in progress |
| CircuitRuns.CallsAccounted | internal/producer/circuit.go:174-245 | started requests equal successes plus failures plus running ones, and each total counts the events of its kind in the run |
| CircuitRuns.AmortisedTrips | internal/producer/circuit.go:181-290 | every trip is paid for by FailureThreshold failures, every reopening by one, every closing by SuccessThreshold successes, and circuitOpenCount counts both kinds of opening |
| CircuitRuns.LatestFailKnown | internal/producer/circuit.go:207-212 | in every run lastFailureTime is the time of the latest failure, whatever the state it met, or unset since a reset |
| CircuitRuns.HalfOpeningWaits | internal/producer/circuit.go:156-162 | in every run an open breaker half-opens exactly for an arrival that comes RecoveryTimeout or more after the run's latest failure, or when there was none |
| CircuitRuns.OpeningsBounded | internal/producer/circuit.go:263-275 | over duration D the breaker opens at most 1 + D/RecoveryTimeout times |
| CircuitRuns.HalfOpenCap | internal/producer/circuit.go:129-131 | with at most m calls between check and increment, the counter halfOpenRequests stays at most the limit - 1 + m |
| CircuitProbes.ProbesBounded | internal/producer/circuit.go:263-306 | if every half-opening finds no counted call, the counter is the number of probing calls, so they keep that bound |
| CircuitProbes.LeftoverExceeds | internal/producer/circuit.go:279-306 | from a half-opening that finds some, a schedule exceeds the bound by just as many |
| CircuitWitness.HalfOpenCapAttained | internal/producer/circuit.go:129-131 | that bound is reached for every limit and every m |
| CircuitWitness.StaleDecrementReleasesSlot | internal/producer/circuit.go:300-306 | with a limit of one, two probing calls run at once though admissions never overlap |
| CircuitTrace.TrailingMeansLast | internal/producer/circuit.go:207-226 | the failure count reaches n exactly when the last n outcomes failed |
| CircuitTrace.TraceRefinement | internal/producer/circuit.go:117-238 | undisturbed calls: the breaker follows the automaton on the outcome trace, from any matching state |
| CircuitTrace.TraceRefinementFromStart | internal/producer/circuit.go:117-238 | the same from a new breaker: it trips exactly when the last FailureThreshold outcomes failed, and closes after exactly SuccessThreshold successes without a failure |
| CircuitTrace.SectionsCompose | internal/producer/circuit.go:117-145 | an undisturbed call is the run of its locked sections |
| CircuitTrace.WindowHasNoEffect | internal/producer/circuit.go:212-220 | runs under two configurations that differ in WindowDuration only are the same, unless a call stalls for longer than the window between the two clock readings |
| CircuitTrace.OldFailuresCount | internal/producer/circuit.go:212-220 | two failures any time apart trip a breaker with threshold 2 |
| RateLimit.FirstStar | internal/security/ratelimit.go:168-183 | the pattern is split at its first star |
| RateLimit.ExactPattern | internal/security/ratelimit.go:182-182 | a pattern without a star matches itself only |
| RateLimit.ManyStars | internal/security/ratelimit.go:172-174 | a pattern with two or more stars matches nothing |
| RateLimit.PatternMeansGlob | internal/security/ratelimit.go:168-183 | a one-star pattern matches what the star can stand for, and overlaps of prefix and suffix besides |
| RateLimit.OverlapMatches | internal/security/ratelimit.go:168-183 | an endpoint that only such an overlap matches |
| RateLimit.RateLimiter.GetLimitForEndpoint | internal/security/ratelimit.go:148-165 | the exact entry if there is one, else that of some matching pattern; if no pattern has a star, some limit exactly if there is an entry |
| RateLimit.RateLimiter.GetOrCreateBucket | internal/security/ratelimit.go:186-215 | the client's bucket, made empty if missing; other clients keep theirs |
| RateLimit.RateLimiter.CheckLimit | internal/security/ratelimit.go:218-255 | refill, verdict, remaining tokens and reset time in one step |
| RateLimit.RateLimiter.Cleanup | internal/security/ratelimit.go:364-385 | removes exactly the buckets not refilled for the client timeout of 30 minutes |
| RateLimit.RateLimiter.Allow | internal/security/ratelimit.go:117-145 | an undisturbed request: verdict, remaining tokens and reset time for a limited endpoint, nothing for an unlimited one; if no pattern has a star, limited exactly if there is an entry |
| RateLimit.TruncatedTowardsZero | internal/security/ratelimit.go:226-226 | a truncated quotient is the integer next to the exact one on the side of zero |
| TokenBucket.RefillCredits | internal/security/ratelimit.go:224-231 | a refill that truncates to zero loses no time, and any other credits more than half of the elapsed time's worth |
| TokenBucket.CreditAtLeastHalf | internal/security/ratelimit.go:224-231 | over any polls the credit before the cap is at least half, and at most all, of rate times time up to lastRefill |
| TokenBucket.EagerClientServed | internal/security/ratelimit.go:224-231 | a client that polls often enough is served at least half of the configured rate |
| TokenBucket.PeriodicService | internal/security/ratelimit.go:218-231 | of polls at a fixed period exactly one in PeriodsPerToken is granted |
| TokenBucket.RetryTimeRight | internal/security/ratelimit.go:237-253 | the time reported to a refused client brings a token exactly if the rate is 1 |
| TokenBucket.FullTimeRight | internal/security/ratelimit.go:237-253 | at the time reported to a granted client the bucket holds the burst exactly if the rate divides what is missing, or it holds the burst already because an endpoint with a larger burst filled it |
| RateLimitRuns.InvAlong | internal/security/ratelimit.go:186-255 | tokens are never negative and no refill lies in the future, in every interleaving |
| RateLimitRuns.DropsIffIdle | internal/security/ratelimit.go:364-378 | a cleanup drops the bucket exactly if nothing was credited to it for more than half an hour |
| RateLimitRuns.StaleGrantsBounded | internal/security/ratelimit.go:186-255 | grants on dropped buckets are no more than the requests holding the bucket when it was dropped |
| RateLimitRuns.MixedWindow | internal/security/ratelimit.go:117-255 | over endpoints with any limits, the grants in any window are at most the largest burst less one, what the longest time left unrefilled at the lowest rate is worth at the highest (at least one token), and the highest rate times its length, but for one for each such request |
| RateLimitRuns.SlidingWindow | internal/security/ratelimit.go:186-255 | under one limit the grants in any window are at most the burst and the rate times its length, but for one for each such request |
| RateLimitRuns.SlidingWindowWhenCalm | internal/security/ratelimit.go:364-378 | the full bound, if no cleanup drops a bucket that a request holds |
| RateLimitRuns.SinceCreation | internal/security/ratelimit.go:141-144 | over endpoints with any limits, grants since the first bucket are at most the largest rate times the time, but for one for each request that held a bucket when it was dropped |
| RateLimitRuns.SinceCreationWhenCalm | internal/security/ratelimit.go:364-378 | the full bound, if no cleanup drops a bucket that a request holds |
| RateLimitWitness.StaleBucketBreaksWindow | internal/security/ratelimit.go:186-215 | for any limit with a burst, a run with a cleanup between lookup and check that grants twice the burst at one instant |
| RateLimitWitness.WindowBreaksIff | internal/security/ratelimit.go:186-215 | some run breaks the full bound within a window exactly if the limit has a burst |
| RateLimitWitness.StaleBucketBreaksCreation | internal/security/ratelimit.go:186-215 | for any limit with a burst, a run that grants more than the rate allows since the first bucket |
| RateLimitWitness.CreationBreaksIff | internal/security/ratelimit.go:186-215 | some run breaks the full bound since the first bucket exactly if the limit has a burst |
| RateLimitWitness.MixedLimitsAttain | internal/security/ratelimit.go:117-255 | for any slow and fast limit with one burst, a run that grants at one instant the burst less one and what the fast limit credits for the time the slow one left, which is all that MixedWindow allows unless the burst cuts the credit off |
| Backoff.CappedPower | internal/retry/backoff.go:83-86 | capping the power once equals capping after every step, for any positive multiplier |
| Backoff.BaseIsCappedSteps | internal/retry/backoff.go:71-86 | the delay of attempt k is k - 1 capped steps from the initial delay, and attempts before the first count as the first |
| Backoff.DelaysOrdered | internal/retry/backoff.go:70-88 | without jitter delays stay within the maximum, are monotone in the attempt, and stay at the maximum once there |
| Backoff.JitterBand | internal/retry/backoff.go:90-101 | jitter stays within ten percent and the negative guard is never taken |
| Backoff.JitterSpread | internal/retry/backoff.go:90-95 | jitter spreads the draws evenly: opposite draws lie equally far from the delay, equal steps give equal steps, and exactly the values from 0.9 to below 1.1 times the delay are reached |
| Backoff.JitterExceedsMaximum | internal/retry/backoff.go:83-101 | some draw exceeds the maximum exactly if 11 times the capped delay exceeds 10 times the maximum plus one |
| Backoff.LinearSteps | internal/retry/backoff.go:174-190 | the first attempt waits the initial delay and each further one adds the increment, up to the cap |
| Backoff.LinearWithin | internal/retry/backoff.go:174-190 | every linear delay is positive and within the maximum |
| ErrorCategories.RetryableIff | internal/producer/errors.go:275-305 | five types are never retried, network, timeout and broker errors always, all others unless critical |
| ErrorCategories.StrategyFollowsTable | internal/producer/errors.go:308-336 | no strategy exactly for what is not retried, Immediate exactly for network errors of low severity, Exponential exactly for timeouts and high broker errors, and Linear otherwise |
| ErrorCategories.ErrorCategorizer.AddRule | internal/producer/errors.go:220-240 | a rule whose pattern does not compile is skipped |
| ErrorCategories.ErrorCategorizer.ClearRules | internal/producer/errors.go:377-383 | no rule is left |
| ErrorCategories.ErrorCategorizer.CategorizeError | internal/producer/errors.go:243-272 | the first matching rule decides, and without one the error is unknown, medium and retryable |
| ErrorCategories.ErrorCategorizer.MatchingRules | internal/producer/errors.go:392-405 | all matching rules, in order |
| ErrorCategories.MatchingOne | internal/producer/errors.go:398-402 | of a single rule, the rule if its pattern matches |
| ErrorCategories.MatchingConcat | internal/producer/errors.go:392-405 | what matches of one list of rules and then another is what matches of the one and then of the other |
| ErrorCategories.FlagAgreesWithTable | internal/producer/errors.go:243-305 | if every rule's flag agrees with the table, so does every categorized error's |
| ErrorReports.ErrorReport.constructor | internal/models/error.go:69-83 | a new report of attempt 1 with an empty history |
| ErrorReports.ErrorReport.IncrementAttempt | internal/models/error.go:86-89 | one attempt more, all else unchanged |
| ErrorReports.ErrorReport.AddRetryAttempt | internal/models/error.go:92-103 | appends an entry that bears the new attempt number |
| ErrorReports.ErrorReport.MarkResolved | internal/models/error.go:106-110 | resolved, with the attempt that did it |
| RetryMetrics.MeanDrift | internal/retry/coordinator.go:368-391 | after n operations the counters are the numbers of operations, successes and failures, the attempt mean is exact, and the delay mean is short of the true sum by at most n(n-1)/2 |
| RetryMetrics.MeanExactIff | internal/retry/coordinator.go:377-377 | the delay mean is the true mean exactly if the sum after every i operations so far is divisible by i |
| RetryMetrics.MeanDriftAttained | internal/retry/coordinator.go:377-377 | that shortfall occurs for every n |
| Retry.RetryCoordinator.MayRetry | internal/retry/coordinator.go:285-300 | attempts left, not a stopping type, and retryable by the categorizer |
| Retry.RetryCoordinator.CalculateDelay | internal/retry/coordinator.go:303-320 | zero for a zero strategy, else the backoff of the next attempt |
| Retry.RetryCoordinator.Record | internal/retry/coordinator.go:368-391 | the metrics stay those of the log of recorded operations |
| Retry.RetryCoordinator.NoteFailure | internal/retry/coordinator.go:206-213 | the first failure makes and registers the report, later ones extend it |
| Retry.RetryCoordinator.ExecuteWithRetry | internal/retry/coordinator.go:129-282 | the whole loop for any outcomes and cancellations: result, total delay, report, active table and metrics at each of its exits |
| RetryLaws.StopsOnce | internal/retry/coordinator.go:146-282 | the loop leaves at exactly one attempt, after failures that could all be retried and met no cancellation, so the code after it is unreachable if one attempt is allowed |
| RetryLaws.ExitTells | internal/retry/coordinator.go:146-282 | it is cancelled exactly if the context is found cancelled before that attempt or in its wait, succeeds exactly if the attempt does, and gives up exactly on an error at the last attempt allowed, of a stopping type, or not retryable |
| RetryLaws.ResultTells | internal/retry/coordinator.go:164-282 | the returned error is that of this attempt, and one operation is recorded with the attempt and the time waited unless the call was cancelled |
| RetryLaws.ReportShape | internal/models/error.go:92-103 | message, type and severity are those of the first failure, attempt number = failures = history length + 1, entries numbered 2, 3, ..., resolved exactly on success |
| RetryLaws.ActiveRestored | internal/retry/coordinator.go:148-161 | the active table is restored exactly if there was no failure, or the exit is not the check at the top and the identifier was unused |
| RetryLaws.WaitTells | internal/retry/coordinator.go:303-320 | the wait after a failure is the backoff of the next attempt, and zero exactly if the categorizer asks for an immediate retry, or names no strategy and the policy names none or an immediate one |
| RetryLaws.DelaysAccounted | internal/retry/coordinator.go:205-237 | without jitter the history adds up to the time waited at every point exactly if neighbouring errors agree on a zero delay, or the backoff between them is zero |
| RetryLaws.GiveUpAccounted | internal/retry/coordinator.go:216-232 | with no zero delay, total delay = sum of the history = delays of attempts 2 to n |
| RetryLaws.WaitedAtMost | internal/retry/coordinator.go:235-262 | whatever the strategy, a call that leaves at attempt n waited at most its largest delay n - 1 times, or n times if it was cancelled in a further wait |
| RetryLaws.TotalDelayBounded | internal/retry/coordinator.go:92-113 | with the exponential, linear or fixed strategy, at most its maximum that many times, or a tenth more with jitter |
| RetryLaws.TableZero | internal/producer/errors.go:308-336 | under the table only low network errors are repeated at once |
| RetryLaws.TableGivesUp | internal/producer/errors.go:275-305 | under the table a call gives up exactly on an error at the last attempt, of a stopping type, of one of five types, or critical and not of the network, the broker or a timeout |
| RetryLaws.TableAccounted | internal/retry/coordinator.go:303-320 | under the table, a policy strategy that is not zero and any backoff without jitter, a call that gives up without a low network error waited what its report says |
| Tracker.DeliveryReceipt.Clone | internal/models/receipt.go:200-217 | a new object of equal value |
| Tracker.DeliveryReceipt.SetError | internal/models/receipt.go:147-152 | failed, with partition and offset unknown |
| Tracker.MessageStatus.Note | internal/producer/tracker.go:98-116 | new state and entry, with the history trimmed to its last entries |
| Tracker.MessageTracker.TrackMessage | internal/producer/tracker.go:61-86 | a new pending entry under the identifier, replacing any other |
| Tracker.MessageTracker.UpdateStatus | internal/producer/tracker.go:89-125 | the update of a known message; an error and no change for an unknown one |
| Tracker.MessageTracker.SetReceipt | internal/producer/tracker.go:128-162 | stores the caller's receipt and notes its state |
| Tracker.MessageTracker.GetStatus | internal/producer/tracker.go:165-176 | a new object equal to the tracked one, with a new copy of the receipt |
| Tracker.MessageTracker.RemoveMessage | internal/producer/tracker.go:222-230 | forgets the message and no other |
| Tracker.MessageTracker.FindExpired | internal/producer/tracker.go:304-313 | exactly the final messages last updated before the cutoff |
| Tracker.MessageTracker.CleanupOldStatuses | internal/producer/tracker.go:300-324 | removes exactly those: updated before the cutoff, and successful, failed or cancelled |
| TrackerRuns.HistoryRefinesLog | internal/producer/tracker.go:61-162 | after any run the bounded table tracks the same messages as the unbounded log, with equal state and times and the last entries of the log |
| TrackerRuns.HistoryBounds | internal/producer/tracker.go:111-116 | for a limit of at least 1: never empty, never over the limit, ends in the current state, complete if short |
| TrackerRuns.RecordTells | internal/producer/tracker.go:61-162 | a tracked message has the topic and creation time of its last start, and the state and update time of the last start, update or receipt |
| TrackerRuns.HistoryIsStory | internal/producer/tracker.go:61-162 | its history is the end of the entries that its events made since its last start |
| TrackerRuns.CleanupDrops | internal/producer/tracker.go:304-313 | a cleanup drops it exactly if the last event that told of it was before the cutoff and successful, failed or cancelled |
| TrackerRuns.TrackedIff | internal/producer/tracker.go:222-324 | a message is tracked exactly if it was started and since then neither removed nor, at a cleanup, last told of before the cutoff as successful, failed or cancelled |
| TrackerRuns.Independent | internal/producer/tracker.go:61-324 | what is known of a message depends only on the operations on it and the cleanups |
| TrackerRuns.SnapshotStands | internal/producer/tracker.go:255-280 | a snapshot is unchanged by any further operations |
| TrackerRuns.ReceiptAgreement | internal/producer/tracker.go:137-138 | while no other operation concerns the message, a snapshot's state agrees with its receipt exactly if the caller's receipt has the status it was handed in with |
| TrackerRuns.ReceiptShared | internal/producer/tracker.go:137-138 | for instance, a receipt marked failed later shows in snapshots of a message still tracked as successful |
| Partitioner.RoundRobinPartitioner.GetPartition | internal/partitioner/strategies.go:51-59 | the old counter modulo the partitions, in range exactly if it is not negative or is divisible |
| Partitioner.RemInRange | internal/partitioner/strategies.go:58-58 | the truncating remainder is congruent to its argument, smaller than the divisor and of the argument's sign |
| Partitioner.RoundRobinFair | internal/partitioner/strategies.go:51-59 | until the wrap-around, n consecutive calls choose each of p partitions floor(n/p) or ceil(n/p) times |
| Partitioner.WeightedRandomPartitioner.constructor | internal/partitioner/strategies.go:229-240 | the total is the sum of the weights |
| Partitioner.WeightedRandomPartitioner.UpdateWeights | internal/partitioner/strategies.go:272-281 | the total stays the sum of the weights |
| Partitioner.WeightedRandomPartitioner.GetPartition | internal/partitioner/strategies.go:243-269 | the least partition whose prefix sum reaches the draw, else the last; uniform if there are too few weights |
| Partitioner.SelectionInterval | internal/partitioner/strategies.go:257-268 | a partition owns exactly an interval of draws as long as its weight; the last also owns what lies beyond |
| Partitioner.FallsThrough | internal/partitioner/strategies.go:267-268 | the fallback is reached exactly if the draw exceeds the weights in use, so never with as many weights as partitions |
| Partitioner.ZeroWeightChosen | internal/partitioner/strategies.go:260-265 | a zero weight is chosen only as the first, by a draw of exactly zero |
| Partitioner.LeqIsLexicographic | internal/partitioner/strategies.go:197-203 | keys are compared by the first byte in which they differ, and a prefix comes first |
| Partitioner.KeyRangePartitioner.GetPartition | internal/partitioner/strategies.go:189-211 | the first range that holds the key, ends included, and is not too large, else the hash; in range exactly if that partition is not negative |
| Partitioner.KeyRangePartitioner.UpdateRanges | internal/partitioner/strategies.go:214-218 | replaces the ranges |
| Sticky.StickyPartitioner.GetPartition | internal/partitioner/strategies.go:140-166 | switches by count or by time, and returns the current partition |
| Sticky.StickyToLastSwitch | internal/partitioner/strategies.go:159-165 | any run returns the draw of its last switch, or the first partition if there was none, which is in range exactly if it is below the present number of partitions |
| Sticky.SwitchesIff | internal/partitioner/strategies.go:147-163 | a call switches exactly if its running number is a multiple of the threshold or the interval has passed since the last call that switched |
| Sticky.SwitchesByCount | internal/partitioner/strategies.go:152-154 | without an interval exactly the multiples of the threshold switch |

## Left out

- HTTP handlers, middleware, authentication, configuration loading, validation, serialization, the Sarama client, metrics reporters, logging: I/O and plumbing around these protocols.
- The response channel of a batched message and the counters of the batch metrics: they do not influence the map.
- `sendBatch` after it has started: the handler is user code. The machine records only that it was started for a batch, once.
- `Start` and `Stop` reused after a stop, and `UpdateConfig`, `UpdatePolicy`, `SetLimit` during a run: the configuration is fixed per run.
- Panics in user operations, and constructors that panic on bad settings: those settings are excluded.
- The breaker's lastStateChange and lastSuccessTime, and the times in reports and batches: written and reported, never read by the protocols.
- Rates of zero: the limiter divides by the rate in its reset time.
- Retry operations of one coordinator that overlap: each call is modelled undisturbed, since its report is its own and its shared updates are single map or metric sections.
- Overflow of durations and of the metrics' integers.
- FNV-1a, the manual, random and composite strategies: one-line choices, or the weighted loop again.
- The default rules of the error categorizer: a table of patterns.
- Batches.Batch.Reset: does not model the batch's times, because nothing in these protocols reads them.
- RateLimitRuns.MixedWindow: allows one more grant for each request that holds a bucket when cleanup drops it, because the bound is false without; WindowBreaksIff shows when.
- RateLimitRuns.SlidingWindow: allows one more grant for each request that holds a bucket when cleanup drops it, because the bound is false without; WindowBreaksIff shows when.
- RateLimitRuns.SinceCreation: allows the same, because the bound is false without; CreationBreaksIff shows when.
- A message queue of capacity 0, which hands a request straight to a waiting worker.
- CoordinatorFlush.NoStrandedBatch: allows for a dropped flush request, because the code has no other trace of it; DroppedRequestStrands shows the run.
- CoordinatorDeadline.StaysBounded: bounds one topic's waits on the prompt schedule only, because any other schedule adds the delays of its own workers and manager.
