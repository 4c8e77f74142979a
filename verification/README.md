# Verification of the job platform's protocol over Redis

The platform admits analysis requests, queues them, runs them in Celery workers under a Redis lock, may
pause them for a human verdict, and keeps counters, a circuit breaker, a job index and a forecast memory
in the same store. This project models that logic in Dafny and proves which guarantees survive
interleaving, expiry, crashes and retries, and exactly when the others fail.

Two kinds of model stand side by side. Every module of the source that updates stored state is a class
whose methods follow the source's branches and are proved against specification functions. The
concurrent questions are asked of state machines whose steps are single store commands (or message
deliveries, kills and the passing of time) built from those same functions, and the theorems range over
every sequence of steps that the machine allows.

| file | models |
|---|---|
| `RedisStore.dfy` | keys with an optional expiry, GET, SETEX, INCR/DECR, EXPIRE |
| `QueueControl.dfy` | the depth counters, calls one at a time |
| `Protocol.dfy` | requests and executions of one job, interleaved command by command |
| `LockSafety.dfy`, `CrashRecovery.dfy`, `CounterSafety.dfy`, `CounterExact.dfy`, `LostSlots.dfy`, `AdmissionBounds.dfy`, `OvershootMet.dfy`, `UndershootMet.dfy` | theorems about `Protocol` |
| `Lifecycle.dfy` | the messages, attempts, client retries, outcome reports and status of one job |
| `Stranded.dfy` | which of those runs reopen a finished job or leave one behind, and exactly when |
| `Refinement.dfy` | trace inclusion: what a run of `Protocol` does to one job, a run of `Lifecycle` does |
| `Worker.dfy` | the two Celery tasks and how an undisturbed execution relates to both machines |
| `Hitl.dfy` | the approval key, its writers and its single timed read |
| `Admission.dfy`, `IdempotencyRaces.dfy`, `RateLimit.dfy` | the `/analyze` sequence, idempotency serial and interleaved, the rate limiter |
| `CircuitBreaker.dfy`, `BreakerRaces.dfy` | the breaker, serial and interleaved |
| `Jobs.dfy` | job records and the per-tenant index |
| `Sets.dfy`, `Rounding.dfy`, `Memory.dfy` | cardinality; rounding half to even; outcome, accuracy and correction |
| `Review.dfy`, `FanOut.dfy` | stock to alerts to confidence to review; the merge of the agents |

Time is a real number, a key is live strictly before its expiry, and identifiers are natural numbers.
Clock readings, fresh identifiers, the outcome of an analysis and the ERP's answer are parameters.

## Where the code departs from its documentation

The model follows the code; each departure is a theorem.

- The rate limiter is called a sliding window. It is fixed to the minute of the clock, and the limit holds
  over a span of time exactly when the span lies within one minute (`RateLimit.SpanRespectsLimitIffWithinWindow`).
- The breaker's half-open state is said to allow one request. Until the first report of an outage the
  requests let through are exactly those whose check decides after the recovery time, whether it had read
  the record open or half-open (`BreakerRaces.OutageLetsThroughExactly`), so there is one exactly when one
  caller decides then, and there can be any number (`BreakerRaces.ManyProbe`); callers that do not overlap
  do get one probe per period (`CircuitBreaker.SerialCallersProbeOnce`).
- The tenant index is said to replace the scan over all jobs. It agrees with it exactly while the tenant
  keeps creating jobs within a week of each other (`Jobs.ListingAgreesWithScan`), and misses a job whose
  record was renewed by an update (`Jobs.IndexMissesUpdatedJob`).
- A verdict is written for an hour and read after the configured timeout, so an accepted verdict is honoured
  exactly when the read is less late than the verdict's delay plus what the hour exceeds the timeout by
  (`Hitl.PromptVerdictNeedsPunctualResume`), and with the default of an hour an early rejection can end as
  an approval (`Hitl.RejectionBecomesApproval`). Several approve and reject calls are accepted when all of
  them read before the first writes (`Hitl.AcceptedExactly`).
- An idempotency key is said to prevent duplicate jobs. Of two calls with one key, the second not a day or
  more after the first stored its answer, both are admitted exactly unless the first had stored by the
  check of the second (`IdempotencyRaces.DuplicateIffOverlap`): it may be still under way
  (`IdempotencyRaces.RepeatsCanDuplicate`) or have died after creating its job
  (`IdempotencyRaces.DeadCallDuplicates`).
- The queue counters are said never to drift upward. A job lost with its request or its worker keeps its
  place in the global depth for ever as long as no message is repeated (`LostSlots.LostNeverReturns`); what
  the counter has drifted to when nothing is left to do is exactly the number of lost jobs
  (`LostSlots.DriftIsLost`), and the queue can fill with them (`LostSlots.QueueCanFillWithLost`).
- The lock is said to make a crashed job safe to run again. After a kill in the body a delivery is refused
  exactly until the lock's life is over (`CrashRecovery.DeliveryAfterCrash`), and a refused message is not
  sent again: a job at rest is left "running" exactly by the kill of its attempt at work, and "queued"
  exactly by a delivery that found the lock held past a report or by a dead worker, or by a kill
  (`Stranded.UnsettledAtRestExactly`). Past the hard limit no message comes back at all
  (`Stranded.HardKillStaysRunning`).
- A job that is "done" is finished only when nothing of it is under way (`Lifecycle.FinalIffAtRest`): a
  pending Celery retry reopens it (`Stranded.OverlappingRetryReopensDone`), and an outcome report that read
  "done" before a human rejected the reopened job writes "done" back over the rejection
  (`Stranded.StaleReportUndoesRejection`).

## Model

| member | source | states |
|---|---|---|
| LockSafety.MutualExclusionIffLimitBelowTtl | core/job_locking.py:23-58 | over all interleavings of deliveries, retries, kills and time, two executions of one job are never inside the body together, if and only if the hard time limit is below the lock's TTL |
| LockSafety.DefaultsAreExclusive | worker.py:47-48 | every run with the limit of 360 and the TTL of 400 seconds is exclusive |
| LockSafety.ReleaseIsOwn | worker.py:188-190 | the unconditional DELETE removes the live entry its own execution stored, and every other execution in the body keeps its lock |
| LockSafety.LockProgress | worker.py:115-190 | a lock that refuses a delivery belongs to an execution in the body or to one killed there less than the TTL ago |
| CrashRecovery.DeliveryAfterCrash | core/job_locking.py:49-53 | after a kill in the body, until another execution takes the lock, a delivery is refused if and only if it comes before the TTL of the dead acquisition is over |
| Refinement.ProtocolRefinesLifecycle | worker.py:113-190 | trace inclusion: for every run of the command-level machine and every job some run of the life-cycle machine takes, refuses, releases, kills and expires the lock in the same order, and ends with the same lock and the same occupancy by at most one execution |
| CounterSafety.NeverOverReports | core/queue_control.py:69-84 | with any crashes, retries and expiry each depth is at most the number of jobs whose increment has executed and of which no execution has finished |
| CounterSafety.RefusalIsNeverSpurious | core/queue_control.py:37-66 | a request is turned away only while at least as many jobs as the limit have been counted and are unfinished |
| CounterExact.ExactCount | core/queue_control.py:69-84 | if no job is delivered twice, the global depth, and a tenant depth whose own key has not expired, is exactly the number of counted jobs not yet discounted, and of unfinished jobs whenever nothing is half-way |
| LostSlots.LostNeverReturns | worker.py:188-190 | while no job is delivered twice, a counted job whose request died or whose execution was killed keeps its place in the global depth for ever |
| LostSlots.EveryRequestRefused | core/queue_control.py:43-50 | once as many jobs are lost as the queue holds, every later request is refused |
| LostSlots.DriftIsLost | worker.py:9-10 | when nothing is left to do the global depth is exactly the number of lost jobs |
| LostSlots.QueueCanFillWithLost | worker.py:9-10 | some run without repeated deliveries loses as many jobs as the queue holds |
| AdmissionBounds.OvershootBound | api/main.py:119-132 | with at most n requests between reading a depth and incrementing it, the depth never exceeds its limit plus n - 1 |
| OvershootMet.OvershootIsMet | api/main.py:119-132 | for every n some run with at most n requests in that gap takes the global depth, or that of any one tenant, to its limit plus n - 1 |
| AdmissionBounds.UndershootBound | core/queue_control.py:76-84 | with at most n decrements in flight the global depth is at least 1 - n; a tenant depth whose key may expire in the gap is at least -n |
| UndershootMet.GlobalUndershootIsMet | core/queue_control.py:76-80 | for every n some run with n decrements in flight takes the global depth to 1 - n |
| UndershootMet.TenantUndershootIsMet | core/queue_control.py:82-84 | for every n some run whose tenant key expires in the gap takes that depth to -n |
| QueueControl.Queue.CheckBackpressure | core/queue_control.py:37-66 | the verdict and its figures in every case, global limit first |
| RedisStore.SetExLaw | core/job_locking.py:49-53 | a value set with a time to live is read exactly until that is over |
| RedisStore.AddLaw | core/rate_limiting.py:46 | a counter keeps the expiry of a live key and has none on a new one |
| RedisStore.ExpireLaw | core/rate_limiting.py:47 | a live key gets the new life, a missing one stays missing |
| QueueControl.Queue.IncrementQueue | core/queue_control.py:69-73 | the new counters and the refreshed tenant expiry |
| QueueControl.Queue.DecrementQueue | core/queue_control.py:76-84 | both counters go down unless they read zero |
| QueueControl.GlobalIsLargestSuffix | core/queue_control.py:69-84 | with calls one at a time the global depth is the largest surplus of increments over all suffixes of the history |
| QueueControl.GlobalAgainstTenants | core/queue_control.py:69-84 | without expiry the global depth is at most the sum of tenant depths, and equal to it until a decrement meets an empty tenant counter |
| Lifecycle.FinalIffAtRest | worker.py:102-215 | unless messages are repeated a status is final if and only if it is not "error" and no message, attempt, client retry or outcome report with another status is under way |
| Lifecycle.StatusMovesAlongEdges | worker.py:120-215 | in an orderly run the status moves only queued to running, running to done, error or pending, pending to done or rejected, error to running or queued |
| Lifecycle.DoneAndRejectedAbsorb | worker.py:204-215 | in an orderly run done and rejected are never left, so an outcome report writes back what it finds |
| Lifecycle.AtMostThreeAttempts | worker.py:102-108 | at most three attempts start per submission |
| Lifecycle.OrderlyRunsAreShort | worker.py:102-215 | from any orderly state the steps are bounded by a measure that every step decreases |
| Lifecycle.EveryJobSettles | worker.py:102-215 | an accepted job takes at most 13 steps, 16 per client retry and 2 per outcome report, and a job with no step left is done, rejected or in error |
| Lifecycle.LongestLife | worker.py:102-215 | the bound of 13 is met |
| Stranded.UnsettledAtRestExactly | worker.py:102-215 | in every run, with any kills and repeated messages, a job at rest is queued exactly when its last delivery or a kill left it so, running exactly when its attempt was killed at work, and settled otherwise |
| Stranded.SwallowedRetryExactly | api/main.py:181-186 | without kills a job at rest is queued if and only if its last delivery came between an attempt's report and its release, and settled otherwise |
| Stranded.HardKillStaysRunning | worker.py:43-50 | an orderly attempt killed past the hard limit leaves the job running for ever |
| Stranded.LostWorkerRecoversIffLockExpired | worker.py:113-118 | the message of a lost worker starts a new attempt if and only if the dead lock has expired, and otherwise leaves the job running for ever |
| Stranded.StaleReportUndoesRejection | api/main.py:264-314 | an outcome report that read "done" can overwrite a later rejection |
| Stranded.OverlappingRetryReopensDone | api/main.py:181-186 | a client retry beside a pending Celery retry reaches a "done" that can be left again |
| Stranded.HastyRetryStaysQueued | api/main.py:181-186 | a client retry before the failed attempt has released its lock is skipped and leaves "queued" for ever |
| Stranded.CrashStaysRunning | worker.py:113-118 | a message returned while the dead worker's lock lives is skipped and leaves "running" for ever |
| Stranded.OnlyQueuedIsLeftBehind | worker.py:102-215 | without kills, whatever clients do, a job at rest is settled or "queued" |
| Worker.Worker.AcquireJobLock | core/job_locking.py:49-53 | taken exactly when no live entry exists, and then stored for 400 seconds |
| Worker.LockHeldExactly | core/job_locking.py:23-58 | a lock taken at t is refused to every later call exactly until t + 400, whatever other jobs do, unless it is freed |
| Worker.LockMatches | core/job_locking.py:49-53 | the SET of the interleaved machine is the worker's |
| Worker.Worker.PushToDlq | worker.py:80-88 | the new entry comes first, the list keeps 500 |
| Worker.DlqHoldsNewest | worker.py:86-87 | after any pushes the list is the newest 500 failures, newest first |
| Worker.Worker.ProcessAnalysisJob | worker.py:109-190 | a locked job changes nothing; otherwise a live record ends done exactly for a completed run, pending exactly for a paused one and in error for the rest; only a pause posts the resume and only an exception before the third attempt a retry; soft timeouts and exceptions are archived; every exit releases the lock and decrements once |
| Worker.Worker.RunAndReport | worker.py:119-186 | the part before `finally`: record, message, dead letter and link per outcome |
| Worker.Worker.ResumeHitlJob | worker.py:196-215 | a live job ends done exactly when the single read of the verdict approves, and rejected otherwise |
| Worker.VerdictSettlesJob | worker.py:204-215 | an approval, rejection or dashboard answer read within its hour makes the job done exactly when it approves, under the reviewer's name, with the decision or the reason given |
| Worker.RetryAfterExecution | api/main.py:174-186 | a retry right after an execution is served exactly when that was degraded, timed out or raised |
| Worker.OthersMatch | api/main.py:181-186 | the resume and the client retry of the life-cycle machine do what the endpoints do |
| Worker.AttemptMatches | worker.py:113-190 | an undisturbed attempt of the life-cycle machine ends in the status and the message that the Celery task's contract gives its record and its outbox |
| Worker.FinallyMatches | worker.py:188-190 | the interleaved cleanup commands run back to back are the Celery task's cleanup |
| Worker.CountingMatches | core/queue_control.py:69-73 | the interleaved counting commands run back to back are increment_queue |
| Worker.ChecksMatch | core/queue_control.py:42-66 | the two depth reads of the interleaved machine refuse at 100 and at 10 |
| Hitl.Desk.Decide | api/hitl_routes.py:23-60 | accepted only on a live pending key, which then holds the verdict given, the reviewer and the comment for an hour; else 404 or 409 and nothing written |
| Hitl.Desk.RespondByJob | api/hitl_routes.py:82-108 | writes the verdict given unconditionally, under the linked request or the job's own id |
| Hitl.Desk.ResolveHitl | core/hitl.py:91-120 | a stored verdict, or else the configured fallback, with its texts |
| Hitl.LastFreshVerdictDecides | core/hitl.py:91-120 | under every interleaving of the handlers the job is settled by the last verdict written if it is younger than an hour, else by the fallback |
| Hitl.AcceptedExactly | api/hitl_routes.py:23-60 | under every interleaving a call is accepted if and only if it reads the live key before any handler has written it |
| Hitl.NoneAcceptedAfterWrite | api/hitl_routes.py:23-60 | after the first write no call is ever accepted again |
| Hitl.AnyNumberAccepted | api/hitl_routes.py:23-60 | any number of calls can be accepted before it |
| Hitl.FirstVerdictWins | api/hitl_routes.py:23-60 | of approve and reject calls taken one at a time only the first is accepted, if it beats the expiry; the others get 409, or 404 once the key is gone |
| Hitl.PromptVerdictNeedsPunctualResume | core/hitl.py:91-120 | for any timeout, a verdict given `delay` after the request is honoured if and only if the resume is less late than `delay` plus an hour less the timeout |
| Hitl.RejectionBecomesApproval | core/hitl.py:103-120 | a rejection in the first second and a resume two seconds late end as approved |
| Admission.Api.Analyze | api/main.py:102-156 | replay, rate refusal, congestion or fresh job, in this order, each exactly when its condition holds, with the whole new state; a rate refusal names the plan's limit and a wait that ends in the next window, a congestion the full counter, its depth and its wait |
| Admission.Api.CheckIdempotency | core/idempotency.py:22-39 | a stored answer is found exactly when the key is not empty and live for this tenant |
| Admission.Api.RetryJob | api/main.py:174-191 | only a tenant's own job in error is requeued; one message, no counter |
| Admission.Api.RecordOutcome | api/main.py:247-334 | only a tenant's own finished job; the memory is told, and the copy read is stored whole with a new week |
| Admission.Conservation | api/main.py:112-147 | over any sequence of requests and decrements the jobs created, counter increments, messages and fresh answers correspond one for one |
| Admission.ReplayExactly | core/idempotency.py:22-56 | a call is a replay if and only if its key was admitted less than a day before; it names that job and changes nothing |
| IdempotencyRaces.ReplayedExactly | core/idempotency.py:22-56 | with check, admission and store as separate steps a call is replayed if and only if some call with its key stored before its check and less than a day earlier; it is given the latest such job |
| IdempotencyRaces.DuplicateIffOverlap | api/main.py:112-147 | two calls with one key, the second not a day or more after the first stored, are both admitted if and only if the first, running or dead, had not stored by the check of the second |
| IdempotencyRaces.RepeatsCanDuplicate | api/main.py:112-147 | any two calls with one key and plan, first at an empty store, can both be admitted |
| IdempotencyRaces.DeadCallDuplicates | api/main.py:131-147 | a call that creates its job and dies before it stores lets a repeat, however much later, create another |
| RateLimit.Limiter.CheckRateLimit | core/rate_limiting.py:32-65 | refused exactly when the window had already received the limit, 60 for pro and 10 for the others; enterprise touches nothing |
| RateLimit.Limiter.GetRateLimitStatus | core/rate_limiting.py:68-84 | shows the same count without spending it |
| RateLimit.RetryLandsOnNextWindow | core/rate_limiting.py:48-49 | the wait is 1 to 60 seconds and ends in the next window |
| RateLimit.WindowIsMinute | core/rate_limiting.py:43 | a window is a minute of the clock |
| RateLimit.CountsLastIffStallWithinWindow | core/rate_limiting.py:43-47 | the 120 s life of a key never loses a count if and only if no call takes more than a window from its clock reading to its INCR |
| RateLimit.WindowBound | core/rate_limiting.py:43-50 | under every interleaving at most `limit` calls of a tenant pass per window |
| RateLimit.SpanBound | core/rate_limiting.py:43-50 | any span of k minutes lets at most (k + 1) times the limit through |
| RateLimit.SpanRespectsLimitIffWithinWindow | core/rate_limiting.py:43-50 | no run exceeds the limit over a span of time if and only if the span lies within one minute of the clock |
| RateLimit.TwiceTheLimitInTwoSeconds | core/rate_limiting.py:43-50 | the instance of it across a minute's end: for every limit some run lets twice the limit through within two seconds |
| CircuitBreaker.Breaker.RecordFailure | core/circuit_breaker.py:65-74 | one failure more, open from the threshold on |
| CircuitBreaker.Breaker.IsAvailable | core/circuit_breaker.py:76-95 | true unless the circuit is open, then exactly after the recovery time, with the move to half-open; the exception on a missing opening time |
| CircuitBreaker.Breaker.Protect | core/circuit_breaker.py:97-115 | records the outcome of admitted calls only; from a well-formed record it never raises and keeps it well formed |
| CircuitBreaker.RecordCountsTrailingFailures | core/circuit_breaker.py:57-115 | the count is the trailing run of failures since the record expired, and the circuit is closed exactly while it is below the threshold |
| CircuitBreaker.DeadServiceCallBound | core/circuit_breaker.py:57-115 | against a dead service non-overlapping callers make at most threshold + floor(L / recovery) real calls in any L seconds below the key's life, one less when the last period ends with the stretch |
| CircuitBreaker.DeadServiceBoundIsMet | core/circuit_breaker.py:57-115 | the sharper bound is met for every span |
| CircuitBreaker.DefaultCallBound | core/circuit_breaker.py:28-29 | with the default settings: three, and one for every two minutes |
| CircuitBreaker.RefusedExactly | core/circuit_breaker.py:76-115 | after any history a call is refused if and only if the trailing failures since the record expired have reached the threshold and at most the recovery time has passed since the last of them ended |
| CircuitBreaker.HealthyServiceAlwaysCalled | core/circuit_breaker.py:79-80 | a service that always succeeds is called every time |
| CircuitBreaker.SerialCallersProbeOnce | core/circuit_breaker.py:82-95 | callers that do not overlap never find the record half-open, and two probes are more than the recovery time apart |
| BreakerRaces.RecordsStayWellFormed | core/circuit_breaker.py:43-95 | under every interleaving of reads and writes, with lost updates, crashes and expiry, every stored record is well formed, so the recovery subtraction is defined |
| BreakerRaces.ThresholdMustBePositive | core/circuit_breaker.py:28-74 | that invariant holds if and only if the threshold is at least one |
| BreakerRaces.HalfOpenEndsByReport | core/circuit_breaker.py:57-95 | a stored half-open record is ended by a report and by nothing else |
| BreakerRaces.OutageLetsThroughExactly | core/circuit_breaker.py:76-95 | until the first report of an outage, while the key lives, the requests let through are exactly the checks that decide after the recovery time, so exactly one if and only if exactly one caller decides then |
| BreakerRaces.ManyProbe | core/circuit_breaker.py:82-89 | any number of callers that read the record open before it is stored half-open all pass |
| Jobs.JobStore.UpdateJob | core/jobs.py:57-68 | a live record gets the status and a new week and keeps the rest, a missing one nothing |
| Jobs.JobStore.ListJobs | core/jobs.py:76-88 | live records of the set's members, each once, newest first, as many as the limit allows, and nothing newer is cut off |
| Jobs.NewestFirstSorts | core/jobs.py:87 | the sort orders by creation time and keeps the jobs |
| Jobs.ListingIsSoundAndFresh | core/jobs.py:35-88 | after any history the listing has only the tenant's live jobs, and all younger than a week |
| Jobs.ListingAgreesWithScan | core/jobs.py:76-88 | it equals the full scan if and only if every live job is followed by creations less than a week apart up to now |
| Jobs.IndexMissesUpdatedJob | core/jobs.py:57-88 | a job renewed by an update outlives the set and is missed |
| Memory.MemoryStore.SaveActualOutcomeSafe | core/memory_safety.py:20-57 | the reply, the new memory and the log in every case |
| Memory.MemoryStore.ResetMemory | core/memory_safety.py:60-76 | the record is gone and the reason logged first |
| Memory.MemoryStore.GetAdjustmentFactor | core/memory.py:62-81 | the correction read from the live record |
| Memory.OutcomeKeptExactly | core/memory_safety.py:31-57 | an outcome is kept if and only if it is within 60% of the forecast, ignored without a trace outside a third to three times it, and takes the record along in between |
| Memory.OutcomeWithoutForecast | core/memory_safety.py:25-57 | without a record nothing is stored; without a forecast the outcome is, and the accuracy stays |
| Memory.StoredRecordsAreSound | core/memory_safety.py:20-76 | over any decisions, safe outcomes and resets a stored accuracy is that of the stored outcome, rounded, and at least 0.40 |
| Memory.IssuedFactorsAreMild | core/memory.py:62-81 | every issued factor is in [0.7, 1.3] |
| Memory.FactorExactly | core/memory.py:62-81 | a factor other than 1 is issued exactly for an accuracy below 0.90, and is the mean of forecast and outcome to three digits |
| Memory.NoteExactly | core/memory.py:102-111 | which note is given for which accuracy and factor |
| Memory.CorrectionHalvesError | core/memory.py:62-111 | an issued correction leaves at most half the error plus rounding, strictly less than before, in the direction the note names |
| Memory.ClampActsOnlyUnguarded | core/memory.py:34-81 | of the records the unguarded writer stores the clamp acts, and gives 1.5, on exactly those beyond twice the forecast; of those on the safe path on none |
| Review.Aggregate | sectors/supply_chain/aggregator_agent.py:7-43 | every alert exactly at its threshold, once and in order; the urgency is the highest severity; the fallback mark is that of any output |
| Review.EvaluateConfidence | core/hitl.py:33-43 | one minus the deductions; clamp and rounding never act |
| Review.HitlCheckpoint | core/hitl.py:123-154 | a human is asked exactly for critical stock, insufficient capacity or a fallback; otherwise no key is touched |
| Review.HumanReviewExactly | core/hitl.py:33-43 | composed from the agents' inputs: below 4.95 days of stock, above capacity, or a fallback; a production agent that raised decides nothing |
| Review.ProductionFigures | sectors/supply_chain/production_agent.py:23-91 | the figures reported, rounded, from the demand and the stock, with 30 and 1200 where nothing is known |
| Review.ReorderExactly | sectors/supply_chain/production_agent.py:35-50 | packaging is reordered exactly for a demand above 5000 / 4.95 or a negative one, and in the first case the capacity is insufficient |
| Review.PipelineReview | core/orchestrator.py:60-71 | in the parallel phase the demand is the default, so review turns on 148.5 units or a fallback and no capacity alert occurs |
| Review.HighUrgencyExactly | sectors/supply_chain/aggregator_agent.py:12-31 | high with one of the three grave alerts, medium with low stock otherwise |
| Rounding.TiesToEven | core/memory.py:51 | a tie is rounded to the even neighbour |
| FanOut.UniversalState.RunParallel | core/orchestrator.py:60-73 | after the loop each key has the value of the last returned copy that holds it, and the errors are appended in order |
| FanOut.MergeIsUnion | core/orchestrator.py:60-73 | from a fresh state agents with different keys lose nothing: the merge is the union of what was written |
| FanOut.RaisingAgentIsIsolated | core/orchestrator.py:66-67 | a raising agent adds one error and disturbs nothing else |
| FanOut.ErrorsInOrder | core/orchestrator.py:65-71 | the errors come in the order of the agents |
| FanOut.ErrorsOfOne | core/orchestrator.py:65-71 | what one agent adds to the errors, by how it ends |
| FanOut.OrderDoesNotMatter | core/orchestrator.py:60-73 | permuting the agents changes neither outputs nor the bag of errors |
| FanOut.UpdateSurvivesIff | core/orchestrator.py:62-71 | a change to a key set before survives if and only if no later agent returns its copy |
| FanOut.StartErrorsRepeat | core/orchestrator.py:68-71 | an error present at the start is repeated once per returned copy |

## Left out

- Only `run_analysis` fails: a Redis failure inside an `except` or `finally` part, or between the status writes of a task, is not modelled.
- No execution outlives the hard time limit: this is a rule of the machine's clock, as the process pool promises it.
- Celery and the broker beyond deliver, retry, redeliver and kill; a countdown is a delay on the posted message, and in `Lifecycle` a message may arrive at any time after it was sent.
- Lifecycle: the resume task is one step, and the API process does not stop between the two writes of a retry.
- Lifecycle: the expiry of the job record after a week, and the lost update of result and error texts between two overlapping `update_job` calls; the status itself is overwritten either way.
- record_outcome beyond its memory write and its write-back of the job: the database row and the answer.
- Job results, error texts, JSON, wall-clock formatting, webhooks, audit log, tracing and printed lines.
- `get_pending`, `get_queue_stats`, `get_memory_summary` beyond its note, and the other endpoints that only read.
- Floating point: numbers are exact, rounding is half to even on exact decimals.
- MemoryStore: the expiry of the reset log.
- The demand agents' LLM text, tool selection, embeddings and database rows; weather and sales enter by the fields the aggregator reads.
- Review: `current_stock`, which only truncates the quantity, and the ERP fields nothing downstream reads.
- Tenants, permissions, API keys, secrets and URL checks.
