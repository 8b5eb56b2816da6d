# Verified model of the inference gateway and its batching workers

The system serves predictions through a gateway that routes each request to one of several workers.
Each worker groups requests into batches for its model. This project models the two protocols that
make the system hard to reason about, proves what they keep over whole runs, and proves that
imperative versions of the program's objects follow them.

- **The batcher** (`worker/batcher.py`): a bounded queue, a one-place hold slot, a coroutine that
  fetches, collects, prepares, executes and scatters batches, and futures that callers may cancel at any time.
- **The routing protocol** (`gateway/scheduler.py`, `gateway/client.py`, `gateway/registry.py`):
  any number of concurrent predictions that reserve a worker, call it, mark it, release it and
  retry once, while health probes drive a state machine for every worker.
- **Two small algorithms**: the nearest-rank percentile (`scripts/summarize_results.py`) and the
  worker-list parser (`gateway/config.py`).

## How the files fit together

| file | content |
|---|---|
| BatchMachine.dfy | the batcher as a step machine over a state value; requests are named by admission number |
| BatchRequests.dfy | the requests a run has accepted, as their callers made them |
| BatchConservation.dfy | no envelope lost, duplicated or overtaken; no work for requests that are over |
| BatchSettlement.dfy | how often, when and with what futures are settled; measured times |
| BatchTransparency.dfy | slices tile the flattened inputs; batching does not change any answer |
| BatchCapacity.dfy | occupancy bounds, the hold slot, progress |
| BatchTurns.dfy | until when a batch stays open, who joins it, what closes it |
| BatchResults.dfy | every result is the request's own part of what its batch came back with |
| BatchRuns.dfy | the runs the event loop allows, turns to the next pause, the coroutine left alone |
| BatchPlan.dfy | an undisturbed backlog is cut by the next-fit rule, and what that costs |
| BatchDrain.dfy | a backlog that is left alone is drained |
| BatchLimits.dfy | the exact conditions for item limit and queue depth, with runs that break them |
| BatchShutdown.dfy | which requests are still answered after shutdown |
| Batcher.dfy | the `Batcher` class with its loops, proved against the step machine |
| WorkerHealth.dfy | the health state machine of one worker |
| Scheduling.dfy, Balancing.dfy, Rotation.dfy | worker selection, and what many selections achieve |
| Routing.dfy, RoutingProtocol.dfy | the routing state machine, reservations, retries, isolation |
| RoutingIsolation.dfy | what an ejected worker can still cost, and what becomes of a draining one |
| RoutingErrors.dfy | how a prediction begins, when and where a second call goes out, and which error means what |
| HealthReports.dfy | which probe reports make a worker healthy, eject, restore and retire it, over runs |
| Gateway.dfy | `WorkerNode`, `WorkerRegistry`, `Scheduler`, `GatewayClient`, proved against the specifications |
| Percentile.dfy, WorkerList.dfy | the two small algorithms |
| Clock.dfy, Lists.dfy, Sorting.dfy, Arithmetic.dfy | shared vocabulary |

The program's objects are classes whose methods update fields. Each method's contract equates the
object's new `View()` with a specification function of its old one, and the theorems are about runs
of those functions. `Batcher.RunLoop` and `GatewayClient.Predict` take a script of what their
environment does, so their contracts hold for every interleaving. The theorems in turn speak of what
goes in and comes out along a run (the requests as made, the clock, the executor's outputs, the probes'
reports, the replies), so that they say what the specification functions should compute.

How the machines stand to the program:

- Time is a real number that only the environment advances. Each step of the coroutine reads the
  clock at most once. Where the gateway reads it twice without suspending, `lag` is the time between.
- Handlers, cancellations, the clock and shutdown may act between any two steps of the coroutine;
  in the program only while it is suspended. A timeout of the collecting wait may come at any time
  during the wait. Every run of the program is therefore a run of the machine. Where a theorem says
  that some run exists, that run also satisfies `ProgramRun`: handlers and shutdown act only while
  the coroutine is suspended for want of something to do, and the timer fires only when it is due.
- The gateway's lock regions do not suspend, so beginning a prediction and handling a reply (mark,
  release, next selection) are single steps; probes and other predictions come between them.
- The model is an arbitrary function from one input to one prediction, and the executor returns its
  map over the batch or raises. This assumption appears as `PointwiseRun` where it is needed.
- Configuration values are arbitrary integers; a theorem that needs more says so in its `requires`.

Where the code and `docs/model-serving-plan.md` differ, the model follows the code:

- The held envelope is outside the queue, so the depth can be the capacity plus one
  (`DepthWithinCapacityExactly` says for which configurations, with a run of the program).
- A lone request may exceed the item limit (`ItemLimitBrokenExactlyByOversized`, `ItemLimitKeptExactly`).
- `close` does not settle requests that are queued, held or executing; the plan (line 189 and lines
  959-968) has shutdown resolve or fail every accepted request. Of the requests pending when `close`
  is called, exactly the members of an open, waiting batch can still be answered
  (`ShutdownAnswersExactlyTheOpenBatch`, `OpenBatchIsServed`, `ShutdownStrandsARequest`).
- The plan (line 524) has WORKER_UNAVAILABLE whenever the transport failed and a retry could not
  succeed. The code does so exactly on the second attempt or without retry budget; otherwise the
  caller sees DEADLINE_EXCEEDED, NO_HEALTHY_WORKER or GATEWAY_AT_CAPACITY
  (`UnavailableErrorsExactly`, and the run of `TransportFailureReportedOtherwise`).
- FAILED_PRECONDITION does not mark the worker (plan, line 639; `RepliesEjectExactly`).
- The plan (lines 186 and 704) has an unhealthy worker return after enough successful probes. A
  streak of that many restores every worker but one that has reported DRAINING
  (`RecoveryExactly`, `StreakRestoresUnlessDraining`).
- The plan (line 703) has a real UNAVAILABLE mark the worker unhealthy. The worker is unhealthy
  afterwards exactly if it was healthy or unhealthy before; a starting or draining one takes no
  notice (`MarkedUnhealthyExactly`). `DrainingDefiesMarkAndProbes` is a run that fails both rules.

## Model

| member | source | states |
|---|---|---|
| BatcherLoop.Batcher.Enqueue | worker/batcher.py:66-86 | refused exactly when stopping or when a bounded queue is full; an accepted one appends an envelope with exactly the given id, inputs and deadline and the current time, a pending future and its place at the end of the queue; a refusal changes nothing |
| BatcherLoop.Batcher.Check | worker/batcher.py:110-117 | true exactly for a pending request within its deadline; otherwise a pending one gets the deadline error, a done one is left as it is |
| BatcherLoop.Batcher.FetchFirst | worker/batcher.py:100-117 | the held envelope goes first, then the head of the queue; the new state is the machine's |
| BatcherLoop.Batcher.PullOne | worker/batcher.py:132-148 | one pulled envelope is discarded, held for the next batch or appended, as the machine does |
| BatcherLoop.Batcher.WaitForOne | worker/batcher.py:126-148 | one round of collecting: timer, wait, timeout or cancellation, pull; the object stays equal to the machine on the script consumed |
| BatcherLoop.Batcher.CollectBatch | worker/batcher.py:119-148 | the collecting loop refines the machine and ends ready to process the batch it returns |
| BatcherLoop.Batcher.PrepareOne | worker/batcher.py:163-173 | a live envelope adds its inputs and its slice, any other is discarded |
| BatcherLoop.Batcher.PrepareBatch | worker/batcher.py:156-173 | the preparing loop refines the machine, one step an envelope, whatever happens in between |
| BatcherLoop.Batcher.AnswerOne | worker/batcher.py:190-210 | a done future is skipped, a late one gets the deadline error, any other its slice and times |
| BatcherLoop.Batcher.ScatterBatch | worker/batcher.py:188-210 | the scattering loop refines the machine |
| BatcherLoop.Batcher.FailBatch | worker/batcher.py:182-186 | after a failed inference every pending future of the batch gets the inference error |
| BatcherLoop.Batcher.ProcessBatch | worker/batcher.py:156-210 | preparing, executing and scattering or failing, with shutdown at the executor, refine the machine |
| BatcherLoop.Batcher.RunLoop | worker/batcher.py:96-154 | for every script, the fields after what the coroutine did are the machine's state after the same actions, and it returns only when the script ends or it has stopped |
| BatchConservation.NothingIsLost | worker/batcher.py:66-210 | in every reachable state the accepted envelopes are, as a multiset, those in hand, held, queued, dropped and finished; those in custody have not been answered, dropped ones were cancelled or had expired before execution, finished ones are done |
| BatchConservation.FirstInFirstOut | worker/batcher.py:99-173 | the submitted batches in sequence, followed by what is not yet submitted, are the admissions in order minus exactly the dropped ones |
| BatchConservation.NoWorkForTheDone | worker/batcher.py:161-173 | a request done or past its deadline before it is prepared is in no batch handed to the executor, now or later |
| BatchSettlement.SettlementIsSound | worker/batcher.py:110-210 | the batcher settles each future at most once, results only by the deadline its caller gave, deadline errors only after it, and every result or error is one it put there |
| BatchSettlement.ErrorsNameThePlace | worker/batcher.py:110-210 | the error a request gets names the place where it was given up: queue or wait, preparing, scattering, failed inference; an expiry only after its deadline |
| BatchSettlement.CancelledExactly | worker/batcher.py:66-86 | in every reachable state a future is cancelled if and only if its caller withdrew the request while it was pending |
| BatchSettlement.OutcomesAreFinal | worker/batcher.py:164-210 | a done future never changes again in any run |
| BatchSettlement.ClampsAreIdle | worker/batcher.py:194-205 | with a monotone clock both reported times are the plain differences, so the clamps at zero do nothing |
| BatchSettlement.TimesAreMeasured | worker/batcher.py:194-205 | in every reachable state every result has 0 <= queue time <= total time |
| BatchTransparency.SlicesTile | worker/batcher.py:158-173 | the slices start at 0, adjoin, end at the flattened length, and each cuts out its own envelope's inputs |
| BatchTransparency.BatchingIsTransparent | worker/batcher.py:156-210 | under a pointwise model every result ever set is the model's answers to the inputs its caller passed, in order |
| BatchTransparency.EveryRequestEndsFairly | worker/batcher.py:99-210 | a request out of custody was cancelled, answered in time as if alone, refused late, or told of a failed inference because the executor raised on the batch it was in |
| BatchCapacity.OccupancyIsBounded | worker/batcher.py:48-83 | queue within capacity, depth within capacity + 1, pending requests within capacity + request limit, every submitted batch within both limits unless it is a lone request |
| BatchCapacity.HeldIsNeverOverwritten | worker/batcher.py:143-145 | no step replaces a held envelope by another |
| BatchCapacity.WaitingEnds | worker/batcher.py:99-154 | an envelope with k ahead of it is done once k + 1 more first envelopes were taken and the coroutine is back at its fetch |
| BatchCapacity.DeferredAtMostOnce | worker/batcher.py:143-145 | the tickets that went through the hold slot strictly increase, so none does so twice |
| BatchCapacity.NoBatchIsEmpty | worker/batcher.py:175-176 | no batch without a live request is ever handed to the executor |
| BatchTurns.CollectingExactly | worker/batcher.py:119-148 | in every reachable state, told from the time the batch was opened and the requests as made: a wait is entered if and only if the batch is below both limits and less than the delay has passed; an envelope joins if and only if it is pulled, wanted, in time and fits; the batch closes as it stands if and only if it is full, due, timed out, shut down, or the pulled envelope does not fit and is held |
| BatchTurns.LateJoinsAreFew | worker/batcher.py:124-148 | in every run at most one envelope joins a batch after its delay is over |
| BatchResults.ResultsComeFromTheirBatch | worker/batcher.py:157-205 | whatever the executor answers: every result comes from a return for the batch its request was in, holds the part of the output at the places the request's own inputs had there, the three times of that output, the queue time from admission to the start of that batch and the total time to that return |
| BatchRuns.CoroutinePausesSoon | worker/batcher.py:119-210 | from any reachable state, whatever happens in between, the coroutine is at its fetch, its wait or the executor, or ended, within request limit + 4 of its own turns |
| BatchRuns.MovesReachRest | worker/batcher.py:99-210 | left alone, with an executor that answers, the coroutine comes to rest: nothing waiting, or ended |
| BatchPlan.RunFollows | worker/batcher.py:119-148 | in an undisturbed run the batches submitted so far followed by the next-fit plan for the rest never change |
| BatchPlan.BacklogDrainsByNextFit | worker/batcher.py:119-148 | draining an undisturbed backlog submits exactly its next-fit batches, in order |
| BatchDrain.BacklogIsDrained | worker/batcher.py:99-210 | a backlog whose deadlines are a batch delay away is drained when left alone, by a run of the program of bounded length that never disturbs it and submits its next-fit batches in order |
| BatchPlan.NextFitBound | worker/batcher.py:126-148 | the batches are the backlog cut in order; A full ones satisfy R * A <= n, and M * (B - 1 - A) <= 2 * S, even counting an oversized request as M |
| BatchPlan.NextFitIsNearOptimal | worker/batcher.py:126-148 | for any backlog, oversized requests included, next-fit needs at most three times the batches of any packing of the same requests in any order, plus one |
| BatchLimits.ItemLimitBrokenExactlyByOversized | worker/batcher.py:119-126 | a submitted batch exceeds the item limit if and only if it holds a request that does, and then that request is alone |
| BatchLimits.DepthWithinCapacityExactly | worker/batcher.py:54-59 | over all runs of the program with requests of 1 to L inputs the depth stays within capacity if and only if the configuration can never hold an envelope, a condition on R, M, L and the delay; otherwise a run of the program reaches capacity + 1 |
| BatchLimits.ItemLimitKeptExactly | worker/batcher.py:119-148 | every batch of every run of the program with requests of 1 to L inputs is within the item limit M if and only if L <= M; otherwise a run submits a batch above it |
| BatchShutdown.ShutdownAnswersExactlyTheOpenBatch | worker/batcher.py:88-134 | for a request pending when shutdown is asked for at the fetch, the wait or the executor: some run of the program answers it afterwards if and only if it is in a batch that is open and waiting |
| BatchShutdown.ShutdownLosesTheRest | worker/batcher.py:88-108 | every other pending request is answered in no run at all |
| BatchShutdown.OpenBatchIsServed | worker/batcher.py:131-154 | every member of the open batch is done once the coroutine has ended, unless a second shutdown interferes |
| BatchShutdown.ShutdownStrandsARequest | worker/batcher.py:88-94 | a concrete run of the program whose one accepted request is never answered, for every queue capacity |
| WorkerHealth.SuccessesCountTheStreak | gateway/registry.py:63-68 | the success counter is the number of compatible probes since the last failed probe, draining report or effective mark |
| WorkerHealth.FailuresCountTheStreak | gateway/registry.py:63-68 | the failure counter is the number of failed probes since the last compatible probe, draining report or effective mark, plus the threshold if that was a mark |
| WorkerHealth.CountersStayInRange | gateway/registry.py:105-142 | one counter is always zero; starting means no successes, healthy fewer failures than the threshold, unhealthy fewer successes than the recovery threshold |
| WorkerHealth.CountersInRangeExactly | gateway/registry.py:105-142 | those ranges hold in every reachable state if and only if both thresholds are at least one |
| WorkerHealth.DrainingIsFinal | gateway/registry.py:105-125 | no sequence of probes and marks leaves DRAINING |
| WorkerHealth.RecoveryNeedsAStreak | gateway/registry.py:110-125 | an ejected worker is healthy again only after that many consecutive compatible probes since the ejection (that they suffice is RecoveryExactly) |
| WorkerHealth.RecoveryExactly | gateway/registry.py:110-125 | a streak of compatible probes leaves a worker healthy if and only if it was not draining and, if unhealthy, the streak makes up what its counter lacks |
| WorkerHealth.StreakRestoresUnlessDraining | gateway/registry.py:110-125 | as many compatible probes as the recovery threshold restore every worker but a draining one |
| WorkerHealth.EjectionExactly | gateway/registry.py:134-144 | a streak of failed probes ejects a healthy worker if and only if it fills its failure counter |
| WorkerHealth.ProbeEjectionNeedsAStreak | gateway/registry.py:134-144 | probes eject a worker only when at least the failure threshold of latest results in a row were failed |
| WorkerHealth.FlappingIsBounded | gateway/registry.py:134-144 | recoveries times recovery threshold <= compatible probes, probe ejections times failure threshold <= failed probes, ejections <= entries into healthy |
| HealthReports.VerdictsOfRun | gateway/registry.py:99-130 | in every run the health machine of a worker sees the verdicts of exactly that worker's reports, in order |
| HealthReports.StateFromReports | gateway/registry.py:99-130 | in every reachable state a worker is draining if and only if a report said so, and starting if and only if no report said so and none carried the expected version and hash with READY or STARTING |
| HealthReports.SelectionNeedsGoodReport | gateway/scheduler.py:24-30 | no worker is called before such a good report, nor after a draining one |
| HealthReports.BecomesHealthyByGoodReport | gateway/registry.py:99-125 | in any state a worker becomes healthy only by a good report of its own |
| HealthReports.HealthLostExactly | gateway/registry.py:63-68 | in any state a healthy worker stops being healthy if and only if a call on it ends UNAVAILABLE, it reports DRAINING, or an unanswered or incompatible probe fills its failure counter |
| HealthReports.BadReportsEject | gateway/registry.py:126-144 | from any reachable state, as many unanswered or incompatible probes in a row as the failure threshold leave a healthy worker unhealthy, whatever else happens |
| HealthReports.EjectionNeedsBadReports | gateway/registry.py:134-144 | in every run probes eject a worker only when at least that many of its latest reports in a row were bad |
| HealthReports.EjectedUntilGoodReports | gateway/registry.py:110-125 | between an ejection and the worker's next selection lie at least as many good reports in a row as the recovery threshold |
| HealthReports.GoodReportsRestore | gateway/registry.py:110-125 | from any reachable state, that many good reports and no others, with no call failing on the worker meanwhile, leave it healthy if and only if it was not draining |
| Gateway.WorkerRegistry.IsAnyWorkerHealthy | gateway/registry.py:60-61 | true exactly when some registered worker is healthy |
| Gateway.WorkerRegistry.MarkUnhealthyImmediately | gateway/registry.py:63-70 | the registry after a mark, over all workers; unknown and non-healthy workers are untouched |
| Gateway.WorkerRegistry.TakeReport | gateway/registry.py:99-127 | one probe result moves the worker's health as the health machine does |
| Gateway.WorkerRegistry.RecordProbeFailure | gateway/registry.py:134-144 | one failed probe moves the worker's health as the health machine does |
| Scheduling.SelectionMeaning | gateway/scheduler.py:23-52 | no worker exactly when none is healthy; at capacity exactly when some are and each is excluded or full; otherwise a least-loaded eligible one, with one reservation more and nothing else changed |
| Scheduling.LexByFirstDifference | gateway/scheduler.py:43 | the order the tied workers are sorted in is the one by the first differing character, a prefix coming first |
| Scheduling.SelectionRotates | gateway/scheduler.py:32-48 | whatever the loads, exclusions and cursor: a worker is selected if and only if some healthy, not excluded one is below the cap; it is the one at the cursor among those with the least load, sorted by first difference of their ids, and the cursor moves one place on among them |
| Gateway.Scheduler.SelectWorker | gateway/scheduler.py:19-52 | the object's selection is the specified one, cursor and reservations included, and a refusal changes nothing |
| Gateway.Scheduler.ReleaseWorker | gateway/scheduler.py:54-59 | one reservation less on a known worker that has any, nothing else |
| Balancing.GreedyIsOptimal | gateway/scheduler.py:41-50 | n selections leave no more load above any level, so no larger maximum, than any other placement of n requests from the same loads |
| Balancing.SpreadNeverGrows | gateway/scheduler.py:41-50 | selections never widen the spread beyond its initial value, or one if that is less |
| Balancing.IdleWorkersFillEvenly | gateway/scheduler.py:32-50 | m idle workers admit exactly m * cap requests, then answer at capacity; on the way every load is n / m rounded down or up |
| Rotation.EvenTurn | gateway/scheduler.py:41-48 | among equally loaded workers the cursor picks from exactly the healthy ones, ascending by first difference of their ids, moves one place on, and release restores every node |
| Rotation.TurnsVisitEveryWorker | gateway/scheduler.py:41-59 | as many select-and-release turns as healthy workers pick exactly the healthy workers, each as often as registered, ascending by first difference of their ids from the cursor's place on and then from the start, and bring the cursor back |
| Routing.ReservationsAreConserved | gateway/client.py:56-112 | in every reachable state each worker's count is the number of calls outstanding on it, within the cap; a release always decrements; all counts are zero when nothing is outstanding |
| RoutingProtocol.RetryProtocol | gateway/client.py:54-114 | at most two calls, the second only after an UNAVAILABLE first and on another worker; a success reports their number and the worker that answered, a refusal is passed on, and of the four errors possible after a lone UNAVAILABLE the exact one is given by RoutingErrors.UnavailableErrorsExactly |
| RoutingErrors.BeginErrorsExactly | gateway/client.py:52-61 | how a prediction begins, each if and only if over the state before: the call goes out when time is left and a healthy worker has room; DEADLINE_EXCEEDED when no time is left; NO_HEALTHY_WORKER when time is left and none is healthy; GATEWAY_AT_CAPACITY when time is left, some are healthy and none of them has room |
| RoutingErrors.DeadlineOfCall | gateway/client.py:52-58 | in every reachable state the deadline of a call in flight lies exactly its timeout after the beginning of its prediction, on either attempt |
| RoutingErrors.FirstCallsGoInTurn | gateway/client.py:61 | a first call goes to the available worker at the cursor among those with the least load |
| RoutingErrors.RetriesGoInTurn | gateway/client.py:96-104 | a second call goes to the one at the cursor among the other available workers with the least load |
| RoutingErrors.RetryHappensExactly | gateway/client.py:95-104 | a second call goes out if and only if the first ended UNAVAILABLE, the budget is left, the deadline has not passed, and another healthy worker has room |
| RoutingErrors.UnavailableErrorsExactly | gateway/client.py:95-107 | which error an UNAVAILABLE reply ends with, each if and only if: attempt or budget used up, deadline passed, no other worker healthy, all other healthy workers full |
| RoutingErrors.TransportFailureReportedOtherwise | gateway/client.py:95-104 | a run in which the only worker fails its call, a retry is due, and the caller is told NO_HEALTHY_WORKER |
| RoutingErrors.ErrorsTellTheReply | gateway/client.py:109-133 | in every reachable state, what the outcome of an ended prediction says about its last remote call: the worker's refusals and answers one to one, the gateway's own errors only with no call or an UNAVAILABLE one |
| RoutingProtocol.RepliesEjectExactly | gateway/client.py:95-109 | a reply turns a healthy worker unhealthy if and only if it is UNAVAILABLE from that worker |
| RoutingProtocol.MarkedUnhealthyExactly | gateway/registry.py:63-68 | after an UNAVAILABLE reply the worker is unhealthy if and only if it was healthy or unhealthy before |
| RoutingProtocol.OutcomesAreFinal | gateway/client.py:84-114 | an ended prediction keeps its one outcome in every run |
| RoutingProtocol.ExclusionIsRedundant | gateway/client.py:96-104 | when the retry selects, the failed worker is not healthy, so selecting with and without the exclusion agree |
| RoutingProtocol.AtCapacityMeansSaturated | gateway/scheduler.py:24-39 | on either attempt GATEWAY_AT_CAPACITY is the outcome if and only if some worker is healthy and every healthy worker is at its cap |
| RoutingProtocol.HealthFollowsTrace | gateway/registry.py:90-132 | over any run a worker's health is that of the health machine on the worker's own probes and marks |
| RoutingProtocol.EjectedWorkerIsIsolated | gateway/registry.py:63-125 | between an ejection, by mark or probes, and the worker's next selection lie that many consecutive compatible probe results |
| RoutingProtocol.DrainingWorkerIsNeverSelected | gateway/registry.py:105-108 | a worker that reported DRAINING is never selected again |
| RoutingIsolation.EjectionBoundsDamage | gateway/client.py:61-112 | from an ejection until the probes have shown a recovery streak, the replies from the worker and the calls still on it add up to the calls that were on it at the ejection, at most the cap |
| RoutingIsolation.RepliesUseUpHolders | gateway/client.py:61-112 | between selections of a worker, in any run, every reply from it uses up one of the calls that were on it |
| RoutingIsolation.DrainingDefiesMarkAndProbes | gateway/registry.py:63-125 | a run in which a worker that reported DRAINING is neither marked by an UNAVAILABLE reply nor restored by any number of compatible probes |
| Gateway.GatewayClient.Try | gateway/client.py:57-61 | deadline check and selection: the specified dispatch, with the call outstanding or ended |
| Gateway.GatewayClient.HandleReply | gateway/client.py:84-112 | marks, releases and ends the prediction as specified, or asks for a retry exactly when the protocol does |
| Gateway.GatewayClient.Perform | gateway/client.py:45-114 | any action of the routing machine, done on the objects, gives the machine's next state |
| Gateway.GatewayClient.Predict | gateway/client.py:45-114 | the two-attempt loop, with anything happening meanwhile, takes the gateway exactly through the protocol's actions for the attempts made; it cannot fall through and ends with the outcome its attempts explain |
| Percentile.NearestRank | scripts/summarize_results.py:12-18 | for 0 < pct <= 1 the least sample with at least pct * n samples up to it, and fewer than pct * n below it |
| Percentile.PermutationInvariant | scripts/summarize_results.py:15-18 | the order of the samples does not matter |
| Percentile.MonotoneInShare | scripts/summarize_results.py:16-18 | a larger share never gives a smaller result |
| Percentile.ClampedShare | scripts/summarize_results.py:17 | shares up to 0 give the least sample, shares from 1 the greatest |
| Percentile.SummaryIsOrdered | scripts/summarize_results.py:44-46 | p50 <= p95 <= p99 for any latencies, all zero when there are none |
| WorkerList.GatewayConfig.PostInit | gateway/config.py:30-42 | explicitly given workers stay; otherwise the loop computes what the item reader says of the split list |
| WorkerList.ParserReadsItems | gateway/config.py:33-41 | any list of written items is read back: padding and blank items do not matter, the last entry for an id wins, a bare name is its own address |
| WorkerList.RoundTrip | gateway/config.py:30-42 | any worker map, written out in any order of its ids, parses back to itself |
| WorkerList.ParserReadsPlainItems | gateway/config.py:33-41 | the same reading for ids and addresses of printable ASCII characters, with any of the 29 white space characters around their parts |
| WorkerList.PlainRoundTrip | gateway/config.py:30-42 | any worker map of printable ASCII characters, without commas and with no equals sign in an id, parses back to itself |

## Left out

- HTTP application, middleware, request validation and responses (`gateway/app.py`): plumbing around single checks.
- gRPC transport, stubs, channels and the worker's own server and signal handling: a remote call is an environment step with a reply or a status code.
- The per-call timeout passed to the remote call: a reply or DEADLINE_EXCEEDED may come at any time.
- The ONNX model, tokenizer and softmax, and any influence of padding on neighbours in a batch: the model is assumed pointwise.
- asyncio internals: queue wake-ups, an item lost in a race of `wait_for` with its timeout, lock fairness, the thread pool.
- Pacing of probes: probes may come at any time; `last_successful_check`, which nothing reads, is not kept.
- Metrics and logging.
- Floating-point rounding of times, shares and scores: they are real numbers.
- Futures as objects shared between handler and batcher: they are entries of a table indexed by ticket, so aliasing is not captured.
- Suspended predictions as coroutines: what each remembers between suspensions is an entry of `calls`.
- `sorted`, `strip` and `split` of the language's library: recursive functions with their meaning proved, not its algorithms.
- Remaining statistics of a benchmark summary, the benchmark driver, corpus, downloads, Docker scripts and resource sampling: input and output.
- NextFitIsNearOptimal: assumes positive limits; with an item limit of zero every request is a batch of its own while a packing of empty requests need not be.
