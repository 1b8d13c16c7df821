# TurboServe, verified model

A Dafny model of TurboServe's serving stack and proofs about it. `dafny verify dfyconfig.toml`
checks everything. Each module names the source file it models; classes model the source's
mutable objects, each method tied to a function of the old state, and the laws are proved about
those functions over all runs.

- **The SLO gate.** `Sorting`, `Records`, `LaneWindow`, `CanaryGate`, `CanaryController`: sliding
  windows, interpolated percentiles and the rollout state machine. `Replay` and `ClusterRunner`
  are its two drivers. Main results: what a tick decides, in numbers (`TickExactly`); `Simulate`
  refines a reference without windows, promotion is earned step by step in every run, the gate is
  monotone in latency, the cluster mirrors the controller.
- **The request protocol.** `Selection` and `RequestPath` (router), `Limits` and `Admission`
  (tenant quotas and slots), `FaultingWorker` (replicas that are drained, killed and revived).
  Main results: one replica per client stream whenever the client leaves, each chosen rightly after a
  refresh, quarantine of condemned replicas, slots conserved in every interleaving, a request refused
  exactly when some stretch of traffic would exceed its rate (`RefusedExactly`), exact and sufficient
  `Retry-After`, no stream survives a kill.
- **The chaos timeline.** `FaultTimeline`, `OutageSweep`, `OutageCriterion`, `ImpairedWindows`.
  Main results: the sweep is correct, and a repeating kill causes a total outage exactly when a
  condition on its parameters says so.
- **The projection.** `Projection` (greedy closed loop with its makespan bound and the calibration
  of draws) and `Batching`.
- **The engine.** `Speculation` (rejection sampling is exact), `KvBlocks`, `Retention`, `KvSharing`,
  `KvEngine`, `PoolLog`, `KvManager`, `EngineEffects` (reference-counted paged KV memory with a prefix
  cache, drafts and rollbacks included), `Drafting` and `Verdicts` (the drafts of a step and what
  becomes of them), `SchedulerState`, `Stalls`, `Preemption`, `Sampling` and `BatchScheduler`
  (continuous batching), `StallRuns`, `SampledRuns`, `Liveness`, `FairQueue`, `AdmissionOrder` and
  `Turns` (weighted fair admission). Main results: a whole speculative step, over all drafts and all
  draws, has the target's own law; in every run, drafts and rollbacks included, the block manager
  raises nothing, hands out the block idle longest, uncached ones first, and each sequence writes only
  blocks nobody else reads; each sequence reads only KV of its own prefix and adapter exactly if no
  verdict credits draft tokens at positions where the text has others; the admission tests are exact;
  `schedule()` never raises, schedules nobody exactly when it is stuck, and preempts nobody before
  whoever has a lower priority or the same and is newer; and nobody starves while everybody fits,
  whatever arrives, under either admission policy.

Times, levels, latencies and probabilities are `real`. Clocks, random draws, health probes, metric
fetches, backend streams and the moment a client leaves are inputs, so every claim is for all of
them.

Nine places where the code and its documentation, or an expected law, part ways:

- `start` clears both lane windows although `observe` speaks of a stable window that is already warm
  (src/turboserve/canary/controller.py:540, 589); the model follows the code.
- A kill with a restart delay of 0 sorts its restart before its own kill, so the victim stays down
  until the next round. `ExactOutageCriterion` covers this case.
- The outage sweep counts down workers without asking whether they are in the fleet. Its report is
  wrong at exactly those times when somebody is up and at least as many strangers are down as workers
  are up (`ReportWrongExactly`); expanding a schedule never names a stranger.
- The wait queue calls itself self-clocked, but its clock is a finish time while it admits by start
  time, so it can go back (`ClockCanGoBack`, `TenthWeightSetsBack`). It does exactly if the tenant
  admitted was backlogged throughout and its virtual time was behind the previous tenant's by less
  than its cost is below that one's (`ClockGoesBackExactly`). A newcomer can wait many turns;
  `WaitBounded` says how many, `NewcomerWaitsTwoTurns` when it is at most two.
- Admission promises that nothing accepted stalls forever
  (src/turboserve/engine/core/scheduler.py:508-512), but it looks at the prompt only. A sequence whose
  sampled tokens outgrow the pool preempts everybody, then itself, and blocks the head of the queue
  for good (`GrownPastThePool`). So does one that, where prompts may not be split, is preempted with
  more tokens left to compute than a step takes, although it fits the pool (`GrownPastTheStep`).
  `ScheduleStep` says for every state whether a step schedules nobody (`Stuck`);
  `FittingNeverStuck` and `NobodyStarves` say what holds while everybody fits both.
- Funding a draft subtracts the blocks of the step's earlier drafts, which by then are gone from the
  allocatable ones, so they count twice (`EarlierDraftsCountTwice`). A draft is cut below what fits
  exactly if its missing blocks exceed what was allocatable at first less twice what the earlier drafts
  took (`SecondDraftCut` is a case), and never granted too much.
- Speculation takes every decoding sequence to have exactly one uncomputed token
  (src/turboserve/engine/spec/spec_engine.py:20-22) and does not check it. A preempted sequence keeps its
  sampled tokens and, resumed, can be past its prompt with more to compute. If its chunk is not one token,
  verification raises (`VerificationRaises`). If it is, but leaves tokens over, the draft's KV goes to
  their positions, while the draft itself is scored behind the computed prefix and appended behind the
  whole text. Once accepted, attention reads that KV as the text's, and the next publication shares it
  with newcomers (`AcceptedInTheWay`). This happens exactly if credited draft tokens differ from the
  text's at those positions (`ResolveKeeps`, `ReadsAreOwn`), and never while each decoding sequence has
  one uncomputed token (`OneEachReadsOwn`).
- An item that does not stop inside its prompt samples a token
  (src/turboserve/engine/core/scheduler.py:152-159), also when a resumed sequence's chunk stops past the
  prompt but before the last token, so that a token predicted in the middle is appended at the end
  (`SampledInTheMiddle`). `MidTextExactly` and `ChunkSamplesAtEnd` say exactly when; `SamplesInOrder` says
  that a request not preempted since it started always samples from the end.
- `TokenBucket.retry_after` is finite for an amount above the capacity, where waiting never helps;
  `RetryAfterExact` has both cases.

## Model

| member | source | states |
|---|---|---|
| `Records.Percentile` | src/turboserve/bench/records.py:97-122 | a q outside [0, 100] is an error, and there is no percentile if and only if there are no samples |
| `Records.PercentileBetweenRanks` | src/turboserve/bench/records.py:97-122 | the percentile lies between the two sorted samples its fractional rank falls between; q = 0 and q = 100 are the extremes |
| `Records.PercentileIgnoresOrder` | src/turboserve/bench/records.py:97-122 | two samples with the same multiset have the same percentile |
| `Records.PercentileMonotone` | src/turboserve/bench/records.py:97-122 | raising any of the samples, pointwise before sorting, never lowers a percentile |
| `Records.PercentileAffine` | src/turboserve/bench/records.py:97-122 | percentiles commute with every increasing affine map |
| `Records.PercentileOnLine` | src/turboserve/bench/records.py:97-122 | the q-th percentile of n samples is the point at q/100 * (n - 1) on the line through the sorted samples, drawn segment by segment |
| `LaneWindows.ErrorRate` | src/turboserve/canary/controller.py:158-165 | the error rate times the requests is the errors, a fraction in [0, 1]; an empty window has rate 0 |
| `LaneWindows.LaneWindow.constructor` | src/turboserve/canary/controller.py:184-194 | a new window is empty and has seen no time |
| `LaneWindows.LaneWindow.PruneTo` | src/turboserve/canary/controller.py:222-233 | the head-popping loop leaves exactly what head expiry at the latest time seen leaves |
| `LaneWindows.LaneWindow.Record` | src/turboserve/canary/controller.py:207-220 | observing prunes, drops a sample already too old, and keeps the last `max_samples` |
| `LaneWindows.LaneWindow.Clear` | src/turboserve/canary/controller.py:235-238 | clearing forgets samples and time |
| `LaneWindows.LaneWindow.Report` | src/turboserve/canary/controller.py:240-258 | a summary prunes, then aggregates what is left, which `SummaryMeans` puts in terms of the samples |
| `LaneWindows.SummaryMeans` | src/turboserve/canary/controller.py:240-258 | a summary counts the window's samples and its failed ones, and its p95 TTFT and end-to-end latency are the 95th percentiles of the latencies its successful samples have, none other entering |
| `LaneWindows.HeadExpiryExactIff` | src/turboserve/canary/controller.py:222-233 | popping stale samples off the head equals true expiry at one cutoff if and only if no sample stale by then sits behind a fresh one |
| `LaneWindows.AlwaysExactIff` | src/turboserve/canary/controller.py:222-233 | it does so at every cutoff if and only if the samples are in time order |
| `LaneWindows.CapThenExpire` | src/turboserve/canary/controller.py:184-233 | on a chronological stream the ring-buffer cap and expiry commute |
| `LaneWindows.WindowRefinesRecomputation` | src/turboserve/canary/controller.py:174-258 | for every interleaving of observations and reads with nondecreasing times the window equals a recomputation over everything ever observed |
| `LaneWindows.LateSampleLingers` | src/turboserve/canary/controller.py:222-233 | out of order this fails: a concrete late sample that the recomputation has dropped stays in the window |
| `CanaryGate.RunConsistent` | src/turboserve/canary/controller.py:520-754 | in every run with arbitrary clock values and summaries, history, state, step, weight and step start stay consistent |
| `CanaryGate.PromotionIsEarned` | src/turboserve/canary/controller.py:597-693 | PROMOTED implies one passing tick per configured step, in order, so promotion comes at least a full hold per step after the start |
| `CanaryGate.HistoryReplaysRollout` | src/turboserve/canary/controller.py:734-754 | folding the decision kinds reproduces state and step; weights follow `steps` without skipping; only the last decision is terminal |
| `CanaryGate.GateMonotoneInLatency` | src/turboserve/canary/controller.py:697-732 | slowing any successful canary samples never turns a rollback into another decision |
| `CanaryGate.BreachExactly` | src/turboserve/canary/controller.py:697-732 | there is a reason against the canary if and only if its errors exceed max_error_rate * requests, or its p95 TTFT is above the limit, or, with min_requests stable requests and a positive stable p95, its p95 TTFT or end-to-end latency is above max_ratio times stable's; the reason given is the first of these, in this order |
| `CanaryGate.TickExactly` | src/turboserve/canary/controller.py:597-693 | with min_requests canary requests a tick rolls back if and only if there is such a reason, and otherwise moves on if and only if the step has been held for hold_s, to promotion from the last step; with fewer it rolls back if and only if the step has lasted stall_s; one decision records time, reason and both summaries |
| `CanaryGate.AllFailuresRollBack` | src/turboserve/canary/controller.py:597-705 | a big enough window of failures is rolled back by the next tick, with weight 0 and the error-rate reason |
| `CanaryControllers.FailingCanaryRollsBack` | src/turboserve/canary/controller.py:579-705 | if everything observed in the window failed and is at least `min_requests`, the next tick rolls back, whatever the stable lane did |
| `CanaryControllers.CanaryController.constructor` | src/turboserve/canary/controller.py:406-427 | a new controller is idle with empty windows |
| `CanaryControllers.CanaryController.CanaryWeight` | src/turboserve/canary/controller.py:446-460 | the weight in force is the one of the rollout's state and step |
| `CanaryControllers.CanaryController.Begin` | src/turboserve/canary/controller.py:520-552 | starting is refused while running or without a version and then changes nothing; otherwise the rollout starts and both windows are cleared |
| `CanaryControllers.CanaryController.Cancel` | src/turboserve/canary/controller.py:554-561 | aborting is refused unless running; otherwise it ends the rollout and touches no window |
| `CanaryControllers.CanaryController.Reset` | src/turboserve/canary/controller.py:563-575 | resetting gives the state of a new controller |
| `CanaryControllers.CanaryController.ObserveRequest` | src/turboserve/canary/controller.py:579-595 | an observation reaches its own lane's window only, in every state |
| `CanaryControllers.CanaryController.RecordDecision` | src/turboserve/canary/controller.py:734-754 | one decision is appended, describing the position after it was applied |
| `CanaryControllers.CanaryController.Judge` | src/turboserve/canary/controller.py:617-693 | the gates move the rollout as `TickExactly` says of these two summaries, and append exactly one decision |
| `CanaryControllers.CanaryController.Evaluate` | src/turboserve/canary/controller.py:597-693 | a tick judges each lane on its override or else its freshly pruned window, as `TickExactly` says; outside a rollout it holds and leaves no trace |
| `Replays.Simulate` | src/turboserve/canary/k8s.py:754-794 | replaying any events gives, tick by tick, the decisions of a reference that recomputes each summary from the whole log over the last `max_samples` events with T - window <= t < T |
| `Replays.TicksOnTheGrid` | src/turboserve/canary/k8s.py:776-789 | while the reference runs, its k-th decision after the start is taken k intervals after the first event, on summaries recomputed then |
| `Replays.Drive` | src/turboserve/canary/k8s.py:776-789 | feeding a started rollout the sorted log ends in the reference's state, with its history as the report's decisions |
| `Replays.TickThrough` | src/turboserve/canary/k8s.py:778-781 | the catch-up ticks keep the windows in step with the events observed so far |
| `Replays.OneTickAfterTheLastEvent` | src/turboserve/canary/k8s.py:787-789 | of the scheduled ticks exactly the last one comes after the last event |
| `Replays.TickSynced` | src/turboserve/canary/k8s.py:778-789 | one replay tick decides as the windowless reference does |
| `ClusterRunners.RunRollout` | src/turboserve/canary/k8s.py:591-655 | the loop over the polls reports exactly the decisions, calls, weight and outcome of its specification; a refused start changes nothing |
| `ClusterRunners.IterateLoop` | src/turboserve/canary/k8s.py:605-647 | one pass: deadline first, then the metric source with its failure count, then the gates |
| `ClusterRunners.ApplyDecision` | src/turboserve/canary/k8s.py:657-669 | each decision becomes the matching driver call and outcome |
| `ClusterRunners.ClusterMirrorsController` | src/turboserve/canary/k8s.py:591-669 | after every poll of every run the report's decisions are the controller's history, the driver was sent exactly the calls it stands for, and the outcome names the state |
| `ClusterRunners.OneTerminalCall` | src/turboserve/canary/k8s.py:591-669 | while running only weights were sent, the last one the weight in force; once ended exactly one terminal call was made, last: promote if and only if promoted |
| `ClusterRunners.FailuresCountOutage` | src/turboserve/canary/k8s.py:618-641 | while a run is alive its failure count is the number of consecutive failed fetches, below the limit |
| `ClusterRunners.MetricOutageAbortsExactly` | src/turboserve/canary/k8s.py:618-641 | a failed fetch before the deadline aborts if and only if it makes the outage reach the configured count |
| `ClusterRunners.PollExactly` | src/turboserve/canary/k8s.py:605-655 | a poll of a run still going times out if and only if the deadline has passed, whatever the source says; a failed fetch adds no decision unless it is one too many; otherwise one decision is added, which judges each lane on the source's word for that lane or on that lane's own window |
| `ClusterRunners.WindowsAsFed` | src/turboserve/canary/k8s.py:591-655 | over a whole run each lane's window is what that lane's own arrivals, in order, and the looks at it make of an empty one |
| `ClusterRunners.DeadlineEndsRun` | src/turboserve/canary/k8s.py:605-616 | with a clock that advances by the poll interval the run ends within deadline / poll polls, rounded up |
| `Selection.Candidates` | src/turboserve/gateway/router.py:275-283 | exactly the replicas of the lane that are healthy and untried, each once, in pool order |
| `Selection.WeightedChoice` | src/turboserve/gateway/router.py:472-483 | the draw picks the candidate whose stretch of the total weight it falls in; the fallback after the loop is never reached |
| `Selection.WeightedChoiceUnique` | src/turboserve/gateway/router.py:472-483 | each point of the total weight belongs to one candidate |
| `Selection.Select` | src/turboserve/gateway/router.py:485-521 | selection fails if and only if no replica of either lane is healthy and untried; otherwise the lane is the one forced, or the canary if and only if 100 * draw is below its weight, unless that lane has nobody usable, and the replica is the one whose stretch of the lane's weight the second draw falls in |
| `Selection.FractionInNumbers` | src/turboserve/gateway/router.py:421-444 | for every weight and draw the canary lane is asked for if and only if 100 * draw is below the weight |
| `Selection.WeightTakesEffectAtOnce` | src/turboserve/gateway/router.py:421-444 | after a rollback no draw picks the canary while a usable stable replica exists, and symmetrically after a promotion |
| `Selection.QuarantineHolds` | src/turboserve/gateway/router.py:446-470 | a replica condemned at c stays as it is, and out of every candidate list, through any refreshes before c + ttl, whatever probes would say, interrupted refreshes included |
| `RequestPath.Router.constructor` | src/turboserve/gateway/router.py:331-354 | a router holds its pool as given |
| `RequestPath.Router.SelectReplica` | src/turboserve/gateway/router.py:485-521 | first every entry is refreshed: the verdict others left stands if it is younger than the ttl, and otherwise becomes the probe's, as of now; then nobody is chosen if and only if no untried replica is healthy by that rule, and the one chosen is the one lane and draws point at |
| `RequestPath.Router.Pump` | src/turboserve/gateway/router.py:609-618 | what is passed on is a prefix of the backend's stream: all of it, or up to the event the client leaves with; errors carried in events are noticed |
| `RequestPath.Router.TryOnce` | src/turboserve/gateway/router.py:601-683 | an attempt ends in its selection or its wait if and only if the client leaves there, and finds nobody if and only if no untried replica is healthy after the refresh; otherwise its stream decides, and of the refreshed pool only the replica served changes: one request more, out if its stream failed in transport before the client left, and cleared of failures if it succeeded |
| `RequestPath.Router.Serve` | src/turboserve/gateway/router.py:604-683 | only a retryable failure before the first event is retried; the client gets a prefix of the stream plus at most one failure event; no other replica's entry changes |
| `RequestPath.Router.Attempts` | src/turboserve/gateway/router.py:601-687 | the retry loop keeps one replica per client stream, chooses each rightly, reports every attempt, gives up if and only if a selection finds nobody, and leaves the pool as its last selection found it but for the replica served |
| `RequestPath.Router.Generate` | src/turboserve/gateway/router.py:571-687 | for every pool, failure pattern, probe, draw and client, one that leaves during a selection, while waiting for a first event, or with any later event: events come from one attempt, earlier attempts sent nothing, replicas are distinct, rightly chosen and at most min(max_attempts, pool size); NoHealthyBackend is raised if and only if one more attempt is due whose selection finds no untried replica healthy after its refresh; nothing is raised after the first event; each finished attempt is observed once on its lane with at most one success and that the last, an attempt the client left sends no observation and has no successor; and the slot is back |
| `RequestPath.AttemptsBounded` | src/turboserve/gateway/router.py:601-607 | attempts on distinct replicas never outnumber the pool |
| `Admission.SlotsConserved` | src/turboserve/gateway/limits.py:306-338 | in every interleaving of any number of requests each tenant's `in_flight` equals its requests inside the gate and stays within its limit; `queue_depth` is the sum |
| `Admission.AdmissionExactly` | src/turboserve/gateway/limits.py:306-338 | after any interleaving a request that enters is turned away if and only if its tenant is in the directory with a limit and that many of its requests are inside, is ungated if and only if its tenant is unknown, and changes no other request; whoever leaves is gone |
| `Admission.StepConserved` | src/turboserve/gateway/router.py:587-601 | every single step of any request keeps these counts |
| `Admission.GiveBackConserved` | src/turboserve/gateway/limits.py:314-338 | whatever way a request leaves, it gives back exactly one slot, and there is one to give |
| `Admission.AllGoneAllFree` | src/turboserve/gateway/router.py:719-727 | once every request has left, every slot is free and the depth is 0 |
| `Limits.RetryAfterHeader` | src/turboserve/gateway/limits.py:90-96 | the header is the wait in whole seconds rounded up, at least 1 |
| `Limits.TokenBucket.constructor` | src/turboserve/gateway/limits.py:113-129 | a bucket starts at its capacity unless told otherwise |
| `Limits.TokenBucket.RefillTo` | src/turboserve/gateway/limits.py:145-149 | refilling adds rate times elapsed, capped; a stamp in the past changes nothing |
| `Limits.TokenBucket.TryAcquire` | src/turboserve/gateway/limits.py:156-164 | passes if and only if the refilled level covers the amount; a refusal debits nothing |
| `Limits.TokenBucket.Debit` | src/turboserve/gateway/limits.py:166-172 | charges unconditionally and may overdraw |
| `Limits.TokenBucket.Refund` | src/turboserve/gateway/limits.py:174-180 | gives back up to the capacity |
| `Limits.TokenBucket.Wait` | src/turboserve/gateway/limits.py:182-187 | the wait is the deficit over the rate, 0 if there is none |
| `Limits.TenantLimiter.constructor` | src/turboserve/gateway/limits.py:246-251 | each quota gets a bucket whose burst is a whole minute's budget |
| `Limits.TenantLimiter.CheckRequest` | src/turboserve/gateway/limits.py:263-293 | admits or refuses, request quota first, debiting only when both pass |
| `Limits.TenantLimiter.ChargeTokens` | src/turboserve/gateway/limits.py:295-304 | completions are charged unconditionally; none or negative counts are ignored |
| `Limits.TenantLimiter.TryAcquireSlot` | src/turboserve/gateway/limits.py:306-312 | a slot is granted if and only if one is free |
| `Limits.TenantLimiter.ReleaseSlot` | src/turboserve/gateway/limits.py:314-318 | the count goes down by one, never below 0 |
| `Limits.SlotRoundTrip` | src/turboserve/gateway/limits.py:306-318 | giving back a slot just taken restores the count, which never passed the limit |
| `Limits.RefillTwice` | src/turboserve/gateway/limits.py:145-149 | looking earlier does not change what a bucket holds later |
| `Limits.RetryAfterExact` | src/turboserve/gateway/limits.py:182-187 | a refusing bucket passes at a later time if and only if the stated wait is over, for amounts within the capacity; above it, never |
| `Limits.HeaderSuffices` | src/turboserve/gateway/limits.py:90-96 | the rounded header is long enough (section 10.2.3 of RFC 9110) |
| `Limits.RequestRateConforms` | src/turboserve/gateway/limits.py:263-304 | over any stretch of any run, admissions are at most rpm + rpm/60 times its duration |
| `Limits.TokenRateConforms` | src/turboserve/gateway/limits.py:263-304 | at each admission with a prompt, all tokens ever charged, overdrawing completions included, are at most tpm + tpm/60 times elapsed |
| `Limits.RefusedExactly` | src/turboserve/gateway/limits.py:263-293 | after any traffic a request is refused if and only if it would make the admissions of some stretch up to now exceed rpm + rpm/60 * d, or, with a prompt, the tokens charged in some stretch or in itself exceed tpm + tpm/60 * d; so traffic within both is always admitted; the refusal names rpm first |
| `Limits.CountedExactly` | src/turboserve/gateway/limits.py:263-304 | each request is counted as admitted or rejected, and with a token quota the tokens of admitted prompts and of completions, no others |
| `Limits.RefusalDebitsNothing` | src/turboserve/gateway/limits.py:263-293 | after a refusal both buckets hold what they would have held at every later time |
| `Limits.AdmittedByTheThirdTry` | src/turboserve/gateway/limits.py:263-293 | waiting out each refusal, a fitting request is refused at most twice: by rpm, then by tpm |
| `Limits.OversizedPromptNeverAdmitted` | src/turboserve/gateway/limits.py:263-293 | a prompt above tpm is refused at every time |
| `FaultingWorkers.FaultingBackend.constructor` | src/turboserve/chaos/worker.py:164-180 | a new replica is alive, not draining, with zero counters |
| `FaultingWorkers.FaultingBackend.Drain` | src/turboserve/chaos/worker.py:197-204 | draining changes nothing else |
| `FaultingWorkers.FaultingBackend.Kill` | src/turboserve/chaos/worker.py:206-215 | a kill also drains and advances the generation |
| `FaultingWorkers.FaultingBackend.Revive` | src/turboserve/chaos/worker.py:217-220 | revival restores service but not the generation |
| `FaultingWorkers.FaultingBackend.Open` | src/turboserve/chaos/worker.py:222-242 | a call is refused or admitted at the current generation and counted as such |
| `FaultingWorkers.FaultingBackend.Inject` | src/turboserve/chaos/worker.py:247-251 | an injected fault before the first token is counted as such and changes nothing else |
| `FaultingWorkers.FaultingBackend.Forward` | src/turboserve/chaos/worker.py:253-260 | an event is passed on if and only if no kill intervened and the replica is alive |
| `FaultingWorkers.NoEmissionAfterKill` | src/turboserve/chaos/worker.py:197-264 | in every interleaving a stream emits nothing after a kill that followed its start, even if the replica was revived |
| `FaultingWorkers.OnlyKillsAbort` | src/turboserve/chaos/worker.py:197-264 | an aborted stream was started before a kill; a drain, partition or revival alone never cuts one |
| `FaultingWorkers.RefusedExactly` | src/turboserve/chaos/worker.py:222-242 | after any interleaving a call is refused if and only if the replica was drained or killed and not revived since, or its last partition has not ended; otherwise a stream starts |
| `FaultingWorkers.CallsAccountedFor` | src/turboserve/chaos/worker.py:222-242 | admitted plus refused is calls begun, and the counters match the log |
| `FaultTimeline.OrdersAreTotal` | src/turboserve/chaos/faults.py:108-116 | the timeline orders are total preorders, so sorting by them is well defined |
| `FaultTimeline.TriggersBeforeEnd` | src/turboserve/chaos/faults.py:506-541 | exactly the occurrences that trigger before the end are generated |
| `FaultTimeline.KillEvents` | src/turboserve/chaos/faults.py:506-541 | the loop gives the drain/kill/restart events of exactly those occurrences |
| `FaultTimeline.FaultEventsExactly` | src/turboserve/chaos/faults.py:506-570 | a kill gives exactly the drains, kills and restarts of its occurrences first + k * every before the end, on the fixed or the round-robin target; a partition gives one start at `at` and one end `for` later, on the fixed or drawn target, and nothing if the run is over by then |
| `FaultTimeline.TimelineExactly` | src/turboserve/chaos/faults.py:489-503 | an event is in the timeline if and only if one of the faults gives it |
| `FaultTimeline.Collect` | src/turboserve/chaos/faults.py:489-501 | fails if and only if some fault targets an unknown worker, naming the first such target; otherwise gathers every fault's events |
| `FaultTimeline.Expand` | src/turboserve/chaos/faults.py:466-503 | the right error for a bad duration, no workers or an unknown target; otherwise the schedule's events, sorted by time, action, target, none lost |
| `OutageSweep.OutageWindows` | src/turboserve/chaos/faults.py:592-626 | before the end a time is in a reported window if and only if the number of workers last told to go down is the fleet's size; for events of known workers that is every worker being down; windows are ordered and disjoint and only one starting at the end can be empty |
| `OutageSweep.FullMeansAllDown` | src/turboserve/chaos/faults.py:608-620 | the sweep's count is full if and only if at least as many strangers to the fleet are down as workers are up; so it tells whether every worker is down, except if and only if somebody is up and at least as many strangers are down as workers up |
| `OutageSweep.ReportWrongExactly` | src/turboserve/chaos/faults.py:592-626 | at a time before the end the report is wrong if and only if somebody is up then and at least as many strangers are down as workers up |
| `OutageSweep.StrangersLookLikeOutage` | src/turboserve/chaos/faults.py:592-626 | for every fleet, killing as many strangers as it has workers looks like its total outage although every worker is up |
| `OutageSweep.ReportOfKnown` | src/turboserve/chaos/faults.py:489-501 | a report over a timeline of known workers is one of total outages |
| `OutageSweep.SweepSteps` | src/turboserve/chaos/faults.py:612-623 | one event keeps the sweep's invariant in each of its branches |
| `OutageCriterion.ExactOutageCriterion` | src/turboserve/chaos/faults.py:466-626 | one untargeted kill fault over n distinct workers reports no outage if and only if fewer than n occurrences fall in the run, or the restart delay is positive and grace + delay <= (n - 1) * every |
| `OutageCriterion.NeverAllDown` | src/turboserve/chaos/faults.py:108-116 | under that bound somebody is always up, the tie included because recoveries sort first |
| `OutageCriterion.StaysDown` | src/turboserve/chaos/faults.py:506-541 | without it everybody is down at the start of the n-th occurrence; with a zero delay because the restart sorts before its own kill |
| `OutageCriterion.TooFewOccurrences` | src/turboserve/chaos/faults.py:506-541 | fewer occurrences than workers leave somebody untouched |
| `OutageCriterion.CriterionInSeconds` | src/turboserve/chaos/faults.py:506-541 | the accumulated bound is (n - 1) * every |
| `OutageCriterion.PlanHasOutage` | src/turboserve/chaos/faults.py:466-626 | expanding and sweeping reports an outage exactly as the criterion on the parameters says |
| `ImpairedWindows.MergeWindows` | src/turboserve/chaos/harness.py:799-808 | the merged windows cover the same half-open times and are sorted, positive and strictly separated |
| `ImpairedWindows.CanonicalUnique` | src/turboserve/chaos/harness.py:799-808 | that form is unique, so merging does not depend on the order of the windows |
| `ImpairedWindows.CountedOnce` | src/turboserve/chaos/harness.py:799-808 | no instant is counted twice |
| `ImpairedWindows.SplitByWindows` | src/turboserve/chaos/harness.py:811-836 | records sent inside the windows and the others, each in order |
| `ImpairedWindows.SentExactly` | src/turboserve/chaos/harness.py:811-836 | inside are exactly the records sent, counted from the origin in nanoseconds, within a window, outside the others, each side in the order of the records |
| `ImpairedWindows.SplitPartitions` | src/turboserve/chaos/harness.py:811-836 | every record is on exactly one side |
| `ImpairedWindows.SplitSameTimes` | src/turboserve/chaos/harness.py:811-836 | splitting by the merged windows is splitting by the unmerged ones |
| `ImpairedWindows.AttributeRecoveries` | src/turboserve/chaos/harness.py:770-796 | each restored disruption gets the earliest successful completion by its own replica between restoration and the end, or is left as it was |
| `Projection.EarliestSlot` | scripts/project_h100_results.py:449-449 | the first of the slots that free up earliest |
| `Projection.ScheduleClosedLoop` | scripts/project_h100_results.py:438-468 | sends are in order, a slot serves one request at a time, and with W total slot time, m slots and D the longest request W/m <= last finish <= W/m + (1 - 1/m) * D |
| `Projection.SlotTimeExactly` | scripts/project_h100_results.py:450-453 | a request keeps its slot for its time to first token in whole nanoseconds and its gaps, each in whole nanoseconds and at least one |
| `Projection.LoopStep` | scripts/project_h100_results.py:448-454 | giving the earliest slot the next request keeps the greedy bound |
| `Projection.AtMostOnePerSlot` | scripts/project_h100_results.py:438-468 | at most m requests overlap at any time |
| `Projection.CalibrationExact` | scripts/project_h100_results.py:355-370 | four or more draws with p95 above the median are rescaled, ranks kept, to median 0 and p95 exactly Z95; otherwise they come back as they were |
| `Batching.BatchRecords` | scripts/project_h100_results.py:471-512 | every request is sent once and completed once, both in order, and sent the moment there is a slot: the first `concurrency` at once, any other when the one `concurrency` places before it completes; batches follow without a pause, as full as the queue allows, each charged for its longest member; the loop ends |
| `Batching.SendWhileFree` | scripts/project_h100_results.py:496-500 | requests are sent in order while slots are free, each the moment there is a slot for it |
| `Batching.CompleteBatch` | scripts/project_h100_results.py:506-508 | a batch completes together and frees its slots |
| `Batching.PaddedExactly` | scripts/project_h100_results.py:504-505 | a batch costs its number of members times the tokens of the longest |
| `Batching.BatchTimeExactly` | scripts/project_h100_results.py:504-505 | at the configured rate that is what it yields in its time |
| `Batching.AtMostConcurrency` | scripts/project_h100_results.py:471-512 | never more than `concurrency` requests are outstanding |
| `Speculation.KeepIsInterval` | src/turboserve/engine/spec/verifier.py:246-263 | the test u * q < p accepts exactly the draws below min(1, p/q), zero masses included |
| `Speculation.KeptMass` | src/turboserve/engine/spec/verifier.py:246-263 | drafting a token and keeping it has probability min(p, q) |
| `Speculation.KeptIsBox` | src/turboserve/engine/spec/verifier.py:246-263 | for every draft the draws with which the verifier keeps exactly m tokens are a box: below the acceptance probability for the first m, not below it for the next, anything after |
| `Speculation.ReplacedMass` | src/turboserve/engine/spec/verifier.py:273-286 | replacements make up exactly max(0, p - q) |
| `Speculation.RejectionSamplingExact` | src/turboserve/engine/spec/verifier.py:200-286 | for any target and draft distribution the emitted token is distributed as the target |
| `Speculation.PointMassShortcuts` | src/turboserve/engine/spec/verifier.py:246-275 | the shortcuts for a drafter without probabilities are the general rule for a point mass |
| `Speculation.LastWeightsExact` | src/turboserve/engine/spec/verifier.py:265-286 | what the last token is drawn from gives each token the target's probability after a full acceptance, and after a rejection, weighed with the probability of the rejection, exactly max(0, p - q) |
| `Speculation.SpeculationPreservesLaw` | src/turboserve/engine/spec/verifier.py:200-286 | for every target, drafter, draft length and history: summed over all drafts and all numbers of tokens the verifier may keep of them, with the weights it then draws from, a step continues the history with the target's own distribution |
| `Speculation.VerifyRejectionSampling` | src/turboserve/engine/spec/verifier.py:200-286 | keeps the drafts before the first failing test and draws the last token from weights that, after a rejection by a distribution q, weighed with the probability of the rejection make up exactly max(0, p - q), and after a full acceptance are the target's last row; whatever the draws, no token is emitted that the target gives probability 0 |
| `Speculation.VerifyGreedy` | src/turboserve/engine/spec/verifier.py:169-197 | what is emitted is the target's own greedy continuation, and stops short only where the draft departs from it |
| `KvBlocks.FreshValid` | src/turboserve/engine/core/kv_cache.py:116-132 | a new pool has every block on the free list once |
| `KvBlocks.TakeValid` | src/turboserve/engine/core/kv_cache.py:194-209 | allocation fails if and only if nothing is free or retained; the block handed out had no owner and is not cached; the invariant is kept |
| `KvBlocks.EvictValid` | src/turboserve/engine/core/prefix_cache.py:340-360 | an eviction keeps both indexes inverse and the three states exclusive, and indexes nothing new; which block it takes is `LongestIdleFirst` |
| `KvBlocks.ShareValid` | src/turboserve/engine/core/kv_cache.py:229-260 | a cached block can always be adopted or shared; only a retained one uses up an allocatable block |
| `KvBlocks.DropValid` | src/turboserve/engine/core/kv_cache.py:267-285 | a block some table still lists can be given back: no double free; a cached one is retained, another freed |
| `KvBlocks.InsertValid` | src/turboserve/engine/core/prefix_cache.py:289-314 | indexing a block keeps the invariant and leaves its prefix cached |
| `KvBlocks.PoolConserved` | src/turboserve/engine/core/kv_cache.py:316-336 | free, retained and in-use blocks add up to the pool |
| `Retention.LongestIdleFirst` | src/turboserve/engine/core/kv_cache.py:194-209 | a log of takes, shares, drops and inserts is one of a run if and only if each entry is allowed by the log before it; so after every run an allocation hands out the block whose last release is earliest among the uncached idle ones or, only if there is none, among the cached idle ones |
| `Retention.CacheAsLogged` | src/turboserve/engine/core/prefix_cache.py:340-360 | after every run an allocation forgets the key of the block it hands out, if it had one, and no other |
| `PoolLog.AdmitLogged` | src/turboserve/engine/core/block_manager.py:171-209 | admission shares the cached leading blocks, front first, and asks the allocator for nothing else |
| `PoolLog.ExtendLogged` | src/turboserve/engine/core/block_manager.py:222-246 | new tokens take the missing blocks one by one, which join the table in that order |
| `PoolLog.PublishLogged` | src/turboserve/engine/core/block_manager.py:272-297 | publishing offers each block completed since the last time, and no other, once, front first, under its own prefix |
| `PoolLog.ReleaseLogged` | src/turboserve/engine/core/block_manager.py:301-334 | a release asks exactly for this, in this order: with a cache, the blocks completed since the last time are offered; then every block of the table is given back once, front first |
| `PoolLog.RunLogged` | src/turboserve/engine/core/block_manager.py:171-334 | the pool of every engine state is what such a log makes of a new one, so its blocks were handed out as `LongestIdleFirst` says |
| `KvSharing.BlockArithmetic` | src/turboserve/engine/core/block_manager.py:243-268 | the block arithmetic used throughout is the quotient, remainder and product of the code |
| `KvSharing.Hits` | src/turboserve/engine/core/prefix_cache.py:238-274 | the longest unbroken run of cached leading blocks, stopping at the first miss |
| `KvSharing.HitCap` | src/turboserve/engine/core/block_manager.py:141-149 | hits always leave a token to compute, and the cap is the largest that does |
| `KvSharing.AdmitKeeps` | src/turboserve/engine/core/block_manager.py:171-209 | admission adopts exactly those hits, counts them as computed with their KV in place, disturbs no other sequence, and uses up exactly the retained ones |
| `KvSharing.GrowKeeps` | src/turboserve/engine/core/block_manager.py:222-246 | growth takes only blocks nobody reads, and stops short if and only if the missing blocks outnumber the allocatable ones |
| `KvSharing.ExtendKeeps` | src/turboserve/engine/core/block_manager.py:214-246 | `append_slots` disturbs nobody, and advances the sequence if and only if `can_append` found room |
| `KvSharing.WriteKeeps` | src/turboserve/engine/core/block_manager.py:248-268 | the forward pass's writes change no cell another sequence or the cache relies on |
| `KvSharing.PublishKeeps` | src/turboserve/engine/core/block_manager.py:272-297 | publishing written blocks never meets a conflicting hash and caches them under their own prefix |
| `KvSharing.DropAllKeeps` | src/turboserve/engine/core/block_manager.py:301-312 | releasing a table gives back each reference once |
| `KvSharing.CachedUnderOwnKey` | src/turboserve/engine/core/prefix_cache.py:289-314 | a full block of a sequence is cached, if at all, under that sequence's own prefix |
| `KvSharing.DraftKeeps` | src/turboserve/engine/spec/spec_engine.py:402-425 | appending a funded draft, however much of the text is still uncomputed, takes the blocks it needs, disturbs no other sequence and feeds the model the computed prefix and then the draft, which stands at the end of the text |
| `KvSharing.ResolveKeeps` | src/turboserve/engine/spec/spec_engine.py:539-592 | rolling a draft back to any accepted prefix and crediting what was fed keeps the invariant, every written position reading its own prefix, if and only if the credited tokens are those of the text at the positions they are credited for |
| `KvSharing.ResolvedText` | src/turboserve/engine/spec/spec_engine.py:539-592 | whatever blocks a draft took and however far it was written, what a verdict leaves of it in the text is the first `fed` of the accepted tokens and the bonus token |
| `KvSharing.CreditedElsewhere` | src/turboserve/engine/spec/spec_engine.py:539-592 | if they are not, the last position credited reads KV that is not its own |
| `KvSharing.InPlaceCredits` | src/turboserve/engine/spec/spec_engine.py:539-592 | they are, whatever the verdict, when the draft extended a text with nothing left to compute |
| `KvSharing.RejectedDraftLeavesDecode` | src/turboserve/engine/spec/spec_engine.py:402-592 | a draft rejected at once leaves what a plain step of the bonus token leaves, but for blocks at the end of the table, however much of the text was uncomputed |
| `Drafting.Fund` | src/turboserve/engine/spec/spec_engine.py:379-402 | the longest prefix of the draft whose missing blocks are within what is allocatable less what is reserved, or nothing; its blocks are reserved |
| `Drafting.FundStep` | src/turboserve/engine/spec/spec_engine.py:352-357 | the loop over the decoding sequences funds and extends each in turn |
| `Drafting.FundedDraftFits` | src/turboserve/engine/spec/spec_engine.py:379-425 | what fits the allocatable blocks can be appended, and then uses up exactly the missing ones |
| `Drafting.ReservedIsTaken` | src/turboserve/engine/spec/spec_engine.py:352-425 | over any step the reservation is exactly what the drafts have taken from the pool; the invariant holds and nobody else is touched |
| `Drafting.CutExactly` | src/turboserve/engine/spec/spec_engine.py:379-402 | a reservation cuts a draft below what is allocatable would bear if and only if that share is not empty and its missing blocks and the reservation together exceed what is allocatable; it never lengthens one |
| `Drafting.EarlierDraftsCountTwice` | src/turboserve/engine/spec/spec_engine.py:352-402 | in every step, draft k is funded from what was allocatable at first less twice what the drafts before it took; it is cut below what would fit if and only if what would fit is not empty and its missing blocks exceed that |
| `Drafting.SecondDraftCut` | src/turboserve/engine/spec/spec_engine.py:352-402 | a reachable engine in which the first draft takes the last block and the second, which needs none, is cut to nothing |
| `KvEngine.RunSound` | src/turboserve/engine/core/block_manager.py:350-369 | over every run from an empty pool, drafts and rollbacks included, no allocator or cache exception is raised, and all the invariant says about blocks, tables, hashes and progress holds |
| `KvEngine.ReadsAreOwn` | src/turboserve/engine/core/block_manager.py:1-26 | in every run attention reads, in every state of the run, KV of the sequence's own prefix and adapter, whoever computed it, if and only if no verdict credits draft tokens at positions where the text has others |
| `KvEngine.SharingMeansSamePrefix` | src/turboserve/engine/core/prefix_cache.py:73-84 | in every run two sequences sharing a block hold it at the same index and agree on adapter and on every token up to its end, which both count as computed; whose KV that block holds is `ReadsAreOwn` |
| `KvEngine.WritesAreExclusive` | src/turboserve/engine/core/block_manager.py:248-268 | a position to be written is in a block no other table lists and the cache does not know; its slot differs from every other position's |
| `KvEngine.SlotExactly` | src/turboserve/engine/core/block_manager.py:248-268 | position n is in slot table[n / block_size] * block_size + n % block_size |
| `KvEngine.PastWrittenIsPrivate` | src/turboserve/engine/spec/spec_engine.py:539-549 | after any run, rollbacks included, every block of a table past its written whole blocks, so every stale cell a draft left, is uncached and in no other table and listed once |
| `KvEngine.NothingLeaks` | src/turboserve/engine/core/kv_cache.py:93-111 | blocks are conserved, and with no sequence holding blocks the whole pool is allocatable |
| `KvEngine.UnwrittenPublicationUnsafe` | src/turboserve/engine/core/block_manager.py:18-25 | publishing before the forward pass would let a newcomer read KV that does not exist: a concrete case |
| `KvEngine.AppendTestExact` | src/turboserve/engine/core/block_manager.py:214-220 | `can_append` holds if and only if the growth does not run out |
| `KvEngine.AdmissionTestExact` | src/turboserve/engine/core/block_manager.py:151-169 | `can_allocate` holds if and only if, with the hits adopted, all remaining tokens fit; then any chunk of them does |
| `Verdicts.DraftsAtEndReadOwn` | src/turboserve/engine/spec/spec_engine.py:20-45 | in every run in which drafts extend only texts with nothing left to compute, attention always reads KV of the sequence's own prefix |
| `Verdicts.VerifyDecodes` | src/turboserve/engine/spec/spec_engine.py:489-527 | the loop verifies and rolls back one decoding sequence after the other, and an exception leaves those not reached with their drafts |
| `Verdicts.JudgedText` | src/turboserve/engine/spec/spec_engine.py:489-592 | a decoding sequence without a draft gets the token sampled for it, unless nothing is fed back; nobody else and no block changes |
| `Verdicts.VerificationRaises` | src/turboserve/engine/spec/verifier.py:182-186 | verification raises if and only if some decoding sequence's chunk is not exactly one token, since its rows are the chunk and the draft |
| `Verdicts.OneEachReadsOwn` | src/turboserve/engine/spec/spec_engine.py:325-592 | if every decoding sequence had exactly one uncomputed token when the step was scheduled, funding, forward pass and verification raise nothing and leave every position reading its own prefix, whatever the outcomes |
| `Verdicts.AcceptedInTheWay` | src/turboserve/engine/spec/spec_engine.py:402-592 | a reachable run in which a preempted request resumes, a draft is accepted in the way of its uncomputed token, that position then reads foreign KV, the block is cached under the request's text, and a newcomer adopts it |
| `KvManager.BlockManager.constructor` | src/turboserve/engine/core/block_manager.py:82-97 | a new manager has every block free |
| `KvManager.BlockManager.Allocate` | src/turboserve/engine/core/kv_cache.py:194-209 | whatever came before, the block handed out is the one idle longest outside the cache or, if there is none, in it; fails if and only if nothing is free or retained, and then changes nothing |
| `KvManager.BlockManager.Decref` | src/turboserve/engine/core/kv_cache.py:267-285 | one reference less, retained or freed at zero; a double free is refused and changes nothing |
| `KvManager.BlockManager.Acquire` | src/turboserve/engine/core/kv_cache.py:229-260 | adopts a retained block or shares one in use, and takes it out of the eviction order |
| `KvManager.BlockManager.Match` | src/turboserve/engine/core/prefix_cache.py:238-274 | the loop finds exactly the run of cached leading blocks |
| `KvManager.BlockManager.Fits` | src/turboserve/engine/core/block_manager.py:151-169 | the admission test, counting the retained hits one by one |
| `KvManager.BlockManager.AllocateFor` | src/turboserve/engine/core/block_manager.py:171-209 | refuses a sequence that holds blocks; otherwise adopts its hits as specified |
| `KvManager.BlockManager.GrowTable` | src/turboserve/engine/core/block_manager.py:244-245 | blocks are appended until the table is long enough or the pool is exhausted |
| `KvManager.BlockManager.AppendSlots` | src/turboserve/engine/core/block_manager.py:222-246 | refused beyond the sequence's tokens or before admission; otherwise grows, and returns each new position's slot |
| `KvManager.BlockManager.SlotMapping` | src/turboserve/engine/core/block_manager.py:248-268 | slot k is the slot of position start + k |
| `KvManager.BlockManager.PublishComputed` | src/turboserve/engine/core/block_manager.py:272-297 | offers every newly completed block once, in order, and returns by how many blocks the index grew |
| `KvManager.BlockManager.Free` | src/turboserve/engine/core/block_manager.py:301-334 | publishes, gives back every block front first, and forgets the progress |
| `EngineEffects.AloneFits` | src/turboserve/engine/core/scheduler.py:748-768 | once everybody else is preempted, a sequence that fits the pool can grow |
| `EngineEffects.AloneAdmitted` | src/turboserve/engine/core/block_manager.py:151-169 | with nobody holding blocks a sequence passes `can_allocate` if and only if its length fits the pool, whatever is cached |
| `EngineEffects.HeldPlusFree` | src/turboserve/engine/core/kv_cache.py:316-336 | what one sequence holds and what is allocatable never exceed the pool |
| `EngineEffects.UncachedRoom` | src/turboserve/engine/core/kv_cache.py:316-336 | without a prefix cache, in every run, what is allocatable is the pool less what all tables list |
| `SchedulerState.AdmittedGrows` | src/turboserve/engine/core/scheduler.py:684-711 | a sequence admitted on `can_allocate` grows by any chunk without running out |
| `Stalls.AdmissibleAlone` | src/turboserve/engine/core/scheduler.py:684-711 | with nobody running the head is admitted if and only if it was not preempted in this step, fits the pool, and what the cache leaves to compute of it fits the budget or may be split |
| `Stalls.AfterRunning` | src/turboserve/engine/core/scheduler.py:648-711 | if nobody is scheduled from the running list, nobody can be admitted after it if and only if nothing fitted at the start of the step |
| `Stalls.StuckStays` | src/turboserve/engine/core/scheduler.py:606-711 | with nobody running, being stuck depends only on the queues, the texts and the prefix index |
| `Stalls.FittingNeverStuck` | src/turboserve/engine/core/scheduler.py:606-646 | while everybody unfinished fits the pool and, unsplit where it may not be split, the step, and somebody running, if anybody is, has a token to compute, the scheduler is not stuck |
| `BatchScheduler.Scheduler.constructor` | src/turboserve/engine/core/scheduler.py:419-451 | a new scheduler is idle over an empty pool with no request in flight and nobody waiting |
| `BatchScheduler.Scheduler.PickVictim` | src/turboserve/engine/core/scheduler.py:770-785 | lowest priority, then newest, among running sequences outside the batch; none if and only if there is none |
| `BatchScheduler.Scheduler.MakeWay` | src/turboserve/engine/core/scheduler.py:760-766 | one more victim, the least of those left, or the requester for want of any; the order of victims is kept |
| `BatchScheduler.Scheduler.Preempt` | src/turboserve/engine/core/scheduler.py:787-815 | a running sequence outside the batch gives up its blocks and goes to the end of the preempted queue; nothing else moves |
| `BatchScheduler.Scheduler.MakeRoom` | src/turboserve/engine/core/scheduler.py:748-768 | preempts the running sequence outside the batch of lowest priority, the newest of equals, again and again and each only because there was no room yet, the requester itself only after all others; ends with room for it, whose tokens then fit the pool, or with it preempted, with an empty batch the latter if and only if they do not fit |
| `BatchScheduler.Scheduler.Emit` | src/turboserve/engine/core/scheduler.py:713-744 | slot allocation does not run out and takes exactly the missing blocks; the batch gains the sequence with exactly its new tokens pending, and stays one in which only the last item can leave tokens over, by using up the budget |
| `BatchScheduler.Scheduler.ScheduleOne` | src/turboserve/engine/core/scheduler.py:658-670 | a sequence that was running is scheduled, preempted, or left out for a stated reason, and who is preempted for it is told in order (`TurnTaken`); a step with an empty batch that can carry it serves it if and only if its chunk fits the pool |
| `BatchScheduler.Scheduler.ScheduleRunning` | src/turboserve/engine/core/scheduler.py:648-670 | the running sequences have their turns in order, each as `TurnTaken` says, until a limit is used up; every one is scheduled or preempted, or has nothing to compute, or a limit is too short for what may not be split; nobody else is scheduled; nobody is preempted if there is room for everybody's chunk |
| `Preemption.LeastGoFirst` | src/turboserve/engine/core/scheduler.py:748-785 | over all turns of a step nobody is preempted while somebody of lower priority, or as low and newer, goes on running outside the batch |
| `Preemption.StepPreemptsLeast` | src/turboserve/engine/core/scheduler.py:606-785 | in a whole step, if a sequence is preempted then every sequence that ran too and has lower priority, or the same and is newer, is preempted or in the batch |
| `BatchScheduler.Scheduler.PeekHead` | src/turboserve/engine/core/scheduler.py:684-688 | the first preempted sequence, else whom the wait queue would admit |
| `BatchScheduler.Scheduler.StartHead` | src/turboserve/engine/core/scheduler.py:690-704 | the head leaves its queue and runs on its adopted blocks |
| `BatchScheduler.Scheduler.ReleaseHead` | src/turboserve/engine/core/scheduler.py:692-699 | an admission taken back leaves the queues, the texts and the prefix index as they were |
| `BatchScheduler.Scheduler.AdmitHead` | src/turboserve/engine/core/scheduler.py:684-711 | the head is admitted if and only if it is admissible, and then starts from its prefix hits and charges the wait queue for it; otherwise nothing moves, and it is no more admissible afterwards |
| `BatchScheduler.Scheduler.ScheduleAdmissions` | src/turboserve/engine/core/scheduler.py:672-711 | preempted sequences first, then waiting ones, none skipped and none preempted in this step; whoever leaves the queues runs in that order and is in the batch, and the wait queue has admitted exactly those in turn; it ends only at a limit or at a head that is not admissible |
| `BatchScheduler.Scheduler.PublishRunning` | src/turboserve/engine/core/scheduler.py:625-626 | publishing at the top of a step changes nothing but what the cache has been offered, and offers it everything |
| `BatchScheduler.Scheduler.ScheduleStep` | src/turboserve/engine/core/scheduler.py:606-646 | for all queues, priorities and pool states no exception escapes, both limits hold, nobody is lost, each running sequence is considered, victims are taken least first turn by turn, and the first that a step can carry is served if and only if its chunk fits the pool; each item takes all its sequence has left unless it is the last and uses up the budget; the batch is empty if and only if the scheduler was stuck, and with nobody running it then stays stuck |
| `BatchScheduler.Scheduler.Execute` | src/turboserve/engine/core/scheduler.py:212-214 | the forward pass settles the batch, no sequence's progress changes, the scheduler is idle again, and those whose items sample are reported, finished prompts first |
| `BatchScheduler.Scheduler.AddSequence` | src/turboserve/engine/core/scheduler.py:496-551 | refused if and only if the id is in flight, the prompt is empty or exceeds the pool, or it cannot be chunked into a step, and then nothing changes; otherwise filed under its id with its priority and its prompt's length and pushed on its tenant's queue, which inserts it somewhere in the order of admission, first come, first served at the end |
| `BatchScheduler.Scheduler.AppendToken` | src/turboserve/engine/core/scheduler.py:575-594 | a sampled token extends its own sequence and nothing else |
| `BatchScheduler.Scheduler.Finish` | src/turboserve/engine/core/scheduler.py:553-565 | a finished sequence leaves every queue and the request index and holds no blocks; only leaving the wait queue may reorder the others there |
| `BatchScheduler.Scheduler.Abort` | src/turboserve/engine/core/scheduler.py:567-573 | cancels a request in flight as finishing does, reports whether it was, and otherwise changes nothing |
| `Sampling.SamplersExactly` | src/turboserve/engine/core/scheduler.py:152-159 | those reported are exactly the items that do not end inside their prompt |
| `Sampling.FinishersFirst` | src/turboserve/engine/core/scheduler.py:206-214 | those that finish a prompt come first, those past theirs after them |
| `Sampling.MidTextExactly` | src/turboserve/engine/core/scheduler.py:152-159 | an item samples in the middle of its text if and only if it is the last of its batch, used up the token budget, and stops at or after the end of its prompt and before the end of its text |
| `Sampling.ChunkSamplesAtEnd` | src/turboserve/engine/core/scheduler.py:713-744 | seen before the call: a chunk samples at the end of its text or not at all if and only if the budget covers what is left or runs out inside the prompt |
| `SampledRuns.SamplesInOrder` | src/turboserve/engine/core/scheduler.py:606-646 | in every step a request that has sampled nothing yet, or runs on with one token uncomputed, samples from the end of its text, and has one token uncomputed afterwards |
| `SampledRuns.SampledInTheMiddle` | src/turboserve/engine/core/scheduler.py:152-159 | a run of the scheduler in which a preempted request resumes with a chunk that ends past its prompt and before its last token, and a token is sampled there |
| `StallRuns.GrownPastThePool` | src/turboserve/engine/core/scheduler.py:496-551 | a run in which the first of two accepted requests outgrows the pool with its second token, is preempted, and blocks the fitting second one for good |
| `StallRuns.GrownPastTheStep` | src/turboserve/engine/core/scheduler.py:530-551 | a run with unsplit prompts in which the second of two accepted requests is preempted with more tokens than a step takes; with the whole pool free it fits, but is released in every step |
| `Liveness.PatienceRunsDown` | src/turboserve/engine/core/scheduler.py:606-711 | every round that does not serve a request brings its turn nearer by a bound on the steps left, whoever arrives, finishes and leaves meanwhile |
| `Liveness.NobodyStarves` | src/turboserve/engine/core/scheduler.py:606-711 | under either admission policy, in every run in which everybody unfinished fits and is given tokens to compute, a request is in a batch within (capacity + 2) steps for each sequence ahead of it, or that the policy can still admit before it, and the rest of the oldest one's; if it is running, since it may be preempted once, plus as many for each sequence running or preempted at once |
| `Liveness.Handle` | src/turboserve/engine/core/scheduler.py:496-594 | whatever the engine asks for between two steps, a new request, a sampled token or an end, is as the bound assumes, under either policy |
| `Liveness.ServeRound` | src/turboserve/engine/core/scheduler.py:606-646 | `schedule()`, the forward pass and any such events make up a round as the bound assumes, if everybody fits and is given tokens |
| `Liveness.QueueFollowed` | src/turboserve/engine/core/scheduler.py:325-391 | the scheduler's own wait queue meets what the bound asks of it, under either policy |
| `Liveness.AheadInTurn` | src/turboserve/engine/core/scheduler.py:325-331 | first come, first served, only those that wait ahead of a request can still be admitted before it |
| `Turns.AdmitsNearer` | src/turboserve/engine/core/scheduler.py:352-372 | each admission of somebody else lowers by one the number that can still come before a waiting request: those ahead of it in its own queue, and of each other tenant what starts no later than its turn |
| `Turns.MeanwhileNoFurther` | src/turboserve/engine/core/scheduler.py:337-391 | no arrival, departure or idle spell of others raises that number |
| `AdmissionOrder.NextHeads` | src/turboserve/engine/core/scheduler.py:352-372 | whoever the wait queue admits next heads the order of admission the scheduler is proved against, and the rest of it is the order after that admission |
| `AdmissionOrder.JoinedPlace` | src/turboserve/engine/core/scheduler.py:337-350 | a push inserts the newcomer somewhere and leaves the order of the others |
| `AdmissionOrder.RemovedOrder` | src/turboserve/engine/core/scheduler.py:374-391 | after a removal there is an order of the same others |
| `AdmissionOrder.OneNameInTurn` | src/turboserve/engine/core/scheduler.py:325-331 | with everybody in one queue the order is first come, first served |
| `AdmissionOrder.FirstCome` | src/turboserve/engine/core/scheduler.py:337-350 | with everybody filed under one name the order of admission is that of the one queue |
| `FairQueue.WaitQueue.constructor` | src/turboserve/engine/core/scheduler.py:325-331 | nobody is queued at first |
| `FairQueue.WaitQueue.Add` | src/turboserve/engine/core/scheduler.py:337-350 | appends to the tenant's queue; a tenant becoming backlogged starts no earlier than the clock |
| `FairQueue.WaitQueue.NextTenant` | src/turboserve/engine/core/scheduler.py:400-403 | the tenant of smallest virtual time, then name; none if and only if nobody waits |
| `FairQueue.WaitQueue.Peek` | src/turboserve/engine/core/scheduler.py:352-357 | the head of the next tenant's queue |
| `FairQueue.WaitQueue.Take` | src/turboserve/engine/core/scheduler.py:359-372 | admits that head and charges its tenant |
| `FairQueue.WaitQueue.Drop` | src/turboserve/engine/core/scheduler.py:374-391 | drops a queued sequence if it is there, and says whether it was |
| `FairQueue.NextIsUnique` | src/turboserve/engine/core/scheduler.py:400-403 | the next tenant is determined by the state, so admission is deterministic |
| `FairQueue.ProportionalShare` | src/turboserve/engine/core/scheduler.py:307-320 | while two tenants stay backlogged the weighted service of one exceeds the other's by at most one request, after allowing for their starting times |
| `FairQueue.NoBankedCredit` | src/turboserve/engine/core/scheduler.py:315-320 | a tenant returning from idleness gets at most one request beyond its share against the tenant admitted last |
| `FairQueue.WaitBounded` | src/turboserve/engine/core/scheduler.py:310-313 | while a tenant waits another is admitted at most (difference of virtual times) * weight + 1 times, whatever arrives or leaves |
| `FairQueue.ClockGoesBackExactly` | src/turboserve/engine/core/scheduler.py:359-372 | an admission after another, whatever arrives or leaves between them, sets the virtual clock back if and only if its tenant was backlogged throughout and its virtual time was behind the earlier tenant's by less than its cost is below that one's |
| `FairQueue.OnlyCheaperSetsBack` | src/turboserve/engine/core/scheduler.py:359-372 | so no admission does unless its tenant's cost is strictly below the previous one's |
| `FairQueue.ClockCanGoBack` | src/turboserve/engine/core/scheduler.py:315-320 | for any two tenants of which the one earlier in name order is the dearer, a run of four operations from the empty queue sets it back |
| `FairQueue.TenthWeightSetsBack` | src/turboserve/engine/core/scheduler.py:315-320 | an instance: with a weight of 1/10 the clock falls from 10 to 1, while a newcomer in between starts at 10 |
| `FairQueue.EqualSharesInStep` | src/turboserve/engine/core/scheduler.py:359-372 | with equal weights the clock never goes back, and nobody backlogged is more than one turn behind it |
| `FairQueue.NewcomerWaitsTwoTurns` | src/turboserve/engine/core/scheduler.py:310-320 | with equal weights a newcomer is admitted before any backlogged tenant gets a third turn |

## Left out

- Floating-point rounding: all arithmetic is exact. Repeated addition of an interval is modelled as such and related to the product.
- HTTP, SSE, tracing, Prometheus, kubectl, subprocess workers, YAML and CLI layers, report rendering and log or reason texts: I/O and formatting.
- `Fault.parse` and `Fault.describe`: formatting drops digits, so there is no round trip to prove.
- `LimiterRegistry.reset` and live reconfiguration: it drops the object whose count is being tracked.
- Usage recording, pricing, tenant lookup, the load generator and result files: only easier members.
- Exceptions raised by rollout drivers or by the canary controller inside `_observe`; a health probe that raises is one that answers unhealthy.
- Health checks finer than one atomic probe: a probe in progress can overwrite a newer failure verdict.
- Sampling transforms, attention and LoRA arithmetic, the LoRA registry and memory profiling: tensor code. KV content is modelled by the adapter and prefix it was computed from.
- The seeded generators: each draw is an arbitrary value in its range.
- `BlockManager.reset`, `PrefixCache.remove` and the statistics counters of cache, allocator and scheduler.
- RequestPath.Router.Generate: the pool is a field of values, so one backend object registered in two pools is not modelled; other requests act between attempts by replacing any health fields.
- RequestPath.Router.Generate: does not claim a terminating event when a backend's stream simply stops, because the code forces none.
- ClusterRunners.RunRollout: runs over any finite list of polls; an endless run is every prefix of it.
- ClusterRunners.DeadlineEndsRun: assumes sleeps that advance the clock by the poll interval, which the loop does not check.
- FaultingWorkers.FaultingBackend.Forward: the `aborted` counter also counts streams cut before their first token, as in the code.
- Batching.BatchRecords: requires a positive batch size, rate and (with something to send) concurrency; with 0 the original does not end or fails on a missing key. Its dictionaries, filled in order, are sequences here.
- Projection.ScheduleClosedLoop: free times are whole nanoseconds, as they are after the division and multiplication by 10^9 without rounding; the iteration that scales the gaps to a target throughput is not modelled.
- KvSharing.PublishKeeps: block hashes are taken to be collision-free, so a hash is its prefix and adapter.
- KvManager.BlockManager.AppendSlots: sequences are values passed in and returned, so two names for one sequence object are not modelled. `written` has no counterpart in the code; it marks what the forward pass has stored.
- BatchScheduler.Scheduler.ScheduleStep: block-manager calls are steps of the engine's state machine; cancellation happens between steps, as in the engine loop. The class runs without speculation, since rolled-back drafts leave longer tables; drafts are covered by `KvEngine`, `Drafting` and `Verdicts`.
- BatchScheduler.Scheduler.AddSequence: the first-come-first-served mode is one wait queue that everybody joins under one name.
- Liveness.NobodyStarves: that whoever has computed all its tokens gets another or finishes is assumed, as is that the tenants who ever queue are known; the bound grows with them and with how many run or are preempted at once.
- BatchScheduler.Scheduler.Finish: finished sequences also reset their progress counter, which nothing reads afterwards; stop conditions are not modelled. Finishing a sequence again after its id has gone to a new request, which would drop that request from the index, is excluded.
- Drafting.Fund: the choice of drafted tokens and the batching of verification passes are not modelled; `Speculation` verifies any draft.
- Verdicts.VerificationRaises: what the engine loop does with the exception is not modelled.
- KvEngine.ReadsAreOwn: what the model then predicts from foreign KV is not modelled.
- Speculation.SpeculationPreservesLaw: the probability of keeping m tokens is the volume of the box of draws that lead to it (`KeptIsBox`), and a draft's is the product of its tokens'; probability spaces are not built.
- Speculation.VerifyRejectionSampling: device mismatches, which raise, are not modelled, and mismatches of shape are those of `Verdicts`; the final draw is any function that hits a positive weight.
