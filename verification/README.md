# Verification of the inference platform

A Dafny 4.11 model of the part of the platform that decides whether a job or a task survives
concurrency, crashes, expiry and shutdown, with proofs about every run of it.
`dafny verify dfyconfig.toml` checks everything.

| component | files |
|---|---|
| job table, leases, gateways | `JobStore`, `JobLeaseRuns`, `JobStoreClass`, `GatewaySystem`, `JobGateway`, `GatewaySteps` |
| tasks, queue, strategies | `Task`, `Queue`, `StableSorting`, `Scheduling`, `SchedulerLoop` |
| worker pool | `ProxyProtocol`, `ProxyDispatch`, `ProxyQueues`, `ProxyRuns`, `ProxyWorker`, `WorkerPool` |
| model bridge | `BridgeProtocol`, `BridgeRuns`, `BridgeWorker` |
| batch server | `BatchServer` |
| maintenance gate and rollout | `Gate`, `RolloutRuns`, `Rollout` |
| discovery | `Discovery`, `DiscoveryRefresh` |

Where threads, processes or crashes interleave, a component is a transition system whose steps are the
atomic sections of the code, and its theorems range over all lists of steps (`Run`, `IsRun`). Where the
code updates objects in place there is also a class with the same fields and loops; its methods are
proved against the transition system or against a specification function, and what they change is written
out field by field beside that. Calls that can fail return `Raised`, `None` or `false`, and what other
programs do is chosen freely at the step that observes it.

Five promises are not kept by the code as it stands; each is stated with the exact condition under
which it is, and with a run or input in which it is not:

- an unfinished outcome stays in a gateway's `_active` until a store call about it returned: for all
  runs if and only if `max_inflight` is 1 (`GatewaySystem.NeverDropsIffOneInflight`; failing run:
  `GatewaySystem.OutcomeOverwritten`);
- every accepted task without an outcome is somewhere in the pool: exactly when no response ended with
  the task in its batch, without an outcome and of a kind that is not durable
  (`ProxyRuns.HeldUnlessLeftOut`; failing run: `ProxyRuns.TaskLost`);
- a latency-aware batch has no task twice: exactly when no task that is old by its first clock reading and
  fresh by its second has its fresh copy before the cut at `batch_size` (`Scheduling.BatchPickedOnce`;
  failing input: `Scheduling.BatchRepeats`), which a clock that never goes back rules out
  (`Scheduling.ForwardClockPicksOnce`);
- boundaries are opened only on the new release or on what was found, whole: exactly when no signal
  strikes between line 200 of `deploy_platform.py` and the end of the inner `try` and starts a rollback that
  is then broken off (`RolloutRuns.OpensConsistently`; failing run for any two builds:
  `RolloutRuns.MixtureOpened`);
- "rollback failed; admission remains closed" is reported only when everything is closed: exactly when no
  signal strikes after line 200 or line 206 before its `try` is left (`RolloutRuns.RemainsClosed`; failing
  run: `RolloutRuns.ClosureMisreported`).

Assumptions: each SQL statement is atomic, at a database clock that never goes back (`now()` is the start
of its transaction); fresh UUIDs differ from all earlier ones; a rename that returned is not undone by a
process crash.

## Model

| member | source | states |
|---|---|---|
| JobLease.InvStep | system/job_store.py:31-84 | every store operation keeps the row invariant: running exactly when a lease is set, no lease past the deadline, every finished row recorded with its outcome and the attempt that ended it, or expired with the deadline error and no result |
| JobLease.FirstUnique | system/job_store.py:37-43 | the ordering of candidates picks at most one row, so a claim is deterministic for given locks |
| JobLeaseRuns.FencingAfterReclaim | system/job_store.py:31-77 | over every run, once a job is claimed anew, no renew, complete or defer of an earlier attempt succeeds |
| JobLeaseRuns.HoldsUntilLeaseEnds | system/job_store.py:31-77 | over every run, after a claim of a job, and before the lease and the deadline end, the next renew, complete or defer of that attempt succeeds, whatever happens in between |
| JobLeaseRuns.RefusedIsFinal | system/job_store.py:53-77 | over every run, once a renew, complete or defer of an attempt was refused, no later one of that attempt succeeds |
| JobLeaseRuns.TerminalForever | system/job_store.py:61-84 | a succeeded or failed row never changes again |
| JobLeaseRuns.CompleteOnce | system/job_store.py:61-68 | at most one complete succeeds per job, whichever attempt calls it |
| JobLeaseRuns.ClaimableInWindow | system/job_store.py:35-49 | a named claim succeeds if and only if the row is unlocked, unfinished and between its lease or retry time and its deadline |
| JobLeaseRuns.PollClaimsSomething | system/job_store.py:35-49 | an unnamed claim succeeds whenever some unlocked row is claimable |
| JobLeaseRuns.ExpiryAtDeadline | system/job_store.py:79-84 | expiry fails every unfinished row at its deadline and touches no other |
| JobLeaseRuns.AttemptBound | system/job_store.py:31-59 | claims of a job are min(lease, retry) apart and before its deadline, so attempts are bounded by the time from the first claim to the deadline |
| JobLeaseRuns.DeadlineFixed | system/job_store.py:45-83 | no operation moves the deadline, the spec or its fingerprint, and attempts never decrease |
| JobLeaseRuns.RenewNeverShortens | system/job_store.py:53-59 | a successful renewal never shortens a lease and never passes the deadline, when the attempt's own claim and renewals use one lease length |
| JobLeaseRuns.AttemptsCountedStep | system/job_store.py:45-49 | the attempts column counts the distinct attempts that ever claimed the row |
| JobStores.JobStore.Claim | system/job_store.py:31-51 | a row is claimed exactly when one is claimable by its columns, and it is one that no other precedes by next_attempt_at, created_at and job_id; the new row has the attempt, one more attempt counted and the lease up to the deadline; the table becomes the specified claim |
| JobStores.JobStore.Renew | system/job_store.py:53-59 | true if and only if the row is running under the attempt, before its lease end and its deadline; then only the lease changes, to now plus its length or the deadline |
| JobStores.JobStore.Complete | system/job_store.py:61-68 | true if and only if the row is running under the attempt, before its lease end and its deadline; then status, result and error are those given and the lease is gone |
| JobStores.JobStore.Defer | system/job_store.py:70-77 | true if and only if the row is running under the attempt, before its lease end and its deadline; then it is queued for now plus the retry time with that error |
| JobStores.JobStore.ExpireDeadlines | system/job_store.py:79-84 | every unfinished row at its deadline becomes failed with the deadline error, every other row stays as it is, and the count is theirs |
| GatewaySystem.ResultAttribution | system/job_gateway.py:66-105 | with any gateways, crashes and failing calls, a succeeded row holds the result of the one task created for the row's attempt, and that task is done |
| GatewaySystem.WrittenAtMostOnce | system/job_gateway.py:83-98 | at most one outcome is recorded for a job even when calls raise after committing |
| GatewaySystem.TasksWithinAttempts | system/job_gateway.py:66-81 | a job never has more tasks, over all gateways and restarts, than attempts counted in its row |
| GatewaySystem.RoomAt | system/job_gateway.py:55-64 | a gateway never has more than max_inflight entries |
| GatewaySystem.OutcomeKept | system/job_gateway.py:83-105 | with max_inflight 1, an entry leaves _active only when a store call about it returned or the gateway crashed |
| GatewaySystem.OutcomeOverwritten | system/job_gateway.py:60-81 | with two or more places, a run in which a reclaimed job overwrites the entry of a finished task |
| GatewaySystem.NeverDropsIffOneInflight | system/job_gateway.py:55-110 | entries are never dropped in any run if and only if max_inflight is 1 |
| GatewaySystem.DroppedLeaseIsDead | system/job_gateway.py:99-105 | over every run, once a refused renewal dropped an entry, no later call for its attempt, by any gateway and with any fate, changes a row |
| GatewaySystem.RenewalExtends | system/job_gateway.py:99-105 | in every run, whatever lease lengths the gateways have, a renewal that takes effect never shortens a lease and never passes the deadline |
| GatewaySystem.VerdictReports | system/job_gateway.py:89-98 | a finished task is answered with its result, put off with its error if the code is one of the ten listed ones, and failed with its error otherwise |
| GatewaySystem.ErrorsByCode | system/job_gateway.py:66-98 | in every run a failed row's error has none of the ten listed codes, and an error kept on any other row has one |
| JobGateways.JobGateway.Poll | system/job_gateway.py:83-110 | after a pass every earlier entry is unchanged, was disposed of by a call that returned, or (max_inflight above 1) was claimed anew; what a call writes for a finished task is its result, a deferral for a listed code, a failure for another; unless the pass raised, remaining entries are unfinished, in time and recently renewed, and an unnamed claim was made for each free place, up to one that found nothing; each claim that won a row made its entry or was written back |
| JobGateways.JobGateway.PollEntry | system/job_gateway.py:86-105 | one entry of a finished task is settled: the result, a deferral with the error and retry_seconds for a listed code, or a failure with the error; one whose renewal is due is extended, or dropped with its task failed as lease_lost; one is left alone only when unfinished, in time and recently renewed |
| JobGateways.JobGateway.Enqueue | system/job_gateway.py:66-81 | a claimed row with the right fingerprint becomes one queued task with its spec, attempt and remaining time, and one entry, if the queue has room; otherwise it is deferred as overloaded, and with a wrong fingerprint completed as invalid_spec |
| JobGateways.JobGateway.Submit | system/job_gateway.py:55-64 | other entries are untouched; one claim of the named job is made unless the job is unknown, the store fails first, or the gateway is full or stopping, and what it wins becomes a task with an entry or is written back |
| JobGateways.JobGateway.ClaimOne | system/job_gateway.py:60-63 | one claim call; the row it wins is the one left in the table, and becomes a task with an entry or is written back |
| GatewaySteps.SettleIsAStep | system/job_gateway.py:89-98 | settling an entry of the object is one step of the system of gateways: same statement, table, entries and tasks |
| GatewaySteps.RenewIsAStep | system/job_gateway.py:99-105 | renewing an entry is one step of that system; a refusal drops the entry and fails its unfinished task as lease_lost |
| GatewaySteps.ClaimIsAStep | system/job_gateway.py:107-110 | a claim call is one step of that system, and leaves it holding exactly the row the object won |
| GatewaySteps.AdmitIsAStep | system/job_gateway.py:74-81 | entering a task is one step of that system, with a pending task of the row's job and attempt |
| GatewaySteps.RefuseIsAStep | system/job_gateway.py:70-80 | writing a claimed row back is one step of that system |
| Tasks.FirstOutcomeWins | system/task.py:85-139 | once terminal, no sequence of updates changes anything about a task |
| Tasks.LifeOfATask | system/task.py:85-139 | over any updates the deadline stays, at most one retry is reserved, and results and errors match the status |
| Tasks.ReserveOnce | system/task.py:131-139 | at most one call of try_reserve_retry ever returns true |
| Tasks.Task.RemainingSeconds | system/task.py:74-78 | the budget is never negative and zero exactly when the task is expired |
| Tasks.Task.MarkDone | system/task.py:96-104 | a task without an outcome gets the result and is done; one with an outcome stays as it is |
| Tasks.Task.MarkFailed | system/task.py:106-114 | a task without an outcome gets message and code and is failed; one with an outcome stays as it is |
| Tasks.Task.TryReserveRetry | system/task.py:131-139 | true if and only if the task is unfinished, in time and has not been retried; then one retry is counted |
| TaskQueues.TaskQueue.Put | system/queue.py:34-43 | a full queue refuses; otherwise the task is last, and counters match the histories |
| TaskQueues.TaskQueue.Drain | system/queue.py:60-75 | the oldest tasks, as many as asked for or as there are, leave in order |
| ProxyProtocol.StructuredStep | system/grpc_worker_pool.py:81-180 | every step keeps: two outstanding batches at most, one supported kind per batch, one running proxy per member |
| ProxyProtocol.ConservedStep | system/grpc_worker_pool.py:81-290 | every step keeps each accepted unresolved task in exactly one place, apart from tasks a response left out |
| ProxyDispatch.CountedStep | system/grpc_worker_pool.py:132-148 | every step keeps the count of calls and retries of every task, wherever it waits |
| ProxyRuns.HeldUnlessLeftOut | system/grpc_worker_pool.py:81-290 | in every run an accepted task without an outcome is in exactly one queue, active batch or drained list of one proxy if and only if no response ended with the task in its batch, unresolved and not durable; otherwise it is nowhere |
| ProxyRuns.TaskLost | system/grpc_worker_pool.py:241-256 | for any kind that is not durable, a run in which an accepted task without an outcome ends up nowhere |
| ProxyRuns.TaskConservation | system/grpc_worker_pool.py:81-290 | in every run an accepted task without an outcome is in exactly one queue, active batch or drained list of one proxy if and only if no response left it out |
| ProxyRuns.OmittedExactly | system/grpc_worker_pool.py:241-256 | a response leaves out exactly the batch's unresolved tasks of kinds that are not durable |
| ProxyRuns.LeftOutByResponse | system/grpc_worker_pool.py:241-256 | a task is recorded as left out exactly when some response of the run left it out |
| ProxyRuns.DispatchBound | system/grpc_worker_pool.py:132-148 | a task is in at most two calls, the second on another worker with the original deadline; a durable one in at most one |
| ProxyRuns.CallsWithinAttempts | system/grpc_worker_pool.py:182-239 | end to end with the gateways: calls for a durable job never exceed the attempts counted in its row |
| ProxyRuns.TwoSlots | system/grpc_worker_pool.py:81-93 | no proxy has more than two outstanding batches, and every queued batch is of one kind its worker supports |
| ProxyRuns.NothingAfterRetirement | system/grpc_worker_pool.py:100-130 | a proxy that was removed or shut down accepts no batch any more |
| ProxyRuns.RemovalRetires | system/grpc_worker_pool.py:453-461 | removing a worker stops its proxy in the same critical section |
| ProxyRuns.ShutdownRetires | system/grpc_worker_pool.py:367-379 | shutdown stops every proxy of the pool |
| ProxyRuns.NothingAfterShutdown | system/grpc_worker_pool.py:367-379 | after shutdown begins no submission or handoff is accepted anywhere and no proxy is added |
| ProxyRuns.TakenOrDrained | system/grpc_worker_pool.py:109-123 | over every run, a task queued at a proxy and later not queued there left by exactly one step in between, taken by the dispatch thread of the running proxy or drained by stop, and never comes back to that queue |
| ProxyQueues.GoneStep | system/grpc_worker_pool.py:465-496 | every step keeps a task that left a proxy's queue away from it: elsewhere it has used its retry and is on no further offer |
| ProxyWorkers.ProxyWorker.TrySubmit | system/grpc_worker_pool.py:81-93 | among other threads: accepted exactly when the proxy runs, is ready and has fewer than two outstanding batches, and then last in its queue |
| ProxyWorkers.ProxyWorker.Serve | system/grpc_worker_pool.py:162-180 | the oldest batch of a running proxy is taken and reconciled, whatever other threads do meanwhile |
| ProxyWorkers.ProxyWorker.Process | system/grpc_worker_pool.py:182-290 | whatever other threads do, the thread ends with nothing in hand, and each task of the batch has an outcome, was handed over where that is allowed, or was left out by a response that has no result for it and is not durable; where handing over is allowed and did not happen there was a reason |
| ProxyWorkers.ProxyWorker.BeginCall | system/grpc_worker_pool.py:196-232 | nothing left, stopped, no time left, or every task started and put in one call with its own deadline; nothing else changes |
| ProxyWorkers.ProxyWorker.EndCall | system/grpc_worker_pool.py:253-256 | durable tasks the response left out fail as transport_error, others stay without an outcome; nothing else changes |
| ProxyWorkers.ProxyWorker.FailCall | system/grpc_worker_pool.py:258-290 | handing over is allowed exactly for an unreachable worker whose proxy runs or is being removed, and for a cancelled call or a closed channel of one being removed |
| ProxyWorkers.ProxyWorker.FinishHead | system/grpc_worker_pool.py:132-148 | the task has an outcome or was handed over if that is allowed; if it is allowed, an outcome here has a reason: an earlier outcome, its deadline, its kind, a used retry, a pool that shuts down, or every candidate found full |
| ProxyWorkers.ProxyWorker.Resubmit | system/grpc_worker_pool.py:465-496 | a handoff puts the task last in the queue of another ready proxy with room whose worker supports it; it fails only for one of those reasons |
| ProxyWorkers.ProxyWorker.Stop | system/grpc_worker_pool.py:109-123 | everything queued at a stopped proxy is drained, and every task of it is finished or handed over exactly as the reason for stopping allows |
| ProxyWorkers.ProxyWorker.RemoveAndStop | system/grpc_worker_pool.py:453-462 | after a removal the queued tasks are handed over, or end here for one of the reasons above |
| ProxyWorkers.SharedPool.Shutdown | system/grpc_worker_pool.py:367-376 | among other threads: one critical section leaves no member and stops every running one with nothing to hand over |
| WorkerPools.GrpcWorkerPool.Submit | system/grpc_worker_pool.py:398-408 | each kind's group, in batch order, is last in one queue or failed whole; a group is refused only if no compatible ready proxy has a free slot, and prefers an idle one; a kind that is no string is an invalid spec |
| WorkerPools.GrpcWorkerPool.SubmitCompatible | system/grpc_worker_pool.py:410-437 | one group goes whole to a preferred compatible proxy with room, or fails with the right message when there is none |
| WorkerPools.GrpcWorkerPool.TryResubmit | system/grpc_worker_pool.py:465-496 | a handoff needs a reserved retry and an open pool, goes to another compatible proxy, an idle one first, and changes nothing else |
| WorkerPools.GrpcWorkerPool.FinishOrRetry | system/grpc_worker_pool.py:132-148 | a lost task keeps its outcome, fails with the right reason, or is handed over exactly when that is allowed and possible |
| WorkerPools.GrpcWorkerPool.UpdateWorkers | system/grpc_worker_pool.py:441-462 | afterwards an open pool has exactly the listed ids and states and kept proxies keep their queues; every task queued at a removed proxy has its turn, and one that is unresolved, in time, not durable and with its retry unused fails only if no capable ready member had room, then or now, and is otherwise alone in a batch of such a member's queue, its retry used |
| WorkerPools.GrpcWorkerPool.Retire | system/grpc_worker_pool.py:109-123 | the queued tasks of a proxy get one turn each, in order; whether they may be handed over depends on how the proxy was first stopped and on the pool being open |
| WorkerPools.GrpcWorkerPool.LostOnce | system/grpc_worker_pool.py:132-148 | over any turns, a task that could be handed over and is lost once ends in a capable member's queue, or no capable member has room even at the end |
| WorkerPools.GrpcWorkerPool.Stop | system/grpc_worker_pool.py:367-380 | no member is left, and nothing is handed over: every queued task keeps its outcome or fails by its deadline, as transport_error if durable, else as removed, with its retry unused |
| WorkerPools.GrpcWorker.TrySubmit | system/grpc_worker_pool.py:81-93 | a batch is accepted exactly when the proxy runs, is ready and has a free slot |
| WorkerPools.NewKind | system/grpc_worker_pool.py:400-406 | grouping lists each kind once, and a kind's group holds exactly its tasks |
| WorkerPools.GrpcWorkerPool.Supports | system/grpc_worker_pool.py:393-396 | without a configuration a worker takes simulation and synthx_v73, otherwise exactly the kinds listed for it |
| BridgeProtocol.InvStep | system/worker_v73.py:140-309 | every step of every call, and every crash, keeps locks, files, memories and the record of outside effects consistent |
| BridgeRuns.OneRequest | system/worker_v73.py:245-264 | over all calls, crashes and restarts the model is asked at most once per job, and once asked the job's file says so |
| BridgeRuns.OutcomeIsFinal | system/worker_v73.py:145-157 | once a result or error is on disk, the file never changes and nothing is downloaded, asked or uploaded for the job |
| BridgeRuns.LaterCallsAgree | system/worker_v73.py:145-157 | every later call that reads the file answers with that outcome for the same spec and with a conflict for another |
| BridgeRuns.ResultAfterUploads | system/worker_v73.py:285-288 | a result is on disk only when every artifact it lists was uploaded, the required ones among them |
| BridgeRuns.RecordedErrorsArePermanent | system/worker_v73.py:289-293 | in every run a recorded error is not retryable and its code is not deadline_exceeded |
| BridgeRuns.RecordedErrorsHaveACause | system/worker_v73.py:270-293 | in every run a recorded error was observed for that job: a rejected response or artifact, an unusable input, or a path outside the deployment |
| BridgeRuns.ExpiryIsNotRecorded | system/worker_v73.py:277-293 | a call whose deadline passed during the download answers that, records nothing and asks nothing, whatever happens afterwards |
| BridgeRuns.AskedOnlyWhereNothingIs | system/worker_v73.py:158-165 | the model is asked only by a call that found no output directory, no running mark and no response of the job |
| BridgeRuns.UnresolvedStops | system/worker_v73.py:158-165 | without a response, a running mark or an output directory from which nothing is recovered ends the call as already_running, retryable, with nothing done; otherwise it goes on with what the file says |
| BridgeRuns.SpecIsFixed | system/worker_v73.py:151-152 | the specification of a job is fixed by the first call that executes it |
| BridgeRuns.OneHolder | system/worker_v73.py:111-120 | one call at a time works on a job, and one at a time uses the model |
| BridgeWorkers.V73Worker.Process | system/worker_v73.py:140-192 | whatever other calls do in between: a retryable failure or expired deadline is answered and leaves stored result and error as they were, any other is answered once it is on disk; a returned result is on disk; and a job with an outcome is left untouched and answered with it |
| BridgeWorkers.V73Worker.Execute | system/worker_v73.py:270-293 | a failure of the body is on disk if and only if it is not retryable and its code is not deadline_exceeded, unless that last write fails; the others leave stored result and error as they were |
| BridgeWorkers.V73Worker.CallDaemon | system/worker_v73.py:245-268 | a response comes back with the run marked over, or the call is left with a retryable failure |
| BridgeWorkers.V73Worker.UploadResult | system/worker_v73.py:311-385 | a result only after all its artifacts were uploaded, else the failure that stopped it |
| StableSorting.StableSortSorts | system/scheduler.py:101-102 | sorting orders by creation time, keeps all tasks, and keeps the order of tasks of the same moment |
| StableSorting.StablySortedIsUnique | system/scheduler.py:101-102 | a stably sorted list is determined by what it sorts |
| StableSorting.SortWithout | system/scheduler.py:106-107 | removing tasks and sorting commute |
| Scheduling.FrozenClockSorts | system/scheduler.py:97-104 | for one clock value the old and fresh lists together are the stably sorted buffer |
| Scheduling.BatchPickedOnce | system/scheduler.py:97-104 | no task is in a batch twice if and only if none is old by its first reading, fresh by its second, and has its fresh copy before the cut |
| Scheduling.BatchRepeats | system/scheduler.py:97-104 | any task is dispatched twice in one batch when the clock is set back between its two readings |
| Scheduling.PickedOnce | system/scheduler.py:97-104 | the uncut list has no task twice if and only if none is old by its first reading and fresh by its second |
| Scheduling.ForwardClockPicksOnce | system/scheduler.py:97-104 | with readings that never go back no task is picked twice |
| Scheduling.Conserved | system/scheduler.py:104-107 | batch and remaining buffer together are the whole buffer |
| Scheduling.BoundedWaiting | system/scheduler.py:85-109 | a task with r predecessors in the sorted buffer is dispatched exactly at tick r / batch_size when later arrivals are no older |
| Scheduling.WithinFourTicks | system/scheduler.py:88-91 | a buffered task waits for at most four ticks |
| Schedulers.FifoScheduler.NextBatch | system/scheduler.py:40-48 | a prefix of the queue, shorter than batch_size only when the queue ran empty |
| Schedulers.BatchingScheduler.NextBatch | system/scheduler.py:59-69 | a prefix of the queue of at most batch_size tasks, shorter only when the fill window is over, and if time passes only in waits for an empty queue, only when the queue ran empty |
| Schedulers.LatencyAwareScheduler.NextBatch | system/scheduler.py:85-109 | the buffer is topped up to four batches with as many tasks as the queue has; for any readings of a clock that does not go back the batch is what they pick and the buffer keeps the rest; for a still clock it is the front of the stably sorted buffer; nothing is lost or repeated |
| Schedulers.Scheduler.Tick | system/scheduler.py:154-168 | the batch is the one of the configured strategy: the front of the queue, short only when the queue ran empty or after 100 ms, or what two passes over the topped-up buffer pick; under any change of strategy, taken tasks are exactly those handed over plus those buffered |
| Schedulers.Scheduler.EachTaskOnce | system/scheduler.py:116-168 | every accepted task is in the queue, in the buffer or handed over, in one of them and once |
| BatchServers.WorkerServicer.Simulate | system/grpc_worker_server.py:64-182 | each requested task gets exactly one result, at most one after cancellation; every decision is made on a clock reading of this call: an expiry at or past, a prediction before, the time of receipt plus the budget of the last request with that id, and a prediction not before the batch's latency is over; the loop ends |
| BatchServers.WorkerServicer.Poll | system/grpc_worker_server.py:116-148 | results and active tasks stay a partition of the request; without cancellation it ends only when nothing is active or a reading has reached the batch's end, and every task still active was in time at the last pass |
| BatchServers.WorkerServicer.FirstPass | system/grpc_worker_server.py:81-94 | each task is checked on a reading of its own: those past their deadline are answered, exactly the others are kept |
| BatchServers.WorkerServicer.Complete | system/grpc_worker_server.py:150-182 | the last pass answers every task, on a reading not before the batch's end: expired, unusable or the square of its input |
| BatchServers.PassAccounts | system/grpc_worker_server.py:81-94 | what a pass answers and what it keeps are together the tasks it began with |
| BatchServers.WorkerServicer.Deadlines | system/grpc_worker_server.py:71-77 | tasks with the same id share the deadline of the last one |
| BatchServers.WorkerServicer.ProcessBatch | system/grpc_worker_server.py:51-62 | a closed gate refuses every task once; otherwise the handler is counted while it runs and not afterwards |
| BatchServers.WorkerServicer.ProcessBackend | system/grpc_worker_server.py:184-205 | the backend is asked once for each readable task, in order, with its id and its deadline; each task gets one result, in order: the answer to its own question or invalid_spec |
| DeploymentGates.IdleStaysTrue | system/deployment.py:22-34 | a snapshot showing draining with nobody active stays true until the marker is removed, whatever threads do |
| DeploymentGates.SealedRun | system/deployment.py:22-29 | from then on no handler is active or starts, in every run without a removal |
| DeploymentGates.InvRun | system/deployment.py:22-34 | the counter is the number of handlers, and one thread at a time is in the lock |
| DeploymentGates.DeploymentGate.Enter | system/deployment.py:22-26 | admission is refused exactly when a marker is there, and otherwise counted |
| DeploymentGates.DeploymentGate.TakeSnapshot | system/deployment.py:31-34 | the snapshot is taken under the lock, and an idle draining answer seals the gate |
| RolloutRuns.OpensConsistently | deploy/ci/deploy_platform.py:180-214 | in every run, however calls fail and whenever signals arrive, boundaries open only on the new release or on what was found, whole, unless a signal after line 200 starts a rollback that is broken off; for builds with different images exactly then a mixture is opened |
| RolloutRuns.MixtureOpened | deploy/ci/deploy_platform.py:197-213 | for any two builds with different images, a run that opens a mixture, removes the journal and reports that admission remains closed |
| RolloutRuns.RemainsClosed | deploy/ci/deploy_platform.py:201-213 | a reported rollback failure has left everything closed and the journal in place if and only if no signal struck at the end of either inner try; otherwise everything was opened |
| RolloutRuns.ClosureMisreported | deploy/ci/deploy_platform.py:202-208 | a run in which the rollback succeeded and reopened, and the report says that admission remains closed |
| RolloutRuns.JournalGoesLast | deploy/ci/deploy_platform.py:210-213 | in every run the journal is gone only when every boundary is open |
| RolloutRuns.EndingsHold | deploy/ci/deploy_platform.py:180-214 | a deployment that is reported has both services up on the image, the sha recorded, and the image recorded and pinned for both; one reported rolled back has what was found, both with every boundary open; a refused one changed nothing |
| Rollouts.Deployment.Run | deploy/ci/deploy_platform.py:180-214 | if run(sha, image) reports success, both containers are up on that image, and the record and the pins name that sha and image; its statements, calls, failures and signals make one of those runs, so all of the above holds of containers, record, pins and openings |
| Rollouts.Deployment.Switch | deploy/ci/deploy_platform.py:194-209 | the new release whole, what was found whole, a failed rollback or a signal, with both processes sealed throughout and reopening allowed after a failed rollback exactly if a signal struck at the end of a body |
| Rollouts.Runtime.WaitIdle | deploy/ci/deploy_platform.py:427-444 | when it returns, nobody is inside the gateway or the worker and nobody can get in |
| Rollouts.Runtime.EndDrain | deploy/ci/deploy_platform.py:395-405 | nothing is opened if any marker it tried to publish is foreign; on success every boundary is open |
| Rollouts.Runtime.Fence | deploy/ci/deploy_platform.py:380-393 | a marker is published only where none is, and its name is remembered even if the attempt fails |
| Rollouts.Runtime.Status | deploy/ci/deploy_platform.py:407-413 | an idle draining answer, taken while other threads go on, seals the process |
| Discovery.NoMissedChange | system/zookeeper_registry.py:174-233 | in every reachable state, if the published snapshot is not the tree, a wakeup, an event, a refresh, a retry or a reconnection is outstanding |
| Discovery.InvStep | system/zookeeper_registry.py:200-270 | every step keeps a refresh right so far unless something is on its way |
| Discovery.RefreshPublishes | system/zookeeper_registry.py:214-233 | a refresh left alone ends with the tree published |
| Discovery.RefreshAdvances | system/zookeeper_registry.py:214-233 | a refresh always has a next step that leaves less to do |
| WorkerDiscoveries.WorkerDiscovery.Refresh | system/zookeeper_registry.py:214-244 | it goes well exactly when no read was bad, and then the snapshot is what was read; after an applied snapshot an open pool has exactly its ids and states; a failed read keeps the last snapshot; a still registry is published as it is |
| WorkerDiscoveries.WorkerDiscovery.ReadWorkers | system/zookeeper_registry.py:235-244 | one read per child; it raises exactly when a read failed or could not be parsed, and a node that has vanished is left out |

## Left out

- FastAPI endpoints, request schemas, authentication, HTTP status mapping, metrics and the text worker's adapter: plumbing around the modelled queue, tasks and pool.
- gRPC, ZooKeeper's client library, PostgreSQL, the object store, Docker and the backend's own maintenance protocol are not part of this model; each is a step that returns a value or fails.
- SHA-256 and canonical JSON are uninterpreted; a specification is represented by its fingerprint.
- Rollouts.Runtime.EndDrain: does not model another deployer changing a marker between the ownership check and the removal; the host lock excludes it.
- BridgeWorkers.V73Worker.UploadResult: the manifest and path checks of an accepted response are one free verdict constrained only by the status, the required names and the kind of failure; the file contents behind a digest are not modelled.
- BridgeWorkers.V73Worker.Process: the waiting RPC thread, which passes the outcome on or gives up at its deadline and changes nothing, is left out.
- BridgeProtocol.InvStep: a crash is a crash of processes; a rename that returned is durable.
- GatewaySystem.ResultAttribution: assumes fresh attempt ids, as uuid4 gives in practice.
- JobGateways.JobGateway.Poll: in the class workers do not change a task in the middle of a pass; those interleavings are in GatewaySystem.
- WorkerPools.GrpcWorkerPool.UpdateWorkers: an existing proxy keeps its old address, as in the code, so only ids and routing states agree with the listing.
- WorkerPools.GrpcWorkerPool.Submit: one call at a time, at one clock reading; the interleavings of submit, dispatch, removal, handoff and shutdown are in ProxyProtocol and ProxyRuns.
- ProxyWorkers.ProxyWorker.Resubmit: candidates are tried in any order; that idle ones come first is in WorkerPools.GrpcWorkerPool.TryResubmit.
- ProxyWorkers.ProxyWorker.Process: status, deadline and kind of a task are read at one moment, as in the protocol's steps; the wait for the thread to end in stop is left out.
- GatewaySteps.SettleIsAStep: the object's task objects get numbers in the system by any given map.
- ProxyProtocol.StructuredStep: an RPC, its response and its errors are steps; a request that cannot be serialised is not modelled.
- Scheduling.BoundedWaiting: for one clock value per tick; with a moving clock a task can fall in neither list and waits for the next tick.
- Schedulers.Scheduler.Tick: producers put tasks between rounds, not in the middle of one; tasks stay buffered while another strategy is configured, as in the code.
- Schedulers.LatencyAwareScheduler.NextBatch: for a clock that does not go back; what other readings pick is in Scheduling.BatchPickedOnce.
- RolloutRuns.OpensConsistently: a kill or a power loss ends the run where it is and is not modelled as an exception; the journal that is left stops the next rollout.
- Discovery.NoMissedChange: watches are armed again in the same step as the reconnection notice; the client library's own bookkeeping is not part of this model, nor is the registration side.
- WorkerDiscoveries.WorkerDiscovery.Refresh: the pool callback does not raise.
- The local simulator, experiments, load generation, archive and layout checks, and the numeric prediction itself are left out: they would add only easy members.
