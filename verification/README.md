# Verification of the camera production tool

This project models the parts of the camera test and set-up tool in which a mistake is hard to see by reading
one function: the runtime that feeds device tasks to thread pools, the firmware batch engine, the reset codec and
packet scan, the connection search, the bisecting parameter reader, the password encoding, and the per-device
connection state. Everything is proved for all inputs, all runs or all reachable states.

Run `dafny verify dfyconfig.toml` in this directory.

## How the model is laid out

**Task runtime.** `Tasks` has tasks, lanes and the order of queue items. `Dispatch` describes selection over
sorted lanes and its laws, `Selection` says of each selected task why it was next, `Drain` says exactly when `run_until_idle` empties the lanes. `LaneHeap` is the binary
heap of one lane, and the class `TaskScheduler.Scheduler` runs on seven heaps and is proved to do what `Dispatch`
and `Drain` describe. `Runtime` is the whole concurrent protocol: callers, scheduler thread, workers, completion
queue, devices that are added, removed and disconnected at any moment. `RuntimeFlow` and `RuntimeLaws` prove what
every run keeps, `RuntimeBatches` what a connect batch reports, `RuntimeHistory` what no run takes back, and `RuntimeExamples` has runs after which a batch never
finishes. The methods of `AppSupervisor.Supervisor` and `DeviceActor.Actor` are proved to be steps of that protocol.

**Firmware.** `Firmware` is the batch engine as a timed protocol, in which uploads finish, clocks advance and users
start batches between any two steps of the supervisor thread. `FirmwareLaws`, `FirmwareRuns` and `FirmwareRetries`
prove its properties over runs, `FirmwareExamples` has runs that show which bounds are tight and which do not hold.
The class `FirmwareSupervisor.FirmwareBatchSupervisor` has the registry and `_runtime` as fields; its ghost field
`run` is a run of the protocol that every method extends, so the theorems apply to the class. `FirmwareRecords` says
what passes and rounds make of its records, and from that its `Loop` is proved to bring every batch to an end.

**Reset.** `Ctr` is counter mode over an arbitrary block cipher, `ResetKey` the reset key and its frame,
`ResetScan` the decisions on received packets, `SeedSweep` the order of seed times. `ByteArithmetic` has the
arithmetic of carries and remainders.

**Search and encoding.** `ConnectPlan` has the passwords and the (base, root, auth) combinations to try and their
order, `ConnectLog` the line to the camera, whose answers may depend in any way on all that went before, and what is
said about its log; `ConnectAttempt` tries one combination and `ConnectSearch` is the whole search. `InfoReader` is the bisecting reader, `Tenc` the password
encoding with Base64.

**Device state.** `DeviceState` has several threads that read, change and store one snapshot, interleaved in any
way. `DeviceActor` is the actor as a class. Between its steps the window may disconnect the device, remove it and
add it again, and the rest of the runtime goes on; what a worker does on the actor is proved to be the runtime's own
steps, so the results about runs of the runtime hold of the class.

`Text`, `Counting` and `Distinct` are small helpers.

## What turned out false, and what holds instead

* CONNECT commands only in the CONNECT lane do not make `run_until_idle` empty the lanes: an INFO_LOAD that is put
  into the CONNECT lane ahead of its CONNECT blocks it for ever (`Drain.MisplacedInfoIsNeverRun`). The lanes are
  emptied if and only if no choice of lane suffixes is stuck on its own (`Drain.DrainsIffNoKnot`), and always when
  the CONNECT lane holds nothing but CONNECT, as the command factory arranges (`Drain.FactoryDrains`).
* A connect batch does not always finish. With nothing of it left to run, it is unfinished if and only if it was
  empty or one of its tasks was lost (`RuntimeHistory.HangsIffDoomed`), and then it is unfinished in every later
  state (`RuntimeHistory.DoomedForever`). Four runs show how that comes about: an empty batch
  (`RuntimeExamples.EmptyBatchHangs`), a device removed while its task is queued
  (`RuntimeExamples.RemovedWhileQueued`), a refused submission (`RuntimeExamples.RefusedSubmission`) and an address
  that is blank once stripped (`RuntimeExamples.BlankAddress`).
* "Only failures are uploaded to again" does not hold of a list that names a target twice, which `start_batch`
  accepts: when one of its two jobs succeeds and the other fails, a retry uploads to the target again
  (`FirmwareExamples.SameTargetTwiceIsUploadedAgain`). An upload goes to a target that has succeeded in its chain of
  retries if and only if the target was asked for more often at first than now
  (`FirmwareRetries.UploadAfterSuccessIff`), so never when the targets are distinct.
* A firmware probe may start after its job's 180-second deadline, because the pass reads the clock once and earlier
  probes take time (`FirmwareExamples.ProbeCanStartAfterDeadline`). A probe that begins as soon as the pass reaches
  it is late if and only if an earlier probe of the same pass ended after the deadline
  (`FirmwareRuns.LateProbeIff`). The bound always holds for the time the pass read.
* With one upload slot two jobs can be shown as UPLOADING (`FirmwareExamples.TwoUploadingOnOneSlot`), so the bound
  of twice the slots cannot be improved.
* The two packet scans accept the same packets but may report different windows: exactly when the packet has at
  least 96 bytes, its marker does not name the target, a fixed place hits, and the strides hit too but pass that
  place over or hit before it (`ResetScan.ScansReportDifferentlyIff`; `ResetScan.ScansCanReportDifferently` shows a
  packet).
* A disconnect can be lost: a status poll that read the snapshot before the user disconnected stores it afterwards
  (`DeviceState.LostDisconnect`). A step does that if and only if it is the store of a writer that began before the
  disconnect was stored and either has connected or loaded, or read a connected snapshot and neither disconnects nor
  reports an error of the connection (`DeviceState.OnlyOvertakenStoresReconnect`).
* `tests/unit/test_scheduler_basic.py:124-126` and `:183-185` expect a dispatch to execute tasks; the code only
  selects and counts them (`application/core/task_scheduler.py:193`), and the model follows the code.

The success rule of `README_dev.md:434` (the connection broke once after the upload, and then SYS_VERSION was read)
is what `FirmwareRuns.SuccessWentDownAndCameBack` and `FirmwareRuns.VersionReadSucceedsIffDown` prove of the code.

## Model

| member | source | states |
|---|---|---|
| Tasks.InsertSorted | application/core/task_scheduler.py:26-35 | a new item goes to its place by higher priority, then lower arrival number, and the lane stays strictly in that order |
| Tasks.SortedUnique | application/core/task_scheduler.py:26-35 | the order is total: a lane's items determine its sequence, so heap and sorted lane show the same thing |
| LaneHeap.HeapPush | application/core/task_scheduler.py:55-55 | pushing keeps heap order and adds exactly the item |
| LaneHeap.HeapPop | application/core/task_scheduler.py:118-135 | popping gives the root, keeps heap order and loses nothing else |
| LaneHeap.RootIsHead | application/core/task_scheduler.py:112-112 | the root of a heap is the first item of the sorted lane |
| TaskScheduler.Scheduler.Enqueue | application/core/task_scheduler.py:46-55 | the heap then stores the sorted lane with the item inserted under the next arrival number; other lanes and marks are untouched |
| TaskScheduler.Scheduler.MarkTaskFinished | application/core/task_scheduler.py:69-73 | only this device's mark goes; "" is ignored |
| TaskScheduler.Scheduler.HasPendingConnectForDevice | application/core/task_scheduler.py:75-81 | true exactly when some lane holds a CONNECT for the device |
| TaskScheduler.Scheduler.IsBlockedByConnectPrerequisite | application/core/task_scheduler.py:83-106 | true exactly for a non-CONNECT of a known, session-less, unconnected device with a CONNECT queued |
| TaskScheduler.Scheduler.DropDeadTasks | application/core/task_scheduler.py:111-124 | the lane loses exactly its leading tasks that have no device or no actor |
| TaskScheduler.Scheduler.PopNextReadyTaskForLane | application/core/task_scheduler.py:108-139 | on heaps, the same task and the same state as the selection over the sorted lane |
| TaskScheduler.Scheduler.PickOne | application/core/task_scheduler.py:157-176 | the inner loop takes from the first lane, in order, that is below its limit and yields |
| TaskScheduler.Scheduler.DispatchReadyTasks | application/core/task_scheduler.py:141-181 | on heaps, refines the greedy selection over fully sorted lanes; of two tasks selected from one lane the first has the higher priority, or the same and was enqueued earlier |
| TaskScheduler.Scheduler.RunUntilIdle | application/core/task_scheduler.py:187-197 | on heaps, the same count and final state as the drain over sorted lanes, and a count at most one above the bound |
| Dispatch.DispatchLaws | application/core/task_scheduler.py:141-181 | devices picked are distinct, idle and not submitted before, both limits hold, marks grow by exactly those devices, and every lane loses exactly the picked tasks, in order, and dead ones |
| Dispatch.TakenBeforeLeft | application/core/task_scheduler.py:108-181 | what is taken from a lane has a higher priority than what is left in it, or the same and arrived earlier |
| Dispatch.TakenInOrder | application/core/task_scheduler.py:108-181 | what is taken from one lane comes out by priority, and in the order of arrival among equals |
| Selection.MayStartIff | application/core/task_scheduler.py:83-135 | a task may start exactly when its device has an actor, has nothing in flight, is not busy, and, unless it connects, does not wait for a queued CONNECT of a known device without session and connection |
| Selection.SelectedIsNext | application/core/task_scheduler.py:141-181 | each selected task was next: the first live one of its lane, allowed to start, its lane below its limit, and every earlier lane of the order CONTROL, CONNECT, INFO, hot polls, warm polls, firmware, UDP administration at its limit or with nothing that may start |
| Selection.NothingIsNext | application/core/task_scheduler.py:154-181 | when dispatch returns, every lane is at its limit or its first live task may not start |
| Dispatch.DispatchMaximal | application/core/task_scheduler.py:154-181 | on return every lane is empty, at its limit, or headed by a live task that must wait |
| Dispatch.DropKeepsBlocks | application/core/task_scheduler.py:83-124 | dropping dead tasks neither blocks nor unblocks a live one |
| Drain.RunCounts | application/core/task_scheduler.py:187-197 | the number returned is exactly the number of live tasks that left the lanes |
| Drain.RunIsBounded | application/core/task_scheduler.py:187-197 | each dispatch takes at most one CONNECT and one other task, so the number exceeds the bound by at most one |
| Drain.RunEndsEmptyOrStuck | application/core/task_scheduler.py:187-197 | a run that stops by itself leaves empty lanes, or lanes headed only by live tasks that wait for each other |
| Drain.RunKeepsKnot | application/core/task_scheduler.py:75-197 | no run ever takes a task out of a set of lane suffixes that is stuck on its own |
| Drain.DrainsIffNoKnot | application/core/task_scheduler.py:75-197 | `run_until_idle` that stops by itself has emptied every lane if and only if there was no knot |
| Drain.FactoryHasNoKnot | application/core/command_factory.py:17-70 | from idle actors and no marks, factory-built queues have no knot: the connect prerequisite strands nobody |
| Drain.FactoryDrains | application/core/task_scheduler.py:187-197 | such queues end empty, and the count returned is the number of tasks whose device has an actor |
| Drain.EnoughSteps | application/core/task_scheduler.py:187-197 | a step bound above the number of live tasks is never what stops the run |
| Drain.MisplacedInfoIsNeverRun | application/core/task_scheduler.py:83-130 | a concrete queue with CONNECT only in its lane on which the run returns 0 and leaves live tasks |
| RuntimeFlow.StepKeepsBalance | application/core/app_supervisor.py:114-248 | every step keeps: accepted = on its way + lost + drained, for tasks counted by device, batch or identity |
| RuntimeLaws.ReachableInv | application/core/app_supervisor.py:114-248 | every reachable state keeps single flight, actor idleness, conservation and the batch books together |
| RuntimeLaws.SingleFlight | application/core/app_supervisor.py:114-192 | in every run, the tasks of a device between dispatch and drain number one if it is marked submitted, else none |
| RuntimeLaws.NeverBusy | application/core/device_actor.py:107-109 | the "already busy" error is unreachable: a worker that has its actor always finds it idle |
| RuntimeLaws.NothingVanishes | application/core/app_supervisor.py:114-192 | every accepted task is in exactly one place, or recorded as lost or drained, exactly as often as accepted |
| RuntimeLaws.BatchAccounting | application/core/app_supervisor.py:194-248 | while a batch is stored, remaining + successes + failures is its size, and remaining counts its tasks still unfinished or lost |
| RuntimeLaws.FinishesExactlyOnce | application/core/app_supervisor.py:219-227 | the finishing branch fires at most once, and has fired exactly when the batch is non-empty and none of its tasks is unfinished or lost |
| RuntimeBatches.ListsAreCompletions | application/core/app_supervisor.py:194-222 | in every run, the success list of a batch, stored or finished, holds the stripped addresses of its drained completions that were ok, in the order they were drained, and the failed list those of the others |
| RuntimeBatches.ListedDevicesRan | application/core/app_supervisor.py:157-192 | each device so listed was the target of a CONNECT of that batch which ended with that outcome: a success is a handler that returned on a device whose snapshot is there |
| RuntimeBatches.FinishQueuesReloads | application/core/app_supervisor.py:219-248 | the completion that finishes a batch opened with auto-info queues, for each distinct success that is connected with a session, an INFO_LOAD of priority 40 and a hot poll of priority 20, in the order of first success; every other completion queues nothing |
| RuntimeLaws.QuietIsIdle | application/core/app_supervisor.py:114-192 | with nothing in flight no device is marked and every registered actor is idle |
| RuntimeLaws.QuietRuntimeMovesOn | application/core/app_supervisor.py:114-144 | with nothing in flight, a dispatch over lanes in the factory's shape that selects nothing leaves them empty, and no live task was queued |
| RuntimeLaws.DispatchIsPicks | application/core/task_scheduler.py:141-181 | a whole dispatch is some sequence of single picks of the protocol |
| RuntimeHistory.FactoryRunsDoNotDeadlock | application/core/app_supervisor.py:114-144 | no deadlock, over runs: when every task enqueued came from the factory and nothing is in flight, a dispatch that selects nothing leaves empty lanes, and no live task was queued |
| RuntimeHistory.HangsIffDoomed | application/core/app_supervisor.py:219-227 | with nothing of a batch left to run, it is still stored if and only if it was empty or one of its tasks was lost |
| RuntimeHistory.DoomedForever | application/core/app_supervisor.py:114-248 | an empty batch, or one that lost a task, is stored and unfinished in every later state of the run |
| RuntimeExamples.EmptyBatchHangs | application/core/app_supervisor.py:300-327 | opening an empty batch leaves it stored with nothing to run |
| RuntimeExamples.RemovedWhileQueued | application/core/task_scheduler.py:111-124 | a run in which the device is removed while its CONNECT is queued, the next pick drops the task, and the batch hangs |
| RuntimeExamples.RefusedSubmission | application/core/app_supervisor.py:130-144 | a run in which the executor refuses the only task of a batch, and the batch hangs |
| RuntimeExamples.BlankAddress | application/core/app_supervisor.py:199-201 | a run in which the only task of a batch completes but its address is blank once stripped, and the batch hangs |
| RuntimeExamples.HangsForEver | application/core/app_supervisor.py:114-248 | each of these batches is unfinished in every continuation of its run |
| AppSupervisor.Supervisor.EnqueueConnectBatch | application/core/app_supervisor.py:300-327 | a new batch of the right size is stored before its CONNECT tasks, of priority 50, are enqueued one by one in order: the run grows by exactly those steps, and the lanes hold exactly what they held with the tasks inserted |
| AppSupervisor.Supervisor.HandleConnectCompletion | application/core/app_supervisor.py:194-248 | the stripped address joins the list of successes or of failures by the outcome, the counter goes down, the last one removes the batch, and reloads are queued as in the protocol; without batch or with a blank address nothing changes |
| AppSupervisor.Supervisor.DrainCompletionQueue | application/core/app_supervisor.py:179-192 | empties the queue by one protocol step for every completion, in order, with the devices connected at that moment |
| AppSupervisor.Supervisor.SubmitAll | application/core/app_supervisor.py:130-144 | a selected task is in the pool exactly when its executor is there and accepts it, and otherwise released and lost |
| AppSupervisor.Supervisor.SchedulerPass | application/core/app_supervisor.py:114-144 | after draining, exactly the tasks that a dispatch with limits 8 and 4 then selects are submitted, those whose executor accepts them are in the pool, and only the refused ones and dead ones dropped are lost; the whole pass is a run of the protocol |
| FirmwareLaws.ProbeInTime | application/firmware/firmware_batch_supervisor.py:296-318 | 5-second spacing against a 180-second deadline leaves room for at most 36 attempts |
| FirmwareLaws.StepKeepsJobs | application/firmware/firmware_batch_supervisor.py:194-354 | every step keeps, for every job, which states go with which future, attempt number and schedule |
| FirmwareLaws.StepKeepsSlots | application/firmware/firmware_batch_supervisor.py:207-286 | every step keeps the bounds on unfinished and shown uploads of its phase |
| FirmwareLaws.StepKeepsBlocks | application/firmware/firmware_job_registry.py:36-128 | batches stay consecutive and non-empty, and only the last one has jobs that still move |
| FirmwareLaws.StepKeepsRetries | application/firmware/firmware_job_registry.py:75-128 | a retry batch keeps exactly the failed targets of the batch before it, in order |
| FirmwareRuns.RunInv | application/firmware/firmware_batch_supervisor.py:178-192 | all of these hold in every state of every run |
| FirmwareRuns.UploadSlots | application/firmware/firmware_batch_supervisor.py:207-286 | with P slots at most P uploads are unfinished, at most 2P jobs show UPLOADING, and at most P after each collect pass |
| FirmwareRuns.RunAdvances | application/firmware/firmware_batch_supervisor.py:194-354 | states only move forward, and every change of state or attempt number strictly raises the rank |
| FirmwareRuns.FewChanges | application/firmware/firmware_batch_supervisor.py:194-354 | a job changes at most 40 times in any run |
| FirmwareRuns.RoundsAreCounted | application/firmware/firmware_batch_supervisor.py:178-192 | a state tells how many rounds of the loop have ended before it |
| FirmwareRuns.TerminalForever | application/firmware/firmware_batch_supervisor.py:194-354 | SUCCESS and FAILED are final |
| FirmwareRuns.SubmittedOnce | application/firmware/firmware_batch_supervisor.py:216-245 | each job's upload is submitted at most once |
| FirmwareRuns.ReconnectBound | application/firmware/firmware_batch_supervisor.py:19-21 | the k-th probe is decided at or after collection + 5k s and not after collection + 180 s, so k is at most 36 |
| FirmwareRuns.TimedOutIsLate | application/firmware/firmware_batch_supervisor.py:296-306 | a job is given up for its device not coming back only by a pass more than 180 s after its upload was collected |
| FirmwareRuns.FewProbes | application/firmware/firmware_batch_supervisor.py:288-354 | no run probes a job more than 36 times |
| FirmwareRuns.LateProbeIff | application/firmware/firmware_batch_supervisor.py:288-319 | the pass reaches a job it probes after the job's deadline if and only if an earlier probe of the same pass ended after that deadline; a probe starts late exactly then, or by a pause across the deadline |
| FirmwareRuns.SuccessWentDownAndCameBack | application/firmware/firmware_batch_supervisor.py:260-352 | a job in SUCCESS has in its history a disconnect at upload or a failed probe, and later a successful version read |
| FirmwareRuns.VersionReadSucceedsIffDown | application/firmware/firmware_batch_supervisor.py:331-352 | a version read succeeds the job if and only if the device was seen down before |
| FirmwareRetries.TerminalJobsSplit | application/firmware/firmware_job_registry.py:119-128 | the targets of a terminal batch are its successes and failures, as multisets |
| FirmwareRetries.RetryConservation | application/firmware/firmware_batch_supervisor.py:152-176 | along a chain of retries, targets first asked for = all successes + what the last batch tries (its failures, once terminal) |
| FirmwareRetries.UploadAfterSuccessIff | application/firmware/firmware_batch_supervisor.py:152-176 | for any list of targets: an upload goes to a target that already succeeded in its chain if and only if the target was asked for more often at first than in the current batch |
| FirmwareRetries.NoUploadAfterSuccess | application/firmware/firmware_batch_supervisor.py:152-176 | so when the targets first asked for are distinct, none that succeeded in its chain is ever uploaded to again |
| FirmwareRetries.OldJobsAreTerminal | application/firmware/firmware_batch_supervisor.py:123-125 | every job outside the current batch is terminal |
| FirmwareExamples.TwoUploadingOnOneSlot | application/firmware/firmware_batch_supervisor.py:216-257 | a run on one slot with two jobs UPLOADING |
| FirmwareExamples.ProbeCanStartAfterDeadline | application/firmware/firmware_batch_supervisor.py:288-319 | a run in which a probe starts after its job's deadline |
| FirmwareExamples.SameTargetTwiceIsUploadedAgain | application/firmware/firmware_job_registry.py:50-68 | a run over a list that names a target twice, in which the retry uploads to it after it succeeded |
| FirmwareSupervisor.FirmwareBatchSupervisor.constructor | application/firmware/firmware_batch_supervisor.py:33-39 | the parallelism is the default when that lies between one and the maximum, the maximum when the default exceeds it, and one when either is below one |
| FirmwareSupervisor.FirmwareBatchSupervisor.CanStartBatch | application/firmware/firmware_batch_supervisor.py:123-125 | true exactly when there is no batch or the current one is non-empty and terminal |
| FirmwareSupervisor.FirmwareBatchSupervisor.StartBatch | application/firmware/firmware_batch_supervisor.py:127-150 | which error comes first, and otherwise exactly the requested targets as a new current batch |
| FirmwareSupervisor.FirmwareBatchSupervisor.RetryFailedOnly | application/firmware/firmware_batch_supervisor.py:152-176 | which error comes first, and otherwise exactly the current failures, in order, as a new batch |
| FirmwareSupervisor.FirmwareBatchSupervisor.PromoteQueuedJobs | application/firmware/firmware_batch_supervisor.py:194-205 | every queued job of the current batch becomes pending and no other job changes |
| FirmwareSupervisor.FirmwareBatchSupervisor.ActiveUploadCount | application/firmware/firmware_batch_supervisor.py:207-214 | the count lies between the unfinished uploads at the end and at the beginning of the count |
| FirmwareSupervisor.FirmwareBatchSupervisor.SubmitUploads | application/firmware/firmware_batch_supervisor.py:216-245 | the first pending jobs in order, as many as free slots, start uploading and no other job changes; the run shows where the pass began, with how many slots |
| FirmwareSupervisor.FirmwareBatchSupervisor.CollectUploadResults | application/firmware/firmware_batch_supervisor.py:247-286 | the run goes on with the beginning of the pass; uploads that had finished by then become REBOOTING with their deadline, or FAILED, and afterwards at most P jobs show UPLOADING |
| FirmwareSupervisor.FirmwareBatchSupervisor.ProcessReconnectJobs | application/firmware/firmware_batch_supervisor.py:288-354 | the run goes on with the beginning of the pass at its one clock reading and ends with it; every waiting job past its deadline at that time is FAILED, every due one was probed and is a SUCCESS exactly when its device answered and was seen down before, and no other job changes |
| FirmwareSupervisor.FirmwareBatchSupervisor.Round | application/firmware/firmware_batch_supervisor.py:178-185 | the run grows by one round: the events at which its passes begin, and the records, futures and times they began with, are those of the run; each job goes through the four passes in order; afterwards no current job is queued, every job that had been waiting past its deadline when the reconnect pass began has failed, every other one that was due has been probed, at most P jobs show UPLOADING, and without progress no job changed |
| FirmwareSupervisor.FirmwareBatchSupervisor.Loop | application/firmware/firmware_batch_supervisor.py:178-192 | the run grows by exactly the given number of rounds, one after the other; a batch ends: whatever the devices answer, after twice as many rounds as it has jobs in which no upload runs when the collect pass begins, among any others, and one more round whose reconnect pass begins over 180 s after the one before, every job is terminal and a new batch can start |
| FirmwareRecords.PickedAreFirst | application/firmware/firmware_batch_supervisor.py:216-245 | as many pending jobs are picked as there are free slots, and none before one with a lower id |
| FirmwareRecords.RoundBringsOn | application/firmware/firmware_batch_supervisor.py:178-354 | a round over finished uploads leaves strictly less to do before every job waits or has ended, no round leaves more, and no deadline is set further ahead than 180 s |
| FirmwareRecords.RoundsTell | application/firmware/firmware_batch_supervisor.py:178-192 | of a sequence of rounds in a run, which passes found no running upload and when they began is what the run's events and states say |
| Ctr.IncAddsOne | infra/reset/truen_reset_service.py:336-340 | a counter step adds one to the big-endian number modulo 2 to the 128th, carry included |
| Ctr.IncCounter | infra/reset/truen_reset_service.py:336-340 | the in-place loop with early exit is that step |
| Ctr.CounterIsNonceAndIndex | infra/reset/truen_reset_service.py:344-344 | block j of any feasible message is the nonce followed by j in eight bytes (section 6.5 of NIST SP 800-38A) |
| Ctr.XCrypt | infra/reset/truen_reset_service.py:343-352 | each output byte is its input byte xor its byte of the key stream |
| Ctr.CryptAt | infra/reset/truen_reset_service.py:343-352 | byte k of the result is byte k of the data xor byte k mod 16 of the encryption of the nonce "fprintf(" followed by k / 16 in eight bytes |
| Ctr.CryptIsInvolution | infra/reset/truen_reset_service.py:343-352 | for any length the transform is its own inverse |
| Ctr.CryptOfPrefix | infra/reset/truen_reset_service.py:343-352 | it commutes with taking prefixes |
| ResetKey.RandBytes | infra/reset/truen_reset_service.py:355-362 | there are states, the first the seed modulo 2 to the 32nd and each next one 214013 times the last plus 2531011 modulo 2 to the 32nd, and byte i is state i + 1 divided by 65536, modulo 256 |
| ResetKey.BytesOfSeedOne | infra/reset/truen_reset_service.py:355-362 | for seed 1 the first five bytes are 41, 35, 190, 132, 225 |
| ResetKey.SameBytesModulo24 | infra/reset/truen_reset_service.py:355-362 | the bytes depend only on the seed modulo 2 to the 24th |
| ResetKey.SeedPostprocess | infra/reset/truen_reset_service.py:365-371 | bytes 0 to 25 kept, then 0xFE and five bytes of the generator, all xored with 0x5A |
| ResetKey.BuildWriteReq64 | infra/reset/truen_reset_service.py:424-430 | the complete layout of the 64-byte frame |
| ResetKey.KeyFieldRoundTrip | infra/reset/truen_reset_service.py:365-376 | decrypting and unmasking the frame's key field gives the kept bytes, the mark and the generated bytes back |
| ResetKey.WriteRequest | infra/reset/truen_reset_service.py:899-901 | of every frame the sweep sends: header and MAC stand in their places, and decrypting the key field and xoring with 0x5A gives 26 bytes of the seed, 0xFE and the five bytes of the generator |
| ResetScan.HitIffMasked | infra/reset/truen_reset_service.py:398-408 | a window decrypts to the MAC exactly when it begins with MAC xor key stream |
| ResetScan.BruteFind | infra/reset/truen_reset_service.py:398-408 | the loop finds the first hit in strides |
| ResetScan.FirstHitIsLeast | infra/reset/truen_reset_service.py:398-408 | that is the least hit among multiples of the stride, and none is missed |
| ResetScan.PickCandidates | infra/reset/truen_reset_service.py:383-395 | offset 32 and the last window, where they fit, without repeats |
| ResetScan.ScanForTarget | infra/reset/truen_reset_service.py:563-590 | the decision of the plain scan on any packet |
| ResetScan.ScanForTargetWithHint | infra/reset/truen_reset_service.py:650-690 | the decision of the hinted scan on any packet and any marker |
| ResetScan.ScansAcceptTheSame | infra/reset/truen_reset_service.py:563-690 | both accept exactly the packets of at least 64 bytes that begin with 23 68 54 10 and have a hit at a tried offset, for every stride, and report a hit |
| ResetScan.StrideOneAcceptsAnyWindow | infra/reset/truen_reset_service.py:563-690 | with stride one: exactly those holding MAC xor key stream at some offset up to length - 32 |
| ResetScan.LongPacketsReportTheLeastHit | infra/reset/truen_reset_service.py:563-579 | from 96 bytes on the plain scan reports the least hit in strides, even when a fixed place hits |
| ResetScan.ShortPacketsReportFixedPlaces | infra/reset/truen_reset_service.py:581-590 | below that both scans report offset 32 first, then the last window, and agree |
| ResetScan.ScansReportDifferentlyIff | infra/reset/truen_reset_service.py:563-690 | the two report different windows if and only if the packet is a long response whose marker does not name the target, a fixed place hits, and the strides hit but pass that place over or hit before it |
| ResetScan.ScansCanReportDifferently | infra/reset/truen_reset_service.py:563-690 | a packet on which they report offsets 4 and 32 |
| ResetScan.ScanBatch | infra/reset/truen_reset_service.py:754-806 | a packet yields a hit exactly when some target not yet found has one, and the hit is real: on a long packet that of the target its marker names, else one at 32 or in the last window, else that of the first target in the list that the strides find |
| SeedSweep.SeedOffsets | infra/reset/truen_reset_service.py:890-894 | the list is 0, -1, 1, -2, 2, and so on |
| SeedSweep.SweepVisitsOnce | infra/reset/truen_reset_service.py:890-894 | every offset from -n to n comes exactly once, nearest first |
| SeedSweep.Sweep | infra/reset/truen_reset_service.py:896-926 | whatever the stop requests and acknowledgements depend on: offsets are tried in order until the first stop or acknowledgement; a success comes after every nearer offset, and a failure that was not stopped has tried them all |
| Tenc.Base64RoundTrip | application/services/connect_service.py:65-67 | decoding undoes encoding for every byte string (section 4 of RFC 4648) |
| Tenc.LettersInOrder | application/services/connect_service.py:65-67 | the alphabet is A to Z, a to z, 0 to 9, plus and slash |
| Tenc.TencRoundTrip | application/services/connect_service.py:65-80 | dropping two characters, undoing the URL alphabet, padding and decoding gives every password's bytes back |
| Tenc.PrefixIsLetters | application/services/connect_service.py:78-80 | the two characters in front are the last and the middle letter, never padding, both accesses are in range, and after them come the letters with minus for plus and underscore for slash |
| Tenc.TencIsInjective | application/services/connect_service.py:65-80 | different passwords have different encodings |
| Tenc.TencOfFactoryPassword | application/services/connect_service.py:65-80 | the encoding of 1234 is AzMTIzNA |
| InfoReader.ChunksJoin | infra/device/info_repository.py:120-122 | the chunks are the keys, in order, and more than one when the group is larger than a chunk |
| InfoReader.Client.ReadBestEffort | infra/device/info_repository.py:125-144 | ends, returns exactly the non-blank keys, in at most 2n - 1 requests, of which the first asks for all keys and a second for a chunk of at most half of them, and equals reading one by one when failures are groupwise |
| InfoReader.Client.ReadSplit | infra/device/info_repository.py:138-144 | the chunks of a failed group cost at most 2n - 2 more requests and merge to the same result |
| ConnectPlan.UniqueKeepOrder | application/services/connect_service.py:83-91 | the loop keeps each stripped, non-blank item at its first place |
| ConnectPlan.UniquesAreTheItems | application/services/connect_service.py:83-91 | and nothing but those, without repeats |
| ConnectPlan.CandidatePasswords | application/services/connect_service.py:132-162 | recovery exactly for 1234 and admin, the entered one first; any other entered password alone; with none entered, 1234, admin, the configured or default passwords and !Camera1108, each once, without blank ones |
| ConnectPlan.BasesAreCovered | infra/network/probe.py:31-56 | the bases are http and https on the given port, on 443 and on 80, and nothing else |
| ConnectPlan.BasesInOrder | infra/network/probe.py:31-56 | the given port comes before 443 and 80, and https before http exactly on 443 and 8443 |
| ConnectPlan.NormalizedRoot | infra/network/probe.py:10-18 | a root is stripped and put between slashes, and a blank one is /httpapi/ |
| ConnectPlan.RootsInOrder | infra/network/probe.py:59-66 | the probed root first, then /httpapi/ and /httpapx/, each once |
| ConnectPlan.AuthsInOrder | application/services/connect_service.py:675-682 | the probed auth scheme first, then digest, basic and none, each once |
| ConnectPlan.InBaseRows | application/services/connect_service.py:691-704 | the fallback covers exactly all combinations of its candidates but the one tried before |
| ConnectPlan.BaseRowsOnce | application/services/connect_service.py:691-704 | and none twice |
| ConnectPlan.BaseRowsInOrder | application/services/connect_service.py:691-704 | by base, then by root, then by auth scheme, each in the order of its candidates |
| ConnectPlan.PlanCovers | application/services/connect_service.py:650-704 | the whole plan holds the probed combination and every combination of the candidates, and nothing else |
| ConnectAttempt.ReadEssentials | application/services/connect_service.py:165-169 | success means that the last three exchanges read the three essential keys; a failure is the last reply, and then they were never read in full |
| ConnectAttempt.VerifyAfterPasswordChange | application/services/connect_service.py:241-271 | it only reads, with the new password, testing it one to eight times; success means the essentials were just read, failure comes after the eighth test and is the last error |
| ConnectAttempt.ChangePassword | application/services/connect_service.py:308-383 | a key that the camera offers and that encrypts is used at once to ask for the change, and otherwise, or if that fails, the other encoding is; success means that a change was accepted and the new password has just been read with, failure is the last error or a refusing body, and once it has been read with no further change is asked for |
| ConnectAttempt.AttemptCandidateCombo | application/services/connect_service.py:423-574 | exactly when it connects, is refused or raises: without a password change it connects at the first full read of the essentials with a version, and a refusal means that they were never read in full but for a blank version at its end, that every password was tested unless the last exchange is a transport miss, and it carries the last refusal or else that miss; with recovery the first default password reported is changed, and then it connects after two reads with the new password or is refused as the change was |
| ConnectSearch.FirstFailureIsFirst | application/services/connect_service.py:722-730 | the failure kept is the first that is not a transport miss |
| ConnectPlan.PlanHasNoRepeats | application/services/connect_service.py:650-704 | no combination is planned twice, the probed one included |
| ConnectSearch.BlocksAreContiguous | application/services/connect_service.py:585-747 | a log that falls into blocks for combinations tried once never comes back to a combination after another |
| ConnectSearch.Fallback | application/services/connect_service.py:688-727 | tries its combinations in order until one is not refused, and keeps the first real failure and the last miss |
| ConnectSearch.RunPhase1 | application/services/connect_service.py:585-747 | which passwords are tried, and from which to which one is changed, is as entered and configured; every attempt ends as its own exchanges decide; a search reports a refusal only when no combination showed a version but those on which a password change was asked for; connections are truthful, no combination is tried twice and the log goes through the plan in order, one block of exchanges for each; the first default password reported on a combination is changed, and only from 1234 or admin; a vain search reports its first real failure, else the one on the probed combination, else the last |
| ConnectSearch.BlocksUnshown | application/services/connect_service.py:585-747 | from the blocks of the log: a combination whose attempt was refused, and on which no password change was asked for, never answered the three essential reads with a version |
| DeviceState.EverySnapshotIsPaired | application/core/device_actor.py:192-361 | however updates interleave, every snapshot stored is connected exactly when READY |
| DeviceState.HeldIsNotConnected | application/core/device_actor.py:71-105 | a held device whose disconnect was stored is not connected unless an overtaken writer stored a connected snapshot |
| DeviceState.OnlyOvertakenStoresReconnect | application/core/device_actor.py:271-361 | a step leaves a held device connected if and only if it is the store of a writer that began before the disconnect was stored and has connected or loaded, or read a connected snapshot and neither disconnects nor reports one of the five errors of the connection |
| DeviceState.AtomicUpdatesRespectTheHold | application/core/device_actor.py:71-361 | with each update one step, a held device is not connected until a later connect lifts the hold |
| DeviceState.LostDisconnect | application/core/device_actor.py:315-361 | a run that ends with a held and connected device |
| DeviceActor.Actor.HasSession | application/core/device_actor.py:61-69 | answers true exactly when a handler that asks for a session in the same state gets one, which is what `RequireSession` is proved against |
| DeviceActor.Actor.Disconnect | application/core/device_actor.py:71-105 | sets the hold, drops the session, stores DISCONNECTED, and clears the command state only of an idle actor |
| DeviceActor.Actor.RequireSession | application/core/device_actor.py:240-260 | succeeds exactly when `HasSession` says so, with the old session or one built from the snapshot, and never on a held device |
| DeviceActor.Actor.Enter | application/core/device_actor.py:107-127 | entering is the protocol's step: a held device is skipped unless the task connects, a busy actor refuses unchanged, and a missing snapshot leaves it busy |
| DeviceActor.Actor.HandleConnect | application/core/device_actor.py:205-238 | an error of the search is raised; otherwise the hold is lifted by the protocol's step, an incomplete address is a "param" error, and success stores READY with the address of the session it built; other threads may run before it |
| DeviceActor.Actor.HandleOther | application/core/device_actor.py:240-402 | without a session the error of `RequireSession`, other commands a "param" error, else what the camera answers; READY is stored after information or a status was read, unless the device has been disconnected meanwhile, and nothing else changes |
| DeviceActor.Actor.Leave | application/core/device_actor.py:129-203 | leaving is the protocol's step: the actor is idle, the outcome is that of the handler (any other exception counts as "runtime"), its kind is stored, and the snapshot is AUTH_FAILED after "auth", DISCONNECTED after "timeout", "network", "http" and "disconnect", and as it was otherwise; without a snapshot it stays busy |
| DeviceActor.Actor.ExecuteTask | application/core/device_actor.py:160-190 | a worker's call is a run of the runtime protocol from entering to leaving the actor, with other threads in between; it never finds the actor busy; a held device runs connects only; the handler comes to what the search or the camera answers, and the actor ends idle with that outcome and with its kind and state stored, unless the device was gone when it was needed, and then it stays busy for good |

## Left out

- `due_at`: the command factory never sets it, so every item is due at once and ties never reach it.
- The EMERGENCY lane and any lane outside `LANE_ORDER`: the scheduler has no queue for them and nothing enqueues there.
- Exceptions inside dispatch or inside the loops: the model assumes none; the supervisor loop would log them and go on, and in the firmware loop an exception between two passes could break the bound of twice the slots.
- Pool sizes: accepted tasks are started by workers in any order, which covers every size; an executor may refuse any submission.
- `Runtime.AddDevice`: adding a device is one step, as all additions come from the window's thread.
- Batch error messages, log lines, UI dirty marks, `finished_at` and other time stamps: a failed upload's future is not cleared, so its job is marked FAILED again on every pass and those values are not stable.
- Firmware probes are assumed to fail only with `AppError`, and clock reads never to decrease and never to be negative.
- `FirmwareSupervisor.FirmwareBatchSupervisor.StartBatch`: batches are started between rounds of the class; in the protocol they may be started between any two steps.
- `AppSupervisor.Supervisor.EnqueueConnectBatch`: no other thread runs inside the call; in the protocol any step may come between storing the batch and each enqueue.
- `AppSupervisor.Supervisor.DrainCompletionQueue`: the same holds, any step may come between two completions.
- `AppSupervisor.Supervisor.SubmitAll`: the same holds, workers may start and end between two submissions.
- `AppSupervisor.Supervisor.SchedulerPass`: the same holds of a whole pass, which runs alone here; in the protocol its drains, picks and submissions are single steps.
- `FirmwareSupervisor.FirmwareBatchSupervisor.Loop`: takes the number of rounds instead of a stop request, and starts no batch between them, which would be refused until the current one has ended.
- `FirmwareSupervisor.FirmwareBatchSupervisor.CollectUploadResults`: the entries of `_runtime` are visited by ascending job id, which is their insertion order.
- The upload itself, the text test for a broken connection, failure codes and messages: the upload's outcome is arbitrary.
- AES: the block cipher is a parameter of every result, so they hold for any.
- Sockets, packet pumps, waiting times and the marker heuristic for MACs: the marker is an arbitrary input, and stop requests and acknowledgements are arbitrary answers to what has been tried so far.
- `ResetKey.SeedPostprocess`: takes seeds of exactly 32 bytes, which is what decrypting a window always gives.
- UTF-8 encoding of passwords: `Tenc` starts from the bytes.
- Text tests on error messages and HTTP statuses, `parse_kv_lines`, the RSA encryption, the probe itself and the Security 3.0 bootstrap: arbitrary answers.
- `ConnectAttempt.ChangePassword`: a change request carries the passwords themselves, not their encoded form, which `Tenc` covers.
- `ConnectSearch.RunPhase1`: the message of the final "probe/connect failed" answer is not modelled, because that answer is proved unreachable.
- Snapshot fields other than state, connection, address and command; formatters; the paging of videos; SetIP; discovery heuristics; digest headers: lookups and straight-line code.
- `DeviceActor.Actor.ExecuteTask`: other threads run between its steps but not inside the read-change-store of a snapshot; `DeviceState` covers that. The state, connection and command fields of a snapshot are the actor's; what handlers read from a camera is arbitrary.
- Removal of a device is not in `DeviceState`: a writer whose device is gone raises an error and stores nothing.
