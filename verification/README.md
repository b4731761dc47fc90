# A verified model of the oz agent worker

The worker connects to a server, takes task assignments and prewarmed ("standby")
sandboxes, runs them on a backend (Docker, Kubernetes, a direct process or a command), and
reports what became of them. This project models the parts of it where several things
happen at once or where replies get lost, and proves what they promise for every input,
every run and every interleaving. `dafny verify dfyconfig.toml` checks everything.

How the files hang together:

- `Options`, `Sequences`: a value that may be missing, and facts about sequences.
- `ReplayCache`: the bounded record of finished work that both the task side and the
  standby side keep (4096 entries, first in, first out).
- `WorkerState`, `WorkerProtocol`, `StandbyProtocol`, `WorkerMachine`: the worker as a step
  relation. Each region held under `tasksMutex` is one step, each goroutine has a program
  counter, each semaphore and the wait group is a counter, each context is a flag whose
  first cause wins. Any number of message handlers, executions, cancellers, standby
  runners and watcher reports interleave freely; the backend answers as it likes.
- `WorkerInvariant`, `WorkerSteps`, `WorkerReplay`, `WorkerOrigins`: the inductive
  invariant and its preservation, step by step.
- `WorkerTheorems`, `WorkerReach`, `WorkerAnswers`, `StandbyReach`: what therefore holds in
  every run, what requests, acceptances and shutdown reach, and what becomes of every
  assignment, record, canceller and standby.
- `Worker`, `Standbys`: the same critical sections as methods of classes that update the
  worker's fields in place, each proved to take exactly the protocol's step.
- `JobApi`, `JobRuns`: the Kubernetes API server under interference, with a log of the calls
  and replies, and what a run, an expiry and a cancellation do to a Job.
- `SidecarVolume`, `ContainerTracking`: the Docker backend's volume cache and its record
  of containers.
- `LineWriter`, `LogFrames`, `Redaction`, `Redactor`: the log path.
- `KubernetesNames`: Job names and label values.
- `SetupPhases`, `PodSnapshots`, `SetupTracker`: what observations of a task's setup amount
  to, what a pod snapshot says, and the tracker that applies it in place.
- `OutboundQueue`: senders, closers and the write loop at one bounded channel.

## Assumptions

- A context that is derived from another ends some time after it, as a step of its own;
  timers, retries and deadlines may fire at any moment.
- The backend's `ExecuteTask` may complete, fail or report a spawned task, `CancelTask`
  may succeed or fail; both return at any time.
- Retries are limited by a number of attempts that the backoff and the context allow; the
  backoff itself belongs to a library.
- The API server gives every write a revision that is newer than all before, and a watch
  may deliver any state that a name once had. A request may fail before or after it took
  effect; a "not found" reply is truthful.
- A Docker engine call takes effect, or not, before its reply; a definite reply is
  truthful, any other leaves both possible. Volumes present at start are complete, nobody
  else removes or writes them, and populating reports success only for full contents.
  A status without an error of its own is delivered only for a container that stopped.
- Query and JSON escaping are arbitrary functions of the value.

## Findings

- Completions with an empty execution ID are not remembered (`internal/worker/worker.go:655`).
  An execution is known after its end exactly if it has an execution ID
  (`WorkerTheorems.SettledIsKnown`), and otherwise its next assignment is admitted again
  (`WorkerTheorems.NextAssignmentAdmitted`), so the at-most-once law is about non-empty IDs.
- The watcher's test for a local runner is not atomic with its report. At most one message
  per retained record holds all the same, because recording and testing the record are one
  region (`Standbys.StandbyRegistry.RecordStandbyExit`).
- A container can escape cancellation when an execution is run again
  (`ContainerTracking.RerunCanLose`): exactly if a container of it is still running then
  (`ContainerTracking.RerunLosesContainer`). None is when the execution is untracked.
- Two different executions can share a Job name (`KubernetesNames.JobNameCollision`):
  exactly if one execution fragment overlaps the other's name
  (`KubernetesNames.JobNameSeparates`), which no hexadecimal one does
  (`KubernetesNames.HexNamesSeparate`). Cancellation compares the Job's labels as well.

## Model

| member | source | states |
|---|---|---|
| `ReplayCache.PutTracks` | internal/worker/worker.go:654-670 | Recording keeps the list equal to the newest 4096 insertions ever made, listing exactly the map's keys, with equal keys more than 4096 insertions apart |
| `ReplayCache.NewestDistinct` | internal/worker/worker.go:661-667 | The retained list has no duplicates and at most 4096 keys |
| `ReplayCache.RecordedUnlessEvicted` | internal/worker/worker.go:661-669 | A key that was ever recorded is recorded now exactly if fewer than 4096 insertions followed its latest one |
| `ReplayCache.EvictionNeedsDistinctKeys` | internal/worker/worker.go:662-667 | When a key that was recorded since some point is no longer recorded, 4096 pairwise distinct other keys were recorded after its latest record, which is no older than that point |
| `ReplayCache.RecordedIsNew` | internal/worker/standby.go:259-274 | A key that was not recorded at some point and is recorded now was recorded in between |
| `WorkerInvariant.AgreeInsert` | internal/worker/worker.go:756-777 | Publishing an unknown key keeps records, threads, contexts and cancellers in agreement |
| `WorkerInvariant.AgreeSettle` | internal/worker/worker.go:941-957 | Settling an execution closes its own channel once and keeps that agreement, whether its record is deleted or kept |
| `WorkerInvariant.AgreeStart` | internal/worker/worker.go:598-618 | Starting cancellations marks each record once and keeps the agreement |
| `WorkerInvariant.AgreePlaceholder` | internal/worker/worker.go:583-593 | The placeholder record for a completed execution keeps the agreement |
| `WorkerInvariant.AgreeAccept` | internal/worker/worker.go:635-640 | An accepted cancellation removes a record that no execution still needs |
| `WorkerInvariant.AgreeStop` | internal/worker/worker.go:1255-1293 | Shutdown stops every canceller and context and keeps the agreement |
| `WorkerSteps.StepKeepsRegistry` | internal/worker/worker.go:564-794 | Every task step, whichever handler, execution or canceller takes it, keeps the registry invariant |
| `WorkerSteps.StopKeepsRegistry` | internal/worker/worker.go:1240-1294 | So does the shutdown region |
| `WorkerReplay.StepKeepsReplay` | internal/worker/worker.go:696-703 | Every step keeps each claim blocked: its own record is there, or its key was recorded after that very claim, or the worker is shutting down |
| `WorkerReplay.StepKeepsOneShot` | internal/worker/worker.go:704-755 | Every step keeps at most one assignment inside the one-shot window, over both reset paths |
| `WorkerOrigins.StepKeepsOrigins` | internal/worker/worker.go:564-652 | Every step keeps: a user's source comes from a request made after the claim, an interruption from a preserving shutdown, and every recorded key, placeholder and backend cancellation from an execution that settled |
| `WorkerOrigins.CancellerRan` | internal/worker/worker.go:620-634 | While a canceller is past its wait, no execution of its key runs and one has settled |
| `StandbyProtocol.StandbyStepKeeps` | internal/worker/standby.go:76-284 | Every standby, destroy and watcher step keeps runners listed under their own ID, each admission accounted for by an exit recorded after it, and each recorded exit sent or about to be sent by its one reporter |
| `StandbyProtocol.StopStandbysKeeps` | internal/worker/standby.go:215-231 | Stopping the standbys keeps that invariant |
| `WorkerMachine.StepInv` | internal/worker/worker.go:564-1340 | Every step of the whole worker keeps the whole invariant |
| `WorkerMachine.NothingStarts` | internal/worker/worker.go:742-755 | A step taken while shutting down adds no record, starts no execution and no standby, and does not raise the wait group |
| `WorkerTheorems.RunInv` | internal/worker/worker.go:564-1340 | The invariant holds in every reachable state |
| `WorkerTheorems.OneExecutionPerKey` | internal/worker/worker.go:756-777 | While an execution runs, the record under its key is the one it inserted with its channel open; a key has at most one running execution |
| `WorkerTheorems.DoneClosedOnce` | internal/worker/worker.go:941-945 | No channel is closed twice, and it is closed exactly when the execution has settled |
| `WorkerTheorems.OneReportPerExecution` | internal/worker/worker.go:1012-1085 | A settled execution claimed once and first and called the backend once; completed sends one report, spawned none, and a failure is reported cancelled exactly if a user's cancellation was seen, not at all exactly if an interruption was, failed exactly if neither was, never both |
| `WorkerTheorems.StopsHaveCauses` | internal/worker/worker.go:564-618 | A user's cancellation is seen only if one was requested after the claim for that execution or its task, an interruption only in a preserving worker that is shutting down |
| `WorkerTheorems.SourceWrittenOnce` | internal/worker/worker.go:603-606 | A record's cancellation source changes at most once, from unset |
| `WorkerTheorems.SlotsConserved` | internal/worker/worker.go:722-767 | Units held equal assignments between acquire and hand-off plus executions before release plus standbys sharing the semaphore, each given by its program counters, and no limit is ever exceeded |
| `WorkerTheorems.WaitGroupConserved` | internal/worker/worker.go:704-716 | The wait group equals the assignments that were admitted and neither refused, dropped nor finished, plus the unfinished standbys; at zero nothing runs |
| `WorkerTheorems.ClaimInserts` | internal/worker/worker.go:742-767 | A claim inserts the record of a key that is neither active nor recorded, while the gate is open, and is marked with what was recorded and requested by then |
| `WorkerTheorems.AtMostOncePerWindow` | internal/worker/worker.go:756-767 | For any two claims of a key with an execution ID, the key was recorded after the earlier claim, and 4096 distinct other completions after that record, before the later one |
| `WorkerTheorems.SettledIsKnown` | internal/worker/worker.go:946-950 | An execution that ends unspawned, uncancelled and uninterrupted is known afterwards exactly if it has an execution ID |
| `WorkerTheorems.NextAssignmentAdmitted` | internal/worker/worker.go:696-716 | So its next assignment is admitted exactly if it has none, unless the gate is closed or the latch taken |
| `WorkerTheorems.CompletedCacheBounded` | internal/worker/worker.go:654-670 | In every run the cache lists exactly its keys, without duplicates, within 4096, none with an empty execution ID |
| `WorkerTheorems.AcceptedStays` | internal/worker/worker.go:946-950 | An accepted flag never reverts while its key is recorded |
| `WorkerTheorems.CancelCallsFollowReturn` | internal/worker/worker.go:620-634 | While a canceller may call the backend, no execution of its key runs, and one of that key has settled with a complete history |
| `WorkerTheorems.CallsComeFromCancellers` | internal/worker/worker.go:631-634 | Every backend cancellation is made by a canceller in its loop, at a moment when no execution of that key runs and one has settled |
| `WorkerTheorems.OnlySettledExecutionsAreCancelled` | internal/worker/worker.go:583-593 | Every key the backend was ever asked to cancel belongs to an execution that settled with a complete history |
| `WorkerTheorems.CancellersStartOnce` | internal/worker/worker.go:598-602 | A request starts a canceller only for a record that never had one, of the same task and, if scoped, the same execution |
| `WorkerTheorems.ExitedForGood` | internal/worker/worker.go:613-617 | A canceller that exited never lives again |
| `WorkerTheorems.AcceptanceRemovesOwnEntry` | internal/worker/worker.go:635-640 | A canceller deletes the record it was started for and nothing else |
| `WorkerTheorems.AcceptedReplayIsSilent` | internal/worker/worker.go:583-587 | Replaying an accepted cancellation for its execution starts nothing and changes nothing but the log of requests |
| `WorkerTheorems.ScopedRequestFrame` | internal/worker/worker.go:588-594 | A scoped request leaves every other execution's record and context as they were |
| `WorkerTheorems.ShutdownGate` | internal/worker/worker.go:1242-1247 | After shutdown began no task or standby record is added, nothing starts, and the wait group never rises |
| `WorkerTheorems.CleanShutdownIsQuiet` | internal/worker/worker.go:1304-1321 | A shutdown wait that did not time out missed no work, then or later |
| `WorkerTheorems.StandbyNoGap` | internal/worker/standby.go:76-114 | After each admission of an ID, it is live, or its exit was recorded after that admission and is still recorded or pushed out by newer exits, or its observation was interrupted by the shutdown of a worker that preserves its tasks |
| `WorkerTheorems.RecordedExitsAreReported` | internal/worker/standby.go:259-284 | The message of every recorded exit was attempted, or its reporter is about to attempt it |
| `WorkerTheorems.ExitMessagesSpaced` | internal/worker/standby.go:259-284 | Two exit messages for one sandbox are more than 4096 recorded exits apart |
| `WorkerTheorems.OneShotRunsOnce` | internal/worker/worker.go:710-712 | In one-shot mode at most one execution is claimed in the whole run |
| `WorkerTheorems.SignalAfterReport` | internal/worker/worker.go:929-968 | Completion is signalled only after a complete history, a settled record and a returned slot |
| `WorkerReach.RequestDecides` | internal/worker/worker.go:564-618 | A cancellation request that covers an execution whose backend call has not returned decides: if it fails, it is reported as cancelled |
| `WorkerReach.ShutdownDecides` | internal/worker/worker.go:1255-1265 | The shutdown of a preserving worker decides for such an execution that no cancellation reached first: if it fails, nothing is reported |
| `WorkerReach.FirstCauseWins` | internal/worker/worker.go:1255-1293 | Why the observation of an execution ended never changes afterwards |
| `WorkerReach.AcceptedMeansAccepted` | internal/worker/worker.go:635-640 | A key is recorded as accepted only after a canceller of it got the backend's acceptance |
| `WorkerReach.AcceptedEndsCancellers` | internal/worker/worker.go:635-640 | While an acceptance is on record every canceller of its key has exited |
| `WorkerReach.NoCallsAfterAcceptance` | internal/worker/worker.go:583-594 | From an acceptance on, as long as it stays on record, the backend is never asked to cancel that execution again, whatever scoped or run-wide requests are replayed |
| `WorkerReach.ShutdownEndsContexts` | internal/worker/worker.go:1255-1293 | Once shutdown began, the context of every running execution has ended |
| `WorkerReach.ShutdownEndsCalls` | internal/worker/worker.go:1255-1258 | Once shutdown began, the backend is not asked to cancel anything any more |
| `WorkerReach.CancellersWindDown` | internal/worker/worker.go:1342-1344 | Then every canceller that is left can move and every move brings it closer to its exit, so the wait for them can end |
| `WorkerReach.OneShotSignals` | internal/worker/worker.go:929-932 | In one-shot mode an execution that is over has signalled completion |
| `StandbyReach.ShutdownEndsStandbys` | internal/worker/standby.go:215-231 | Once shutdown began, the context of every listed standby has ended |
| `StandbyReach.StandbyCauseStays` | internal/worker/standby.go:215-231 | Why a standby's context ended never changes afterwards |
| `StandbyReach.DestroyReaches` | internal/worker/standby.go:195-203 | A destroy request cancels a listed sandbox that still runs, for good, and is the source of its end unless there was one before |
| `StandbyReach.ShutdownDecidesStandbys` | internal/worker/standby.go:215-231 | A standby that still runs when shutdown begins is interrupted, for good, exactly if the worker preserves its tasks, and cancelled otherwise |
| `StandbyReach.InterruptedIsSilent` | internal/worker/standby.go:142-148 | A standby interrupted before its backend call was looked at never records or sends an exit |
| `StandbyReach.StandbySourceStays` | internal/worker/standby.go:195-203 | Who first asked a standby to end stays on record |
| `StandbyReach.ShutdownMarksStandbys` | internal/worker/standby.go:225-229 | A worker that does not preserve its tasks is the source for every listed standby without one; one that does leaves the sources alone |
| `StandbyReach.WatchedExitRecorded` | internal/worker/standby.go:248-284 | A watched exit goes on exactly without a local runner and before shutdown, is then on record, and is sent by the watcher exactly if it added the record |
| `StandbyReach.AdmissionDecides` | internal/worker/standby.go:57-90 | A request is admitted exactly for a sandbox neither listed nor recorded, in an open worker that is not one-shot and supports standbys, with a unit left of the limit that applies |
| `StandbyReach.StandbysGoOn` | internal/worker/standby.go:115-284 | A standby can go on until it is over, a watched exit until it was dealt with; destroy requests and watched exits come at any moment |
| `WorkerAnswers.FirstRegionDecides` | internal/worker/worker.go:696-716 | An assignment is ignored exactly if that very execution is active or recorded, refused exactly if another one meets a stopping worker or a taken latch, and admitted otherwise |
| `WorkerAnswers.SecondRegionDecides` | internal/worker/worker.go:742-778 | It is published with a record of its own exactly if the worker is not stopping and that very execution is neither active nor recorded; otherwise no record changes |
| `WorkerAnswers.AcquireDecides` | internal/worker/worker.go:722-733 | In between it gets a unit exactly if fewer are held than the limit allows |
| `WorkerAnswers.RefusalsAreAnswered` | internal/worker/worker.go:700-764 | Whoever is refused, for capacity, shutdown or the latch, is told so once and never runs; a duplicate is never answered and never runs |
| `WorkerAnswers.ThreadsGoOn` | internal/worker/worker.go:672-794 | An assignment can go on unless it was ignored, refused, dropped or is over; the backend may return anything |
| `WorkerAnswers.RequestsGetThrough` | internal/worker/worker.go:564-570 | Assignments arrive at any moment; cancellation requests get through exactly while the worker is not stopping |
| `WorkerAnswers.LatchIsExact` | internal/worker/worker.go:710-755 | The latch of a one-shot worker is taken exactly while an assignment that was not handed back holds it |
| `WorkerAnswers.RecordOutlives` | internal/worker/worker.go:941-957 | The record of a settled execution is there exactly if it was spawned or a canceller was started for it, and no acceptance has removed it |
| `WorkerAnswers.SettledContextsEnd` | internal/worker/worker.go:934-936 | The context of every settled execution has ended |
| `WorkerAnswers.RequestStartsCancellers` | internal/worker/worker.go:571-596 | A request leaves a live canceller for every record it covers, and for the completed execution it names unless that cancellation was accepted |
| `WorkerAnswers.CancellersGoOn` | internal/worker/worker.go:620-652 | Before shutdown a canceller goes on exactly when no execution of its key runs any more, then calls the backend, tries again after each failure, and ends only with an acceptance |
| `WorkerAnswers.AcceptanceIsRecorded` | internal/worker/worker.go:635-640 | An acceptance is put on record, for a key with an execution ID, and removes the record of the execution |
| `WorkerAnswers.ShutdownMarks` | internal/worker/worker.go:1280-1284 | Shutdown is the source of every record without one, unless the worker preserves its tasks; other sources stay |
| `WorkerAnswers.ShutdownFails` | internal/worker/worker.go:1012-1060 | The shutdown of a worker that does not preserve its tasks decides for a running execution that no cancellation reached first: if it fails, it is reported as failed |
| `WorkerAnswers.WaitCanEnd` | internal/worker/worker.go:1304-1321 | The wait of a shutdown can end clean as soon as nothing it waits for is left |
| `Worker.OneShotState.TryAccept` | internal/worker/worker.go:131-139 | Accepts exactly the first caller |
| `Worker.OneShotState.Complete` | internal/worker/worker.go:147-154 | The channel is closed once however often it is called |
| `Worker.Worker.RememberCompletedLocked` | internal/worker/worker.go:654-670 | The in-place update is the bounded record's insertion; an empty execution ID changes nothing |
| `Worker.Worker.StartTaskCancellationLocked` | internal/worker/worker.go:598-618 | Takes the protocol's start step for one key and yields exactly the cancellers started |
| `Worker.Worker.HandleTaskCancellation` | internal/worker/worker.go:564-596 | Takes the protocol's request step: run-wide loop, accepted replay, placeholder, or nothing once the gate is closed |
| `Worker.Worker.AdmitAssignment` | internal/worker/worker.go:696-716 | The first region's verdict on the two maps and the flags, with its wait-group and latch effects |
| `Worker.Worker.PublishAssignment` | internal/worker/worker.go:742-778 | The second region inserts a fresh local record under the key exactly when the gate is open and the key is in neither map |
| `Worker.Worker.SettleExecution` | internal/worker/worker.go:941-957 | The deferred region equals the protocol's settling step |
| `Worker.Worker.MarkSpawnedTask` | internal/worker/worker.go:1066-1071 | Marks the record as spawned if it is still there |
| `Worker.Worker.RecordAcceptedCancellation` | internal/worker/worker.go:636-639 | Equals the protocol's acceptance step |
| `Worker.Worker.StopTasks` | internal/worker/worker.go:1242-1294 | The loops over all records together equal the protocol's one-step stop |
| `Worker.StopInTwoLoops` | internal/worker/worker.go:1255-1293 | Stopping in two successive loops is stopping at once |
| `Standbys.StandbyRegistry.AdmitStandbyLocked` | internal/worker/standby.go:57-74 | Each reply has its own condition: stopping, one-shot, unsupported, the limit that applies used up; otherwise it accepts and takes one unit |
| `Standbys.StandbyRegistry.HandlePrewarmCreate` | internal/worker/standby.go:76-114 | Accepts exactly an ID in neither map when nothing else refuses it, and takes the protocol's creation step; otherwise changes nothing |
| `Standbys.StandbyRegistry.RecordStandbyExit` | internal/worker/standby.go:259-274 | Adds the record, and sends, exactly when there was none; insert-then-evict equals the bounded record's insertion |
| `Standbys.StandbyRegistry.ReportStandbyExit` | internal/worker/standby.go:151-159 | The runner's report takes the protocol's record step |
| `Standbys.StandbyRegistry.CheckWatchedExit` | internal/worker/standby.go:248-255 | The watcher goes on exactly when no local runner is listed and the worker is not stopping |
| `Standbys.StandbyRegistry.ReportWatchedExit` | internal/worker/standby.go:256-274 | The watcher's report takes the protocol's record step |
| `Standbys.StandbyRegistry.ReleaseStandby` | internal/worker/standby.go:161-170 | Ends the context, returns one unit and deletes the entry, as the protocol's steps do |
| `Standbys.StandbyRegistry.HandlePrewarmDestroy` | internal/worker/standby.go:190-203 | Sets the source only if unset and cancels the listed standby; an empty ID does nothing |
| `Standbys.StandbyRegistry.StopStandbysLocked` | internal/worker/standby.go:215-231 | Every listed standby that still runs is interrupted or cancelled, as the worker preserves its tasks or not, and marked in the latter case; all observers are named when preserving |
| `Standbys.ProtocolKeepsFields` | internal/worker/standby.go:259-274 | The protocol invariant implies what the class requires of its fields |
| `JobApi.RevisionPins` | internal/worker/kubernetes_api.go:166-168 | The same name at the same revision is the same Job in the same state, however much time passed |
| `JobApi.FencedWriteMeetsObserved` | internal/worker/kubernetes_api.go:187-196 | A write fenced by an observed revision meets exactly what was observed |
| `JobRuns.JobPodsStopped` | internal/worker/kubernetes_api.go:206-231 | Lists the Pods only for a Job that is not retried, and is true exactly if the list came and shows them stopped |
| `JobRuns.OwnPodsFinished` | internal/worker/kubernetes_api.go:216-230 | True exactly when all Pods that the Job controls have ended and one of them failed |
| `JobRuns.ExpireAbandonedJob` | internal/worker/kubernetes_api.go:156-205 | One attempt makes exactly the calls that the replies call for: look up, stop if gone, replaced, complete or failed, list if nothing should run any more, then patch the very Job and revision known. It patches only the observed UID while non-terminal, sets the deadline, the parallelism and the suspension and nothing else, and deletes nothing; nil means seen absent or with its Pods stopped during the call, seen terminal, or patched during the call |
| `JobRuns.RequestJobExecutionStop` | internal/worker/kubernetes_api.go:132-151 | The same across all retries, refresh failures and concurrent changes: attempts follow each other exactly while the error is a conflict or a passing one, the last one decides, and giving up means that all allowed ones were made; a terminal Job is left alone |
| `JobRuns.DeleteTaskJob` | internal/worker/kubernetes_api.go:233-249 | Deletions follow each other exactly while the error is a passing one, each carries the UID, only that Job is ever removed, nil means the name was absent during the call |
| `JobRuns.GetTaskJob` | internal/worker/kubernetes_api.go:122-128 | Reads follow each other exactly while the error is a passing one, and never write; a Job or a "not found" is a state the server was in during the call |
| `JobRuns.CancelTask` | internal/worker/kubernetes.go:622-640 | Deletes only a Job seen during the call with this task's and execution's labels, under its UID; nil means the name was absent during the call; failure means a failed call, no attempt left, or a Job seen with other labels |
| `JobRuns.Outcome` | internal/worker/kubernetes.go:689-716 | A complete Job is a success, a failed one that is not complete a failure after which nothing runs, and the run goes on exactly otherwise |
| `JobRuns.ObserveEvent` | internal/worker/kubernetes.go:500-605 | What every event comes to: the created Job, delivered or polled, ends the run exactly if complete (success) or failed (execution stopped); another Job, a failed poll or list, a closed watch and the end of the context end it as lost, a Pod failure with its own disposition; nothing else ends it |
| `JobRuns.ObserveJob` | internal/worker/kubernetes.go:498-607 | Over every event sequence the turns link up from the created Job, all but the last leave the run going, and the last one gives the result; nothing is written |
| `JobRuns.ExecuteTask` | internal/worker/kubernetes.go:410-452 | The result is that of the turns observed; deletes exactly on success with cleanup or on standby cancellation, asks for expiry exactly on an uncancelled failure, which ends clean only if the Job needs no stop as of this run, otherwise leaves the Job untouched |
| `SidecarVolume.StepInv` | internal/worker/docker.go:734-778 | Every step of any task keeps the invariant over gate, dirty mark and contents |
| `SidecarVolume.FreeGateIsTrusted` | internal/worker/docker.go:734-778 | Whenever the gate is free, an existing volume that is not dirty is complete |
| `SidecarVolume.HandedMeansSettled` | internal/worker/docker.go:751-755 | A volume is handed over only complete and clean |
| `SidecarVolume.PreparedStaysComplete` | internal/worker/docker.go:734-778 | From the first hand-over on the volume stays complete: no later task removes, creates or populates it |
| `SidecarVolume.TasksGoOn` | internal/worker/docker.go:734-778 | A task that waits can enter as soon as the gate is free, and can always go on until it has returned |
| `SidecarVolume.VolumeState.RemoveIncomplete` | internal/worker/docker.go:780-785 | Success means the volume is gone; otherwise it is gone or as before |
| `SidecarVolume.VolumeState.Prepare` | internal/worker/docker.go:744-777 | Takes the task's steps of the machine from entry to exit, succeeds exactly if every engine call did and only with complete contents, keeps the cache trustworthy on every path, leaves a good volume alone |
| `ContainerTracking.OwnActionsAreQuiet` | internal/worker/docker.go:199-238 | What is done for one execution disturbs no other, so executions interleave freely |
| `ContainerTracking.RerunLosesContainer` | internal/worker/docker.go:201-213 | In every state, overwriting and withdrawing an entry loses a container exactly if one of the execution runs that was not lost before |
| `ContainerTracking.RerunCanLose` | internal/worker/docker.go:201-213 | A concrete state from which a second run loses the first container |
| `ContainerTracking.DockerBackend.CreateTracked` | internal/worker/docker.go:200-220 | The entry precedes the creation and is withdrawn only when the reply proves that nothing was created |
| `ContainerTracking.DockerBackend.CleanUp` | internal/worker/docker.go:223-238 | The entry goes exactly when the container is known to be gone |
| `ContainerTracking.DockerBackend.RunContainer` | internal/worker/docker.go:240-300 | The outcome is what the wait reply says; the entry goes early exactly without cleanup and for a container seen to have exited without an error |
| `ContainerTracking.DockerBackend.ExecuteTask` | internal/worker/docker.go:199-300 | Afterwards everything running for the execution is tracked, or was orphaned by this rerun, which happens exactly if something of it was still running; with cleanup on the entry accounts for every container left; the calls made and their replies determine the outcome, a removal exactly when cleanup is on, and whether the execution is still tracked |
| `ContainerTracking.DockerBackend.CancelTask` | internal/worker/docker.go:340-358 | Nil means that nothing of the execution runs apart from orphans; it fails exactly if the creation outcome is unknown or the removal it asks for is not confirmed; an untracked execution always succeeds |
| `ContainerTracking.DockerBackend.RunOnceThenCancel` | internal/worker/docker.go:340-358 | After a single run, a nil cancellation, however many failed before, means that no container of the execution is running, and with cleanup on that none is left |
| `LineWriter.LinesRoundTrip` | internal/tasktelemetry/log/writer.go:53-73 | Joining the lines gives the stream back, and no line holds a newline |
| `LineWriter.JoinedRoundTrip` | internal/tasktelemetry/log/writer.go:53-73 | Cutting joined lines gives the lines back |
| `LineWriter.LinesConcat` | internal/tasktelemetry/log/writer.go:53-73 | Reading on from any point needs only the unfinished line |
| `LineWriter.KeptLinesAre` | internal/tasktelemetry/log/writer.go:56-73 | Handed on are the lines at an ascending list of places, which are exactly those of the lines of 1 to 65536 bytes |
| `LineWriter.Writer.Write` | internal/tasktelemetry/log/writer.go:43-74 | Accepts every byte and has handed on exactly the finished lines within the limit; a closed writer or one without a reporter drops them |
| `LineWriter.Writer.Flush` | internal/tasktelemetry/log/writer.go:77-98 | Hands on the unfinished line too, unless empty or too long, and starts afresh |
| `LineWriter.Writer.Close` | internal/tasktelemetry/log/writer.go:82-87 | Flushes and accepts nothing more |
| `LineWriter.Writer.WriteAll` | internal/tasktelemetry/log/writer.go:43-98 | For every way to cut a stream into writes, what is handed on is its lines at an ascending list of places, exactly those of 1 to 65536 bytes |
| `LogFrames.HeaderRoundTrip` | internal/worker/docker_logs.go:68-79 | The header of an encoded frame gives its stream and payload back |
| `LogFrames.DemuxEncode` | internal/worker/docker_logs.go:65-83 | An encoded frame list yields each stream's payloads in order and a clean end |
| `LogFrames.PayloadsAre` | internal/worker/docker_logs.go:72-81 | A stream's bytes are the payloads of exactly its frames, in order |
| `LogFrames.DemuxCut` | internal/worker/docker_logs.go:65-83 | A stream that ends anywhere gives the payloads of its whole frames and what there is of the last one, and an error that tells a failed read, a cut header and any other end apart |
| `LogFrames.DemuxPrefix` | internal/worker/docker_logs.go:69-81 | A stream cut anywhere yields a prefix of what the whole yields |
| `LogFrames.CopyN` | internal/worker/docker_logs.go:79-81 | Copies up to the given number of bytes in pieces of any size, and all there is if short |
| `LogFrames.CopyDockerLogFrames` | internal/worker/docker_logs.go:65-83 | Each output receives exactly the payload bytes of its stream; end of file, a cut header and a failed read are told apart |
| `LogFrames.FollowFrames` | internal/worker/docker_logs.go:42-48 | Framing does not change the lines: for each output those of 1 to 65536 bytes of its concatenated payloads, in order |
| `Redaction.ReplaceIsLeftmostLongest` | internal/tasktelemetry/log/redaction.go:120-129 | Replacement renders a cut of the text in which no copied byte starts a pattern and every masked one is the longest at its place |
| `Redaction.LeftmostLongestUnique` | internal/tasktelemetry/log/redaction.go:120-129 | There is only one such cut |
| `Redaction.RegisterSameValues` | internal/tasktelemetry/log/redaction.go:80-119 | Order and repetition of registrations do not matter |
| `Redaction.OrderIndependent` | internal/tasktelemetry/log/redaction.go:140-158 | Every message is redacted alike for every registration order |
| `Redaction.FieldsAre` | internal/tasktelemetry/log/redaction.go:93-95 | The pieces of a value are exactly its maximal stretches without line breaks |
| `Redaction.RegisterIs` | internal/tasktelemetry/log/redaction.go:80-119 | A text is masked everywhere exactly if it is some accepted value or its query or JSON escape, and in raw lines also if it is a piece of one |
| `Redaction.OverflowIs` | internal/tasktelemetry/log/redaction.go:84-114 | Everything is masked exactly when a value exceeds 1 MiB or distinct variants of the values exceed 4096 or 1 MiB |
| `Redaction.ValuesAreMasked` | internal/tasktelemetry/log/redaction.go:140-158 | Below the limits no copied byte starts a registered value or an escape of it, nor, in a raw line, a piece of it; nothing else is masked; and the result is that cut, or wholly masked beyond 16 KiB |
| `Redaction.EverythingIsMasked` | internal/tasktelemetry/log/redaction.go:143-145 | Beyond the limits, or for a message of more than 64 KiB, everything is masked |
| `Redactor.Redactor.AddVariant` | internal/tasktelemetry/log/redaction.go:98-119 | A known variant becomes general if either registration was; a new one is added or, beyond the limits, sets overflow |
| `Redactor.Redactor.Add` | internal/tasktelemetry/log/redaction.go:80-130 | Overflow is set exactly when a value exceeds 1 MiB or the distinct variants exceed 4096 or 1 MiB; otherwise the patterns are exactly the variants |
| `Redactor.SortByLength` | internal/tasktelemetry/log/redaction.go:120 | The same patterns, longest first, in any order among equals |
| `Redactor.Pairs` | internal/tasktelemetry/log/redaction.go:121-129 | Each replacer holds exactly its patterns, longest first |
| `Redactor.FirstMatch` | internal/tasktelemetry/log/redaction.go:120-129 | The first pattern in order that matches is the longest that matches |
| `Redactor.WriteReplaced` | internal/tasktelemetry/log/redaction.go:35-44 | The bounded buffer fails exactly when the whole output exceeds 16 KiB |
| `Redactor.Redactor.RedactWith` | internal/tasktelemetry/log/redaction.go:140-158 | The result is a function of the set of registered values, at most 16 KiB |
| `Redactor.SameInAnyOrder` | internal/tasktelemetry/log/redaction.go:80-158 | Two redactors given the same values in any order redact alike |
| `KubernetesNames.Sanitized` | internal/worker/kubernetes.go:1465-1479 | Only letters, digits and inner separators remain, and what is clean already is unchanged |
| `KubernetesNames.SanitizeNameFragment` | internal/worker/kubernetes.go:1465-1479 | The loop computes that function |
| `KubernetesNames.LabelValue` | internal/worker/kubernetes.go:1436-1463 | Always a valid label value; a valid one is unchanged, so sanitizing is idempotent |
| `KubernetesNames.SanitizeLabelValue` | internal/worker/kubernetes.go:1436-1463 | The loop computes that function |
| `KubernetesNames.SanitizingIsIdempotent` | internal/worker/kubernetes.go:1436-1479 | Sanitizing twice is sanitizing once, for names and for label values |
| `KubernetesNames.SanitizedIs` | internal/worker/kubernetes.go:1436-1479 | The result stands character by character for a stretch of the original, capitals for their small letters, and all around it could only be trimmed |
| `KubernetesNames.CapitalsDoNotMatter` | internal/worker/kubernetes.go:1438-1467 | Values that differ in capitals only sanitize alike |
| `KubernetesNames.LabelValueIs` | internal/worker/kubernetes.go:1450-1462 | The longest beginning within 63 characters that does not end with a separator, or "unknown" |
| `KubernetesNames.JobNameValid` | internal/worker/kubernetes.go:1403-1423 | For all IDs a valid label of at most 63 characters, ending in the whole execution fragment, with any sanitized run ID of up to 41 characters whole |
| `KubernetesNames.KubernetesTaskJobName` | internal/worker/kubernetes.go:1403-1423 | The builder computes that name |
| `KubernetesNames.LastIdFragment` | internal/worker/kubernetes.go:1428-1434 | The last characters of the sanitized ID, trimmed |
| `KubernetesNames.LastFragmentIs` | internal/worker/kubernetes.go:1428-1434 | The longest end of the sanitized ID, within the length, that does not begin with a hyphen |
| `KubernetesNames.RunFragmentIs` | internal/worker/kubernetes.go:1415-1421 | The longest beginning of the sanitized run, within the room, that does not end with a hyphen, or "run" |
| `KubernetesNames.JobNameIs` | internal/worker/kubernetes.go:1403-1423 | The name spelled out, with its fallbacks and the room for the run |
| `KubernetesNames.JobNameSeparates` | internal/worker/kubernetes.go:1403-1423 | For all IDs, two Job names are equal exactly if both fragments are, or one execution fragment overlaps the other's name: it begins with "exec-" or with one character and the whole separator, and the other run's fragment ends in the rest |
| `KubernetesNames.HexNamesSeparate` | internal/worker/kubernetes.go:1403-1423 | Without the letter x in the execution fragments, as in hexadecimal IDs, names are equal exactly when both fragments are |
| `KubernetesNames.JobNameCollision` | internal/worker/kubernetes.go:1403-1423 | A pair of each family of different executions that share a name |
| `SetupPhases.ObserveKeeps` | internal/worker/kubernetes_setup_events.go:88-102 | Every observation keeps the invariant: a span is live under one key, or the execution span, or ended, never two of these; no key is both live and reported; events are distinct and well timed |
| `SetupPhases.LateDeliveryChangesNothing` | internal/worker/kubernetes_setup_events.go:15-22 | A snapshot delivered again, however late and whatever came in between, changes nothing |
| `SetupPhases.SpentChangesNothing` | internal/worker/kubernetes_setup_events.go:76-102 | An observation changes the state exactly when it is not spent, and is spent afterwards |
| `SetupPhases.FinishedIsComplete` | internal/worker/kubernetes_setup_events.go:63-124 | Over any observations followed by the finish, each event is reported at most once with a set start not after its finish, and the spans ended are exactly those opened, each once |
| `SetupPhases.EventsAre` | internal/worker/kubernetes_setup_events.go:76-82 | The events are, in order, what the first finished observation of each phase says: name, start, finish and error flag |
| `SetupPhases.KeysAre` | internal/worker/kubernetes_setup_events.go:88-102 | A key was opened exactly if some observation gave a range for it, and closed exactly if some gave a finished one |
| `SetupPhases.SpansAre` | internal/worker/kubernetes_setup_events.go:88-102 | One span per key opened, one ended per key closed, and one for the execution exactly once its start was seen |
| `PodSnapshots.LastFinish` | internal/worker/kubernetes_setup_events.go:286-292 | The latest finish of any terminated init container, or none |
| `PodSnapshots.FirstScheduledIs` | internal/worker/kubernetes_setup_events.go:128-134 | The first scheduling condition that is true |
| `PodSnapshots.LastScheduledIs` | internal/worker/kubernetes_setup_events.go:143-148 | The last one |
| `PodSnapshots.ScheduleSeenIs` | internal/worker/kubernetes_setup_events.go:128-138 | A pod waits to be scheduled from its creation until that first condition |
| `PodSnapshots.StartIs` | internal/worker/kubernetes_setup_events.go:152-164 | An init container started when the last status that tells so says |
| `PodSnapshots.EndIs` | internal/worker/kubernetes_setup_events.go:152-164 | It ended, and failed or not, as the last status that shows it ended and not running says |
| `PodSnapshots.InitsSeenAre` | internal/worker/kubernetes_setup_events.go:149-181 | An observation comes from the init containers exactly if it is one of a container that all before it let start, counted from what it waited for |
| `PodSnapshots.CopiesAre` | internal/worker/kubernetes_setup_events.go:201-225 | The copy phase goes from the earliest start to the latest finish, counts the ended ones, and is an error if one failed |
| `PodSnapshots.SidecarsSeenAre` | internal/worker/kubernetes_setup_events.go:189-230 | It is over once all copy containers have ended or one failed, and has begun before; without any there is none |
| `PodSnapshots.SetupSeenAre` | internal/worker/kubernetes_setup_events.go:234-249 | The setup phase ends with the first status that shows the container ended, and begins with any up to it that shows it running |
| `PodSnapshots.TaskStartIs` | internal/worker/kubernetes_setup_events.go:254-267 | The first status of the task container decides when it started, even if it has ended |
| `PodSnapshots.TaskSeenAre` | internal/worker/kubernetes_setup_events.go:268-302 | Its start counts from the last init finish, else the scheduling, else the creation; before it started, from then on once init has ended well |
| `SetupTracker.Tracker.ObserveInterval` | internal/worker/kubernetes_setup_events.go:88-102 | The update in place is that observation |
| `SetupTracker.Tracker.Report` | internal/worker/kubernetes_setup_events.go:76-82 | Reports an event with this start, finish and error flag exactly when it is unreported and its range is set and not inverted |
| `SetupTracker.Tracker.ObserveSchedule` | internal/worker/kubernetes_setup_events.go:128-138 | Applies what the first true scheduling condition says, or starts the phase |
| `SetupTracker.Tracker.ObserveInitContainers` | internal/worker/kubernetes_setup_events.go:142-182 | Walks the init containers in order and applies, up to the first one that has not finished well, exactly what their timestamps say |
| `SetupTracker.Tracker.ObserveSidecarPrep` | internal/worker/kubernetes_setup_events.go:189-230 | Applies one phase over all copy containers, from the first start to the last finish, early on failure |
| `SetupTracker.Tracker.ObserveSetupCommand` | internal/worker/kubernetes_setup_events.go:234-249 | Applies the setup container's start and its termination |
| `SetupTracker.Tracker.ObserveTaskStart` | internal/worker/kubernetes_setup_events.go:253-279 | Applies the task container's start from its anchor, and opens the execution span once |
| `SetupTracker.Tracker.ObservePod` | internal/worker/kubernetes_setup_events.go:63-72 | A snapshot is applied as the concatenation of what its five observers see |
| `SetupTracker.TaskInitFinished` | internal/worker/kubernetes_setup_events.go:30-51 | True exactly when every init container that ends has succeeded and the pod is scheduled |
| `SetupTracker.FindStartAnchor` | internal/worker/kubernetes_setup_events.go:286-302 | The last init finish, else the scheduling time, else the creation time |
| `SetupTracker.Tracker.Finish` | internal/worker/kubernetes_setup_events.go:104-124 | Closes every live key and ends every open span, reporting nothing |
| `SetupTracker.Track` | internal/worker/kubernetes_setup_events.go:63-124 | Over any sequence of pod snapshots followed by the finish: the events are what the first finished observation of each phase says, each once and well timed; every key that was given a range had one span, the execution one, and every span ended exactly once |
| `OutboundQueue.StepInv` | internal/worker/outbound_queue.go:27-49 | Every step of any sender, closer or the write loop keeps the invariant over mutex, flag, channel and answers |
| `OutboundQueue.NothingLost` | internal/worker/outbound_queue.go:27-53 | In every interleaving nobody sends on a closed channel or closes it twice, what was accepted is what was received followed by the buffer, and a sender is told so exactly when its message was accepted |
| `OutboundQueue.NothingAfterClose` | internal/worker/outbound_queue.go:41-49 | Once the channel is closed nothing is accepted any more |
| `OutboundQueue.WaitersGoOn` | internal/worker/outbound_queue.go:27-43 | A caller that waits for the mutex can have it exactly when nobody holds it |
| `OutboundQueue.SendersGoOn` | internal/worker/outbound_queue.go:27-39 | A sender offers its message exactly if the queue is open, an offer can be taken while there is room, the answer says whether it was, and the mutex is given back |
| `OutboundQueue.CloseCloses` | internal/worker/outbound_queue.go:41-53 | After a close the channel is closed, and what is left in the buffer can still be received |

## Left out

- WebSocket dialling, heartbeats, JSON, HTTP, the CLI and configuration merging: plumbing around the protocol.
- Metrics, tracing sessions, log exporters and log formatting: they do not act back on the modelled state.
- The label `graceful_shutdown` on failures and standby exits: it depends on timing, so nothing is claimed about it.
- Retry delays: retries may happen at any moment, so the doubling and its cap do not show.
- The direct and command backends: they enter as outcomes of `ExecuteTask` and `CancelTask`.
- The backend cancellation and the wait-group use of `handlePrewarmDestroy`, and whether a watched exit is true: they depend on the caller and on other actors.
- Pod and Job specifications, preflight Jobs, failure texts, image names and the classification of a Pod failure: given to the model as inputs.
- `cancelStandby` and the standby Job watcher of the Kubernetes backend: they repeat the UID-fenced deletion that `JobRuns.DeleteTaskJob` proves.
- Error status and attributes of spans: the tracker's spans are only opened and ended in the model.
- Volume names and the population of a sidecar volume: the population is an engine call with any outcome.
- Log writer registration in the reporter: whether a writer starts closed is an input.
- The environment filter `addEnv` of the redactor: it only decides which values are registered.
