# OpenDaemon task engine: a verified model

OpenDaemon runs agent tasks on behalf of products. A task is enqueued against a
directory grant, admitted under a concurrency limit and a directory lock, executed by
a runtime, and ends as completed, failed, cancelled or timed out. Everything that
happens to it is an event in a durable, numbered log; consoles follow that log over
server-sent events, providers ask permission questions through it, and a control plane
that dispatched the task is called back as it moves on.

This project models that engine in Dafny and proves what it keeps over every run.

| file | what it models |
|---|---|
| `Lifecycle.dfy`, `TaskModel.dfy` | statuses, the transition relation, tasks and the request that creates one |
| `Directory.dfy`, `Grants.dfy` | directory-grant policies, authorisation, lock modes, the grant table |
| `Store.dfy`, `TaskStore.dfy` | the task database: one function per store call, and the class that runs them on tables updated in place |
| `StoreAnswers.dfy` | what single store calls answer and write |
| `StoreInvariants.dfy`, `Timestamps.dfy` | what every store call keeps, over any run of serialised calls |
| `Acknowledgements.dfy` | a provider's own word on a permission, appended to the log beside the store's decision |
| `Writers.dfy` | the same calls taken apart: status read, number read and commit of many writers interleaved, and lock checks and lock inserts |
| `Scheduler.dfy`, `Enqueueing.dfy`, `Engine.dfy` | enqueueing, admission, outcome persistence and cancelling, as functions and as the class that performs them |
| `System.dfy`, `Admission.dfy`, `Execution.dfy`, `Protection.dfy`, `Holders.dfy` | the whole engine as a state machine, what single admissions, outcomes and cancels achieve, what becomes of single tasks over whole runs, when writers are alone, and how long a lock lasts |
| `ServiceCalls.dfy`, `ServiceWriters.dfy` | the scheduler's own calls as single steps; the concurrency limit and lone writers over their runs |
| `EventStream.dfy`, `TailSteps.dfy`, `StreamEnds.dfy`, `OutOfOrder.dfy`, `Cursor.dfy` | subscribe, replay, live tail with lag recovery; the tail loop against the protocol; which streams can still close; publication in any order; resumption cursors |
| `PermissionWaiters.dfy`, `PermissionAnswers.dfy`, `PermissionOverlaps.dfy` | the check / register / resolve / notify handshake, what its callers are told, and overlapping awaits of one request |
| `Dispatch.dfy`, `Callbacks.dfy`, `Addresses.dfy` | control-plane dispatch and lifecycle callbacks beside the running engine, and the metadata tasks are enqueued with |
| `Template.dfy` | the command template renderer |
| `Transcript.dfy` | the console's event list and cursor across cut and resumed sessions |
| `Basics.dfy`, `Examples.dfy` | options and results, string trimming, strictly ordered lists; concrete grants and tasks for the runs that show a failure |

Two granularities are used. In `StoreInvariants` and `System` a step is one store call
or one admission segment of `execute_task`. In `Writers`, `EventStream` and
`PermissionWaiters` each read, commit, publication, registration and notification is a
step of its own.

Some properties one might expect are false of the code. For each, the model keeps the
code as it is, a lemma leads to the failure by a run of the model's own steps, and another
says exactly when the property does hold:

- "One decision event per request": an ACP provider's `permission.decided` frame is appended
  as a decision event too. The store writes exactly one, for ever
  (`StoreInvariants.DecisionsAreForEver`); the log holds exactly one if and only if no
  appended frame names the request (`Acknowledgements.OneDecisionExactlyWithoutFrames`, with
  the run `Acknowledgements.AcknowledgedRequestHasTwoDecisions`). A repeated answer returns
  the store's decision if and only if the frames come after the answer
  (`Acknowledgements.RepeatedAnswerIsStoredExactly`, with the run
  `Acknowledgements.EarlyFrameIsRepeated`).
- A writer is alone on its directory as long as grant changes keep whether a directory with
  live tasks is locked (`Protection.WritersAreAlone`); a patch that unlocks it runs a waiting
  writer beside another (`Protection.UnlockingPatchRunsTwoWriters`). Under the scheduler's
  own calls it is alone if and only if every call that makes a waiting task active finds
  nobody it may not share with (`ServiceWriters.WritersAreAloneExactly`, with the run
  `ServiceWriters.PreparingByHandRunsTwoWriters`).
- The concurrency limit holds per admission, not per service call: it holds throughout a
  run of calls if and only if every call that makes a waiting task active still finds room
  (`ServiceCalls.LimitHoldsExactly`, with the run `ServiceCalls.SplitAdmissionsOvershoot`).
- The lock check and the lock insert of `acquire_lock` are two statements: exclusive locks
  stay alone if and only if every insert finds no conflicting lock of another task
  (`Writers.LocksStayExclusiveExactly`), which acquisitions that do not overlap on a
  directory ensure (`Writers.NonOverlappingLocksStayExclusive`) and overlapping ones break
  (`Writers.OverlappingAcquisitionsShareADirectory`).
- A transition may commit over a status it never validated: every winner applies to the
  status it validated if and only if no lifecycle event ever falls between a winner's two
  reads (`Writers.WinnersAreValidExactly`); `Writers.UndisciplinedRunRevivesTask` brings a
  cancelled task back.
- A failed admission can leave a newly held lock: exactly when the task is past Queued and
  its lock is free (`Admission.FailedAdmissionStrandsLockExactly`).
  `Execution.RetryStrandsLock` is a run that gets there, and
  `Execution.WaitingTaskNeverRuns` shows that only a cancel, or a grant without locks, ends it.
- Beginning to await a permission request can strand a caller if and only if the request is
  pending and somebody else is waiting for it or about to
  (`PermissionOverlaps.OverlapStrandsExactly`, `PermissionOverlaps.OverlappingAwaitsStrandOne`).
  A stranded caller gets an answer if the same answer is given again
  (`PermissionOverlaps.RepeatedAnswerWakes`), and otherwise never
  (`PermissionOverlaps.StrandedStaysUnanswered`).
- A stream may stay open for ever past its task's end: a stream can still close by itself if
  and only if it has not missed that end, a condition on what it has read and sent so far
  (`StreamEnds.ClosesExactlyUnlessMissed`); `StreamEnds.MissedEndStaysOpen` is a run that
  misses it.
- A tail loses events when publications overtake each other: a stream stays faithful
  throughout a run if and only if its tail never takes an event that skips one
  (`OutOfOrder.FaithfulExactlyUnlessAhead`), and a tail that drains the channel is gapless if
  and only if the channel is in commit order behind its mark
  (`OutOfOrder.DrainedTailIsGaplessExactly`); `OutOfOrder.SwappedPublicationsSkip` is a run.
- A remote id has one local task throughout if and only if no product enqueues a task with a
  remote id in use (`Addresses.OneTaskPerRemoteIdExactly`, with the run
  `Addresses.ProductTaskDoublesRemoteId`), and an event can stop the control-plane client if
  and only if some task's address is incomplete
  (`Addresses.StoppedExactlyByIncompleteAddresses`, with the run
  `Addresses.EmptyAddressLetsEventsStop`).
- Creating a grant aborts on an explicit empty mode list without a default mode, and only
  there: `Grants.CreatePanicsExactlyOnEmptyModes`.

`docs/tasks/phase-7-event-streaming.md` asks that a stream close once its task is terminal and
replayed; the code does so except in the hand-over case above.
`docs/tasks/phase-9-acp-adapter.md` asks that raw provider frames not be persisted; the code
appends the frame of a permission decision as it came. The model follows the code.

## Model

| member | source | states |
|---|---|---|
| `Lifecycle.PathsAreShort` | src/task/state.rs:15-44 | a history that follows the transition relation from Queued has at most four steps, never repeats a status, and is terminal only at its end |
| `Lifecycle.EventsAreNamedForStatuses` | src/store/tasks.rs:772-783 | each status is announced by the event of its own name and no other |
| `TaskModel.ValidExactly` | src/task/model.rs:82-107 | a request is valid exactly when owner, agent, directory and prompt are more than white space, some capability is asked for, the metadata is an object and a timeout is between a second and a day; only a blank prompt is named as such |
| `Directory.NewPolicyIsSound` | src/security/directory.rs:100-137 | a policy is accepted exactly when its sorted, duplicate-free form is sound, and that form is what is kept |
| `Directory.SoundPolicyIsNormal` | src/security/directory.rs:193-219 | normalising a sound policy changes nothing |
| `Directory.NormalFormIsInOrder` | src/security/directory.rs:193-205 | the normal form lists every capability once, in the order read, write, shell, git |
| `Directory.RefusedPolicyIsNamed` | src/security/directory.rs:100-137 | a policy is refused exactly for granting nothing, for having no modes or a default outside them, or for Write without locks, and the refusal names the first of these |
| `Directory.AuthorizesExactlyWhatItCovers` | src/security/directory.rs:154-190 | a grant authorises exactly what it covers, and names direct mode as the reason exactly when owner and capabilities fit and direct mode does not |
| `Locks.LockModeIsExactly` | src/scheduler/locks.rs:55-75 | no lock exactly under a grant without locks; an exclusive one exactly under an exclusive policy, whatever the task does, or for write, shell or git; a shared one otherwise |
| `Grants.ApplyKeepsSound` | src/store/directory_grants.rs:74-247 | create, patch and delete keep every stored grant sound, and a refused request leaves the table alone |
| `Grants.EveryStoredGrantIsSound` | src/store/directory_grants.rs:170-316 | after any run of creates, patches and deletes every stored policy is sorted, duplicate-free, non-empty, contains its default mode, and locks if it grants Write |
| `Grants.PatchingWithTheSamePolicyIsIdentity` | src/store/directory_grants.rs:170-234 | patching a stored grant with its own policy is the identity |
| `Grants.CreatePanicsExactlyOnEmptyModes` | src/store/directory_grants.rs:271-316 | creation aborts exactly on an empty mode list without a default mode |
| `Grants.CreatedPolicyIsExactly` | src/store/directory_grants.rs:271-316 | a created policy holds what was asked for; left open: worktree mode, worktree or else the first mode as default, an exclusive lock if it grants Write and else a shared one, direct mode only on opt-in, no remote execution |
| `Grants.CreationIsRefusedExactly` | src/store/directory_grants.rs:271-316 | creation is accepted exactly when worktree-only grants name a repository and the policy is one that may be |
| `Grants.PatchedPolicyIsExactly` | src/store/directory_grants.rs:188-207 | an accepted patch changes every field it names to what it says, and no other |
| `Grants.PatchIsAcceptedExactly` | src/store/directory_grants.rs:188-207 | a patch is accepted exactly when the policy so changed grants something, has its default among its modes, and locks if it grants Write |
| `Grants.RequestReachesItsGrantOnly` | src/store/directory_grants.rs:74-247 | a request changes its own grant only, never its owner, and each refusal is the one for its reason |
| `Grants.DirectoryGrantStore.CreateRow` | src/store/directory_grants.rs:74-128 | the table after a create is the one the request function gives |
| `Grants.DirectoryGrantStore.PatchRow` | src/store/directory_grants.rs:170-234 | the same for a patch |
| `Grants.DirectoryGrantStore.DeleteRow` | src/store/directory_grants.rs:236-247 | the same for a delete |
| `StoreInvariants.EventSourcing` | src/store/tasks.rs:196-250 | over every run of store calls, provider frames included, the lifecycle events of a log form a path of at most four steps from Queued, the stored status is its last element, and each timestamp is set exactly when its event is in the log |
| `StoreInvariants.RunsKeep` | src/store/tasks.rs:94-587 | every run of store calls keeps numbering, event sourcing, permission rows and lock exclusivity; logs only grow, ends are final and decisions are for ever |
| `Timestamps.TimesAreEventTimes` | src/store/tasks.rs:208-241 | in every run a recorded start or end time is the time of the event that announced it |
| `StoreInvariants.NumberedSequences` | src/store/tasks.rs:603-612 | the next number of a densely numbered log is its length plus one, and exactly the numbers up to its length are taken |
| `StoreInvariants.EventsAfterIsSuffix` | src/store/tasks.rs:324-344 | replay from a cursor is exactly the suffix of the log behind it |
| `StoreInvariants.ChangeStatusEffect` | src/store/tasks.rs:196-250 | a transition commits exactly when the lifecycle allows it and otherwise changes nothing; it never meets a number that is taken |
| `StoreInvariants.CommitTransitionKeeps` | src/store/tasks.rs:211-248 | the transaction of an allowed transition keeps every store invariant and only grows the database |
| `StoreInvariants.CreateKeeps` | src/store/tasks.rs:94-167 | creating a task keeps every store invariant |
| `StoreInvariants.AppendOutputKeeps` | src/store/tasks.rs:304-318 | appending what executions append, process output or a provider's frame, keeps every store invariant, leaves task rows and locks alone, and succeeds exactly for existing tasks |
| `StoreInvariants.SaveResultKeeps` | src/store/tasks.rs:293-302 | saving a result keeps every store invariant |
| `StoreInvariants.RecordPermissionEffect` | src/store/tasks.rs:346-396 | recording a request succeeds exactly for an existing task and an unused request id, adds the event and the pending row together, and otherwise changes nothing |
| `StoreInvariants.RecordPermissionKeeps` | src/store/tasks.rs:346-396 | recording a request keeps every store invariant |
| `StoreInvariants.ResolvePermissionEffect` | src/store/tasks.rs:455-536 | the first answer is recorded with its event and answered with its own status and decision, the same answer again returns the earliest event that names the request, another is refused, an unknown request or task is not found, and the two internal "missing" failures cannot occur |
| `StoreInvariants.ResolvePermissionKeeps` | src/store/tasks.rs:455-536 | answering keeps every store invariant |
| `StoreInvariants.RequestsMatchTheirLogs` | src/store/tasks.rs:346-536 | in every run a request is non-pending iff it has a response iff the store has written a decision event for it, which is then the only one it writes, later than the request and with that response |
| `StoreInvariants.SecondAnswersChangeNothing` | src/store/tasks.rs:455-536 | in every run answering again returns the earliest event that names the request or is refused, and changes nothing |
| `StoreInvariants.DecisionsAreForEver` | src/store/tasks.rs:455-536 | an answer and the one decision event the store wrote for it survive any further run |
| `Acknowledgements.NamingEventsAreCounted` | src/runtime/acp.rs:433-454 | over every run the decision events of a log that name a request are as many as the frames appended to it that do, and one more once it is answered |
| `Acknowledgements.OneDecisionExactlyWithoutFrames` | src/scheduler/execution.rs:184-189 | an answered request has exactly one decision event in its log if and only if no appended frame names it |
| `Acknowledgements.AcknowledgedRequestHasTwoDecisions` | src/runtime/acp.rs:447-451 | the run create, record, resolve, acknowledge leaves two decision events |
| `Acknowledgements.FirstIsStoredExactly` | src/store/tasks.rs:689-712 | the earliest event that names an answered request is the store's own if and only if every frame that names it came after the answer |
| `Acknowledgements.RepeatedAnswerIsStoredExactly` | src/store/tasks.rs:470-490 | the reply to a repeated answer carries the stored decision in exactly those runs |
| `Acknowledgements.EarlyFrameIsRepeated` | src/store/tasks.rs:689-712 | a denial framed by the provider before an approval is what approving again returns |
| `StoreInvariants.AcquireLockKeeps` | src/store/tasks.rs:538-567 | an acquisition that nothing comes between keeps a held exclusive lock alone on its directory |
| `StoreInvariants.ReleaseLocksKeeps` | src/store/tasks.rs:583-587 | releasing locks keeps every store invariant |
| `StoreAnswers.TransitionAnswers` | src/store/tasks.rs:196-250 | a transition of an existing task: when the lifecycle allows it the row moves, each time is set at its moment and never again, the event is logged under the next number and an end gives back the locks; otherwise nothing changes and the answer says why |
| `StoreAnswers.ReleaseFreesExactly` | src/store/tasks.rs:746-760 | a release gives back the task's held locks, as of now, and leaves every other row |
| `StoreAnswers.RequestIsRecorded` | src/store/tasks.rs:346-396 | recording a request adds its event and its pending row, in full |
| `TaskStores.TaskStore.Create` | src/store/tasks.rs:94-167 | the tables after the call are those of the specification, and exactly the committed event is published |
| `TaskStores.TaskStore.Transition` | src/store/tasks.rs:196-250 | the same for a transition: row, event and lock release together or not at all |
| `TaskStores.TaskStore.CommitStatus` | src/store/tasks.rs:211-248 | the transaction either applies in full or leaves every table as it was |
| `TaskStores.TaskStore.Append` | src/store/tasks.rs:304-318 | the same for an appended event |
| `TaskStores.TaskStore.ReadNextSequence` | src/store/tasks.rs:603-612 | the maximum over the task's rows, plus one |
| `TaskStores.TaskStore.ListEventsAfter` | src/store/tasks.rs:324-344 | the rows numbered above the cursor, in order |
| `TaskStores.TaskStore.RecordPermissionRequest` | src/store/tasks.rs:346-396 | the same for recording a request, rolled back when the request id is taken |
| `TaskStores.TaskStore.QueryDecisionEvent` | src/store/tasks.rs:689-712 | the earliest decision event on the request |
| `TaskStores.TaskStore.ResolvePermissionRequest` | src/store/tasks.rs:455-536 | the same for answering a request |
| `TaskStores.TaskStore.LocksAllow` | src/store/tasks.rs:538-547 | a walk over the held rows of the directory finds none that conflicts, exactly when there is none |
| `TaskStores.TaskStore.TryLock` | src/store/tasks.rs:538-567 | check and insert in sequence are the acquisition of the specification |
| `TaskStores.TaskStore.ReleaseTaskLocks` | src/store/tasks.rs:746-760 | the update, row by row, frees exactly the task's held rows |
| `Writers.LogsAreDense` | src/store/tasks.rs:603-612 | however the reads and inserts of any number of writers interleave, each log is numbered exactly 1..n, starts with Queued, and its last lifecycle event announces the stored status |
| `Writers.CompareAndSwap` | src/store/tasks.rs:196-250 | a commit wins exactly when nothing was appended since its number was read; a loser changes nothing; if both reads saw one log the winner applies to the very status it validated |
| `Writers.WinnerIsValidExactlyWhenWindowIsClean` | src/store/tasks.rs:202-209 | on a log that has been a lifecycle path so far, a winning commit applies to the status it validated if and only if no lifecycle event fell between its two reads |
| `Writers.WinnersAreValidExactly` | src/store/tasks.rs:202-250 | over every interleaving all winners apply to the status they validated if and only if no lifecycle event ever falls between a winner's two reads, and every log is then a lifecycle path |
| `Writers.DisciplinedRunsSerialise` | src/store/tasks.rs:196-567 | if every transition reads its number while its status stands, and every lock is inserted while its check does, the interleaving leaves exactly the database of a serial run of calls |
| `Writers.DisciplinedRunsAreSourced` | src/store/tasks.rs:196-567 | such interleavings keep every store invariant, lock exclusivity included |
| `Writers.LocksStayExclusiveExactly` | src/store/tasks.rs:538-567 | over every interleaving of lock checks, lock inserts and all other steps, a held exclusive lock is always alone on its directory if and only if every insert finds no conflicting lock of another task |
| `Writers.NonOverlappingLocksStayExclusive` | src/store/tasks.rs:538-567 | when acquisitions of one directory do not overlap, exclusive locks stay alone and every check still stands at its insert |
| `Writers.NonOverlappingRunsAreSourced` | src/store/tasks.rs:196-567 | with that, and every transition numbered while its status stands, interleavings keep every store invariant |
| `Writers.OverlappingAcquisitionsShareADirectory` | src/store/tasks.rs:538-567 | whenever nothing is held on a directory, two checks followed by two inserts leave two exclusive locks held on it |
| `Writers.UndisciplinedRunRevivesTask` | src/store/tasks.rs:202-209 | without that discipline a cancelled task can return to WaitingDirectoryLock |
| `Scheduler.AuthorizeFailsOnlyOn` | src/security/directory.rs:154-190 | after the enqueue pre-checks, authorisation fails exactly on a product or agent mismatch or refused remote execution |
| `Scheduler.EnqueueCreatesExactlyCoveredTasks` | src/scheduler/service.rs:61-125 | a task is created exactly when the pre-checks pass and the grant covers the request, and its log is one Queued event (`Enqueueing.EnqueueAcceptsExactly` says both without the pre-checks) |
| `Enqueueing.EnqueueAcceptsExactly` | src/scheduler/service.rs:61-125 | a task is enqueued exactly when the request is valid, the grant exists, is the product's and agent's own, and allows the capabilities, the mode (the one asked for, else the default), its opt-in and remote execution, and the profile exists, is the product's, agrees with every override and allows direct mode if that is it; the row has that mode, what was asked for and the profile's provider, model and permission mode; a refusal changes nothing |
| `Enqueueing.FirstFailedCheckDecides` | src/scheduler/service.rs:61-125 | the refusal is that of the first check that fails, in the order of the checks |
| `Engines.Engine.EnqueueTask` | src/scheduler/service.rs:61-125 | the method leaves the database and answer of the specification, which `Enqueueing.EnqueueAcceptsExactly` and `Enqueueing.FirstFailedCheckDecides` determine |
| `Engines.Engine.CountActive` | src/scheduler/service.rs:239-246 | the number of Preparing or Running tasks |
| `Engines.Engine.TryAcquireDirectoryLock` | src/scheduler/service.rs:127-167 | the method leaves the database and answer of the specification, which `Admission.LockStepAnswers` determines, including the lock row inserted before a refused transition |
| `Engines.Engine.PrepareTaskWorkspace` | src/scheduler/service.rs:175-195 | the same for workspace preparation and its failure path |
| `Engines.Engine.AdmitTask` | src/scheduler/execution.rs:73-131 | the same for the admission segment of task execution, which `Admission.AdmittedExactly` and `Admission.AdmitRefusesFirst` determine |
| `Engines.Engine.PersistTaskOutcome` | src/scheduler/execution.rs:178-213 | the same for outcome persistence: output, terminal status, result |
| `Engines.Engine.CancelTaskById` | src/scheduler/service.rs:224-233 | the same for cancelling |
| `TaskSystem.StepKeeps` | src/scheduler/execution.rs:73-213 | every step of the engine, grants changing freely, keeps the store invariants, locks owned by live tasks, results matching, workers in order and the limit |
| `TaskSystem.CapacityHolds` | src/scheduler/service.rs:127-195 | in every run, whatever becomes of the grants, at most max_concurrent_tasks tasks are Preparing or Running |
| `Protection.WritersAreAlone` | src/scheduler/execution.rs:122-131 | in every run whose grant changes keep whether a directory with live tasks is locked, an active task that requires Write, or Shell or Git under a grant with locks, or that holds an exclusive lock, is the only active task on its directory |
| `Protection.GrantChangeKeeps` | src/store/directory_grants.rs:170-247 | deletes, and patches that neither lock nor unlock a directory with live tasks, leave every active task protected |
| `Protection.AdmitKeepsProtected` | src/scheduler/locks.rs:55-75 | an admission leaves every active task holding a lock, an exclusive one if it does more than read, or on a directory without locks (`Holders.AdmittedTasksHoldTheirLocks` has each lock's mode) |
| `Protection.UnlockingPatchRunsTwoWriters` | src/store/directory_grants.rs:170-234 | a run in which a grant is patched to read-only without locks while one writer runs and one waits ends with both running |
| `TaskSystem.LocksBelongToLiveTasks` | src/store/tasks.rs:746-760 | every held lock belongs to an existing non-terminal task on that directory, and a held exclusive lock is the only one there |
| `TaskSystem.FirstTerminalIsFinal` | src/scheduler/execution.rs:178-213 | once a task is terminal no run changes its status or timestamps, and any stored result has that status |
| `TaskSystem.LosingOutcomeChangesNothing` | src/scheduler/execution.rs:178-213 | an outcome that lost the race to another terminal status writes nothing and stores no result |
| `TaskSystem.DrainIsPersistOutcome` | src/scheduler/execution.rs:178-213 | the single store calls of a worker, uninterrupted, add up to the whole of outcome persistence |
| `Admission.AdmitSucceedsExactly` | src/scheduler/execution.rs:73-131 | an admission succeeds exactly with a runtime, a workspace, room under the limit and a task in a state its lock mode lets through; the task is then Running with its lock, and every other task is as it was (`Locks.LockModeIsExactly` has the mode) |
| `Admission.TryAcquireSucceedsExactly` | src/scheduler/service.rs:127-167 | the lock step lets on a Queued task whose lock is free and any task that needs none while there is room; a free lock is taken even if the task may then not move (`Locks.LockModeIsExactly` has the mode) |
| `Admission.AdmittedExactly` | src/scheduler/execution.rs:73-131 | in terms of the policy: an admission succeeds exactly when runtime, workspace, grant and room are there and, without locks, the task waits or is being prepared, or, with locks, it is Queued and may have the directory, alone under an exclusive policy or if it does more than read; it then runs, and holds exactly that lock |
| `Admission.LockStepAnswers` | src/scheduler/service.rs:127-167 | the answer, the lock row and the event of the lock step, in terms of the policy, the room and who holds the directory |
| `Admission.PrepareAnswers` | src/scheduler/service.rs:175-195 | a waiting task is preparing from then on; without a workspace it fails, with the event that says so, unless it is Queued |
| `Admission.AdmitRefusesFirst` | src/scheduler/execution.rs:73-131 | the refusal of an admission: the look-ups in their order, which change nothing, then a lock not to be had, then a missing workspace, then a task in no state to be admitted |
| `Holders.HeldLocksLast` | src/store/tasks.rs:538-567 | in every run a held lock stays held, in its mode, until its task ends, whatever else is admitted, retried, failed or cancelled and however the grants change |
| `Holders.AdmittedTasksHoldTheirLocks` | src/scheduler/service.rs:148-167 | in every run a task admitted under a grant with locks holds its lock for as long as it lives: exclusively if it does more than read or the policy was exclusive at its admission, shared otherwise |
| `Holders.ExclusivePolicyMeansAlone` | src/scheduler/locks.rs:70-71 | in every run whose grant changes keep whether a directory with live tasks is locked, a task admitted under an exclusive policy is the only active one on its directory for as long as it is active, whatever it requires |
| `Admission.FailedAdmissionStrandsLockExactly` | src/scheduler/service.rs:148-165 | an admission fails yet newly holds a lock exactly when the task is alive and past Queued, its runtime is there and its lock is free; nothing but the lock table then changes |
| `Execution.RetryStrandsLock` | src/scheduler/service.rs:148-165 | a run from the empty store in which a writer made to wait is admitted again after the first has completed, and stays waiting with the exclusive lock held |
| `Execution.WaitingTaskNeverRuns` | src/task/state.rs:25-43 | a task that waits, and is not admitted under a grant without locks, never runs: in every later state it waits or is cancelled, whatever becomes of its grant |
| `Execution.ResultIsWrittenOnce` | src/scheduler/execution.rs:178-213 | a stored result is never written again in any further run |
| `Execution.HandedOverOutcomeIsRecorded` | src/scheduler/execution.rs:133-213 | a runtime's outcome, when nothing comes in between, ends in log and result as it was handed over: output in order, status, error, message |
| `Execution.RequestIsAskedAndAnswered` | src/store/tasks.rs:346-536 | in any state the engine comes to, a new request is recorded as pending and its first answer decides it, each with its event |
| `ServiceCalls.PrepareKeepsLimitExactly` | src/scheduler/service.rs:175-195 | `prepare_workspace` keeps the limit if and only if the task is not waiting or there is still room |
| `ServiceCalls.CallMovesExactly` | src/scheduler/service.rs:169-233 | marking, completing, failing and cancelling move the one task exactly when the lifecycle allows it, with the event and result of the call, and touch no other |
| `ServiceCalls.DoCounts` | src/scheduler/service.rs:61-247 | of all service calls only one that makes a waiting task active raises the number of active tasks, and by one |
| `ServiceCalls.LimitHoldsExactly` | src/scheduler/service.rs:127-195 | over every run of service calls the limit holds throughout if and only if every call that makes a waiting task active finds room at that moment |
| `ServiceCalls.SplitAdmissionsOvershoot` | src/tests/tasks.rs:595-625 | a run from the empty store, under a limit of one, takes two readers of a directory through the lock step and then prepares both, leaving two tasks active |
| `ServiceWriters.WritersAreAloneExactly` | src/scheduler/service.rs:127-195 | over every run of service calls writers are alone throughout if and only if every call that makes a waiting task active finds nobody active that it may not share with |
| `ServiceWriters.PreparingByHandRunsTwoWriters` | src/scheduler/service.rs:169-173 | a run from the empty store marks a writer that was refused its lock as preparing beside the one that got it |
| `Admission.OutcomeIsRecorded` | src/scheduler/execution.rs:178-213 | an uninterrupted outcome of a running task is recorded in full, output in order, then the end, status, result and freed locks, and no other task is touched |
| `Admission.OutcomeAnswers` | src/scheduler/execution.rs:178-213 | an outcome is refused exactly for a task that is not there, has ended otherwise, or is in no state to end so, and nothing but its output has then been logged |
| `Admission.CancelEndsTask` | src/scheduler/service.rs:224-233 | cancelling ends every task that has not ended otherwise, releases its locks, and is refused exactly on completed, failed and timed-out tasks |
| `EventStreams.StreamIsFaithful` | src/task/service.rs:126-206 | for every interleaving of commits, publications, repeats, drops and receives, a stream has delivered exactly the log entries above its cursor up to its high-water mark, in order, without gap or duplicate |
| `EventStreams.DrainedStreamIsComplete` | src/task/service.rs:160-202 | an open stream that has received everything published has delivered the whole log behind its cursor |
| `EventStreams.StreamNeverEndsEarly` | src/task/service.rs:131-198 | a stream that ends by itself leaves a log with a terminal event that was delivered or lies at or before the cursor |
| `EventStreams.EndsForItsReason` | src/task/service.rs:160-202 | a stream ends by an event or the end of the replay, by a client that goes away, or, while tailing, by a closed channel or an unreadable store, and is marked so |
| `EventStreams.OpenStreamPastEndMissedIt` | src/task/service.rs:131-155 | a stream open past its task's end read the status before that end, and the end lay before its cursor or was not last in the replay |
| `StreamEnds.MissedForGood` | src/task/service.rs:131-202 | a stream that has missed its task's end is closed by itself in no continuation |
| `StreamEnds.ClosesExactlyUnlessMissed` | src/task/service.rs:131-202 | a stream that has not ended can still close by itself if and only if it has not missed its task's end |
| `StreamEnds.MissedEndStaysOpen` | src/task/service.rs:131-155 | a run in which the task is cancelled and then logs output between the status read and the replay ends in a stream that delivered the end and never closes |
| `EventStreams.HandOverMissesEndExactly` | src/task/service.rs:134-137 | the exact condition under which the hand-over tails a log that has ended |
| `EventStreams.GaplessExactlyWhenInOrder` | src/task/service.rs:169-172 | from any high-water mark a tail forwards without gaps if and only if, behind the mark, first publications reach the channel in commit order |
| `EventStreams.TailForwardsByNumber` | src/task/service.rs:167-180 | what the tail forwards of a channel carrying any tasks' events is determined by the numbers of its own, up to the event that ends it |
| `OutOfOrder.FaithfulExactlyUnlessAhead` | src/task/service.rs:167-197 | over every run with publications in any order, lag included, a stream has delivered exactly the log between cursor and mark throughout if and only if its tail never takes an event that skips one |
| `OutOfOrder.DrainedTailIsGaplessExactly` | src/task/service.rs:167-180 | a tail that drains the channel without lag adds a stretch without gaps if and only if that part of the channel is in commit order behind its mark |
| `OutOfOrder.OrderedPublicationsAreNeverAhead` | src/store/tasks.rs:618-622 | when first publications reach the channel in commit order no tail skips an event |
| `OutOfOrder.SwappedPublicationsSkip` | src/task/service.rs:169-172 | two outputs committed and then published the other way round: the tail delivers the second and never the first |
| `EventStreams.TailLoop` | src/task/service.rs:160-202 | the loop over received events, lag, unreadable store, closure and a client that goes away computes the step functions the protocol is proved about |
| `Tails.LoopFollowsProtocol` | src/task/service.rs:160-202 | whatever the loop receives, event, lag, closure or unreadable store, what it sends and how it ends is what a run of the protocol's own steps sends and ends with |
| `EventStreams.StoreLogsCanBeStreamed` | src/task/service.rs:131-137 | every log of a store in good order meets the stream's assumptions, and a status is terminal exactly when the log holds a terminal event |
| `EventStreams.GrowthIsARunOfCommits` | src/store/tasks.rs:714-744 | whatever the store does to a log is a run of the stream model's commits |
| `Cursors.IdsResume` | src/task/service.rs:115-124 | an event id sent back as cursor or header resumes behind that event, the cursor wins, and with neither the whole log is replayed |
| `Cursors.AcceptedExactly` | src/task/service.rs:115-124 | exactly the decimal numbers from 0 to 2^63 - 1 are accepted, with an optional sign, a minus only on zero |
| `PermissionWaiters.StepKeeps` | src/task/service.rs:208-254 | every step of awaiters, resolvers and other store calls keeps the handshake's invariant |
| `PermissionWaiters.NoWakeUpIsLost` | src/task/service.rs:208-254 | in every run a waiting caller is registered, and a registered request is pending or a resolver that stored the answer has yet to notify |
| `PermissionWaiters.QuietWaitersAreUnanswered` | src/task/service.rs:220-254 | when no notification is outstanding, whoever waits does so for an unanswered request |
| `PermissionWaiters.NotifyWakes` | src/task/service.rs:64-73 | the notification hands the stored answer to the waiter and takes it out of the table |
| `PermissionAnswers.DecisionsReceivedAreStored` | src/task/service.rs:208-254 | every decision handed to a caller on either side is the durably stored one, in every run in which provider frames name the request after its answer only |
| `PermissionAnswers.RunPerforms` | src/task/service.rs:226-254 | the database of any run of awaiters and resolvers is that of a run of store calls |
| `PermissionAnswers.AwaitMeans` | src/task/service.rs:208-224 | asking about an unknown request fails, about an answered one returns the stored answer at once, and about a pending one leaves the caller waiting and registered |
| `PermissionAnswers.AskedAndAnswered` | src/task/service.rs:208-254 | asking and then answering a pending request stores the answer, hands it to the asker and tells the answerer |
| `PermissionAnswers.UnaskedIsRefused` | src/task/service.rs:231-235 | answering a pending request that nobody has asked about is refused and changes nothing |
| `PermissionAnswers.RepeatedAnswerReadsFirstMention` | src/store/tasks.rs:689-712 | the same answer given again hands on the first event that mentions the request: a provider's frame with its own decision and reason, a refusal if the frame has none; nothing is stored |
| `PermissionWaiters.OnlyAwaitedRequestsAreDecided` | src/task/service.rs:231-245 | a decision is stored only for a request somebody is registered for |
| `PermissionWaiters.FreshRequestIsAlone` | src/task/service.rs:208-224 | one await per request satisfies the no-overlap condition of these results |
| `PermissionOverlaps.OverlapStrandsExactly` | src/task/service.rs:208-224 | beginning an await can end in a stranded caller if and only if the request is pending and somebody else waits for it or is about to |
| `PermissionOverlaps.OverlappingAwaitsStrandOne` | src/task/service.rs:208-254 | whenever a request is pending and not awaited, two overlapping awaits can strand the second |
| `PermissionOverlaps.RepeatedAnswerWakes` | src/task/service.rs:226-254 | giving the same answer again changes nothing in the store and wakes the stranded caller with the decision of the earliest event that names the request, the stored one if the store wrote that event |
| `PermissionOverlaps.StrandedStaysUnanswered` | src/task/service.rs:208-254 | once the request's resolvers have ended, no continuation gives a stranded caller its answer unless somebody resolves the request again |
| `PermissionOverlaps.PendingRequestIsReachable` | src/store/tasks.rs:346-396 | a pending request that nobody awaits is reachable from the empty store |
| `PermissionWaiters.TaskEventBus.RegisterWaiter` | src/task/service.rs:51-62 | the table after a registration, with the displaced waiter failing |
| `PermissionWaiters.TaskEventBus.NotifyPermissionResolution` | src/task/service.rs:64-73 | the table and the waiter after a notification |
| `PermissionWaiters.TaskEventService.AwaitPermissionDecision` | src/task/service.rs:208-224 | the method performs the check and register steps |
| `PermissionWaiters.TaskEventService.ResolvePermissionResponse` | src/task/service.rs:226-254 | the method performs the resolver's steps in order, answers with the resolution or the failure of the step that stopped it, and publishes a new decision event a second time |
| `Dispatch.FindRemote` | src/control_plane/dispatch.rs:102-120 | a task carrying the remote id is found whenever there is one |
| `Dispatch.DispatchService.FindByRemoteTaskId` | src/control_plane/dispatch.rs:102-120 | the search finds the first such task |
| `Dispatch.FirstDispatchIsExactly` | src/control_plane/dispatch.rs:29-83 | a message for a remote id that no task carries is invalid exactly when some capability is none of read, write, shell and git or the mode neither worktree nor direct; otherwise the task is enqueued or refused as any is, and the row carries the message's product, agent, directory, prompt, timeout, remote id and token, its mode by name, the opt-in exactly for direct, and each capability exactly if it is named |
| `Dispatch.DispatchService.IngestTask` | src/control_plane/dispatch.rs:29-83 | the method leaves the database and answer of the specification, which `Dispatch.FirstDispatchIsExactly` and `Callbacks.RedeliveryIsIdempotent` determine |
| `Dispatch.DispatchService.CancelRemoteTask` | src/control_plane/dispatch.rs:85-100 | the same for a remote cancel |
| `Callbacks.AdvanceKeeps` | src/control_plane/client.rs:250-274 | every step of engine, dispatch and event handling keeps the client's invariant |
| `Callbacks.CallbacksFollowTheLifecycle` | src/control_plane/client.rs:250-408 | over a client lifetime, under any repetition, loss or reordering of events and any metadata, the callbacks for a task are a subsequence of claimed, started, its own end |
| `Callbacks.RemoteCallbacksFollowTheLifecycle` | src/control_plane/client.rs:250-408 | so are the callbacks for a remote id that one local task carries |
| `Callbacks.AnswerIsTrue` | src/control_plane/client.rs:313-408 | what an event makes the client send is true of its task and goes to its address, and it fails exactly when it is to be reported to an incomplete address (`Callbacks.EventsAreAnsweredExactly` says when it is sent) |
| `Callbacks.KeysNeverCollide` | src/control_plane/client.rs:337-417 | two callbacks of a task share a key exactly when they are one callback; sentinels never meet event numbers |
| `Callbacks.SuppressedMeansSent` | src/control_plane/client.rs:356-408 | a terminal event of a remote task fails exactly when its address is incomplete, and otherwise is passed over exactly when its end has been reported |
| `Callbacks.EventsAreAnsweredExactly` | src/control_plane/client.rs:250-408 | over a client lifetime: for every stored event, a claim while the task waits, a start while it runs, or its own end goes out, with the task's remote id, token and key, unless it was sent before; a broken address stops the client; nothing else is done |
| `Callbacks.SessionIsEventSteps` | src/control_plane/client.rs:250-274 | a session is its events taken one by one, each an event step of the client, until one stops it |
| `Callbacks.UnknownTaskStops` | src/control_plane/client.rs:250-274 | an event of a task that is not in the store stops the client exactly when it is one to report |
| `Callbacks.StrangersAreNotCalled` | src/control_plane/client.rs:322-353 | every callback goes to the remote id, and with the token, that its task carries |
| `Addresses.OneTaskPerRemoteIdExactly` | src/control_plane/dispatch.rs:29-83 | over any mix of dispatches, redeliveries, cancels and product enqueues, every remote id has at most one local task throughout if and only if no product task brings one in use |
| `Addresses.ProductTaskDoublesRemoteId` | src/api/tasks.rs:259-275 | a run in which a product task names a dispatched remote id ends with two tasks that carry it |
| `Addresses.StoppedExactlyByIncompleteAddresses` | src/control_plane/client.rs:250-274 | while nothing new is enqueued, an event can stop a running client if and only if some task's address is incomplete |
| `Addresses.AddressesCompleteExactly` | src/control_plane/dispatch.rs:53-60 | over every run all addresses are complete if and only if every task that is added brings a complete one |
| `Addresses.EmptyAddressLetsEventsStop` | src/api/tasks.rs:259-275 | a product task with an empty control-plane object leads to a client that an event can stop |
| `Callbacks.RedeliveryIsIdempotent` | src/control_plane/dispatch.rs:33-35 | dispatching a remote task that a local task carries answers with the first such task and changes nothing |
| `Callbacks.CancelReachesTheTask` | src/control_plane/dispatch.rs:85-100 | a remote cancel ends the first task that carries the id unless it ended otherwise, and frees its locks |
| `Dispatch.CancelIsRefusedExactly` | src/control_plane/dispatch.rs:85-100 | a remote cancel is invalid exactly when no task carries the id, and then changes nothing |
| `Callbacks.CallbackService.CallbackForTaskState` | src/control_plane/client.rs:313-354 | the set and the answer after the call are those of the specification, which `Callbacks.EventsAreAnsweredExactly` determines |
| `Callbacks.CallbackService.CallbackForEvent` | src/control_plane/client.rs:356-408 | the same for an event |
| `Callbacks.CallbackService.FollowEvents` | src/control_plane/client.rs:250-274 | the session's event arm handles events in turn, each as `Callbacks.EventsAreAnsweredExactly` says, until an error stops it |
| `Templates.FindPair` | src/runtime/template.rs:27-30 | the first occurrence of a doubled character, or none |
| `Templates.PrintOfParse` | src/runtime/template.rs:23-40 | every string is the print of the well-formed template it parses to |
| `Templates.ParseOfPrint` | src/runtime/template.rs:23-40 | a well-formed template parses back from its print |
| `Templates.RoundTripExactly` | src/runtime/template.rs:27-35 | a template survives printing and parsing if and only if its text has no "{{" nor, before a hole, a final "{", and its names no "}}" nor a final "}" |
| `Templates.ResolvesExactly` | src/runtime/template.rs:43-62 | each of the six names gives the text of its own field, is missing exactly when that field is, and any other name is unknown |
| `Templates.TrimMeans` | src/runtime/template.rs:33 | trimming takes the white space off both ends of a name and leaves what is between |
| `Templates.Render` | src/runtime/template.rs:23-40 | the loop computes the meaning of the parsed template, which `Templates.RendersExactly` determines |
| `Templates.RenderingUndoesPrinting` | src/runtime/template.rs:23-40 | a printed template renders to a text exactly when the text is the template with every hole filled by the field its name stands for, all else verbatim, whatever the values contain |
| `Templates.RendersExactly` | src/runtime/template.rs:23-40 | any input renders to exactly the text that fills the well-formed template it prints |
| `Templates.RenderSucceedsExactly` | src/runtime/template.rs:30-61 | rendering succeeds exactly when all holes are closed and all names known and given, and fails as unterminated exactly when only the closing is missing |
| `Templates.FirstFailureDecides` | src/runtime/template.rs:43-62 | any other failure is that of the first name that is not given: missing if it is one of the six, unknown if not |
| `Templates.ArgsRenderTogether` | src/runtime/template.rs:16-21 | all arguments render, each to its own rendering, or the first failure decides |
| `Transcripts.ApplyMeans` | crates/opendaemon-console-api/src/events.rs:22-26 | the new event replaces any with its number, nothing else changes, and the list stays in strict order |
| `Transcripts.FoldMeans` | crates/opendaemon-console-api/src/events.rs:22-26 | after any feed the list is strictly ordered and holds exactly the last event that arrived with each number |
| `Transcripts.DeliveryOrderDoesNotMatter` | crates/opendaemon-console-api/src/events.rs:22-26 | two deliveries of the same log events, however repeated and reordered, give one list |
| `Transcripts.FullDeliveryRestoresTheLog` | crates/opendaemon-console-api/src/events.rs:22-26 | hearing every event of a log at least once reproduces the log |
| `Transcripts.HearAllMeans` | crates/opendaemon-console-api/src/events.rs:14-19 | the cursor is the highest number heard |
| `Transcripts.ClientHoldsThePrefix` | src/task/service.rs:115-206 | across any number of cut and resumed sessions the client holds exactly the log up to its cursor |
| `Transcripts.EventList.ApplySseEvent` | crates/opendaemon-console-api/src/events.rs:22-26 | retain, push and sort leave the list of the specification |
| `Transcripts.EventCursor.ObserveEvent` | crates/opendaemon-console-api/src/events.rs:14-19 | the cursor moves to the greater of the two numbers |

## Left out

- HTTP routing, extractors, error-to-status mapping and product tokens: plumbing and small predicates around the services modelled here.
- SQLite, JSON encoding and clocks: tables are sequences and maps, payloads are opaque values, timestamps are inputs.
- Integer width: event numbers and the limit are unbounded; only the cursor's 64-bit range is written out, in `Cursors`.
- Child processes, ACP and HTTP adapters, the runtime registry and profile store: an execution is any process output with any terminal outcome, `RuntimeSearch` says which of profile, registry and runtime was found, and the agent profile is an input of enqueueing.
- Workspace preparation on disk and path canonicalisation: their verdicts are inputs.
- Results hold their task, status and final message; changed files, diff and other report fields are not part of this model.
- WebSocket sessions, registration, heartbeats and `used_callbacks` of the control-plane client: network code; a message that fails and so stops the client is modelled, a frame lost on the wire is not distinguished from one that arrived.
- A daemon restart: callback results are about one client lifetime, since the delivered set is not stored.
- `complete_task`, `fail_task`, `mark_preparing`, `mark_running` and `release_locks` called by hand: the engine's machine runs tasks by `execute_task` only; `ServiceCalls` and the store-level results cover them.
- The engine's machine takes store calls one at a time; interleavings inside a store call, the gap inside `acquire_lock` among them, are in `Writers`.
- Progress of waiting tasks and at-least-once callbacks: the code does not provide them.
- Reuse of a grant id after deletion: a new grant gets an id no grant has.
- `append_event` accepts any type; run-level results restrict it to what adapters produce: process output, and provider frames as decision events, whose `type` field tells them from the store's own.
- First publications of a task reach the channel in commit order in `EventStreams`; `OutOfOrder` drops that.
- Callbacks.SuppressedMeansSent: is stated for terminal events, because a claim or start is reported by the task's current status rather than by the event received.
- Grants.DirectoryGrantStore.CreateRow: does not model the path, only the verdict of its check, nor the created and updated times.
- Grants.DirectoryGrantStore.PatchRow: does not model the updated time.
- StoreInvariants.AcquireLockKeeps: takes check and insert as one step; `Writers` has them apart.
- TaskStores.TaskStore.TryLock: runs check and insert with nothing in between; `Writers` lets other steps in.
- EventStreams.OpenStreamPastEndMissedIt: goes one way; `StreamEnds.ClosesExactlyUnlessMissed` has both.
- `parse_sse_block`, list filters and permission listings: easy string and filter loops.
- Console screens and registry manifests: no part in the engine's behaviour.
