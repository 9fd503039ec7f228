# Verified model of the Ironflow Go SDK's client protocols

The Ironflow Go SDK carries durable workflows, projections, workers and subscriptions across
crashes, reconnects and arbitrary goroutine schedules. This project models the protocols that make
that work and proves what every run of them keeps. The server is an abstract environment: it
answers, loses replies, drops connections and grants leases as it likes, within the few rules
listed under "Hypotheses".

`dafny verify dfyconfig.toml` checks the whole project (Dafny 4.11).

## Modules

| module | what it models |
|---|---|
| `Optional` | values that may be missing |
| `StepIds` | the spelling of step ids, the legacy spelling and the bridge between them |
| `Durable` | handlers as program trees, memoized steps, nested fan-outs under every interleaving |
| `Replay` | replay against the memo table, and persisted rows over interrupted attempts |
| `ReplayHistory` | histories of attempts that crash, park and are resumed, against one undisturbed run |
| `ConcurrencyLimit` | the semaphore of a fan-out, at every nesting depth |
| `FanOutLimits` | fan-outs with a concurrency limit and failFast, nested to any depth |
| `Compensations` | saga compensations over interrupted attempts |
| `Checkpoints` | incremental checkpoints and the terminal report |
| `Projections` | the reducer, `processManaged` as a refinement of the per-event fold, and resuming at the saved cursor |
| `ProjectionLease` | any number of projection runners under epoch fencing |
| `StreamingWorker` | admission, the worker phase and graceful drain; the polling worker |
| `SubscribeHandshake` | Subscribe callers, the reader, cancellation and close on one connection |
| `CursorResume` | cursor subscriptions over reconnects, on both transports |
| `AckBook` | ack ids, outcomes and delivered copies of one consumer-group stream |
| `GroupStream` | join and rejoin racing with Unsubscribe |
| `RunVersionFilter` | the bounded version filter against one with unlimited memory |
| `CommandDedup` | claim, finalize and release over a conditional-create store |
| `Retry` | the client's retry loop |

State that the SDK updates under one owner is a class whose methods are proved against
specification functions (`StepIds.Scope`, `Compensations.ExecutionContext`,
`Checkpoints.StepCheckpointer`, `Projections.Runner`, `RunVersionFilter.Filter`,
`AckBook.StreamConn`). Goroutines that interleave are state machines: every critical section,
atomic access and channel operation is one step, and the main results quantify over all runs.

## Hypotheses

- A handler is deterministic given its step replies: it is a tree whose continuations map replies to
  subtrees.
- `UniqueFans`: a scope does not open two non-empty fan-outs of one name. `Replay.RepeatedFanCollides`
  shows two such fan-outs claiming one step id. `TableOverridesBodies`, `PersistedStepNeverRunsAgain`
  and `ScheduleIndependent` do not need it.
- `Unaliased` (only for `Replay.ReplayIsMemoOverride` and the results of `ReplayHistory`): no id the
  run uses is the unescaped spelling of a different claim of the run. `StepIds.ResolveInjectiveIff`
  says exactly when the legacy bridge is harmless.
- Between attempts the server keeps completed rows and adds only rows the attempt reported. For
  `ReplayHistory` a step body also replies the same in every attempt, the server adds rows of parked
  steps as it likes, and it repeats a resume context until the table holds the row it stands for.
- The projection server fences saves and acks by epoch, rewinds a stream to the saved cursor, and a
  request does not land after the client has given it up.
- `EmptyMeansInitial`: a reducer that can return `{}` treats `{}` like its initial state.
  `Projections.BatchingUnobservableIff` proves that this is exactly the condition. What one batch
  saves is stated without it (`Runner.ProcessManaged`).
- Events of a projection have distinct, positive, growing sequence numbers, for the results over many
  batches and many runners. Within one batch `Projections.BatchResumesIff` gives the exact condition
  on ties: no sequence number is shared across the boundary of two runs.
- Jobs of an earlier connection of the streaming worker hold different active keys.
- A subscribe request gets one result and accepted ids are fresh; a subscription's frames arrive in
  order; published sequence numbers increase and exceed the initial cursor.
- Fewer than 2^64 acks are registered on one stream (the counter is a `uint64` that wraps).
- Command dedup: no expiry, no `IsOwner`, only winners finalize or release, and each release is
  attempted once. `CommandDedup.SoundIffNoHarm` and `ReleaseSafeIff` give the exact condition on
  releases that break the last rule.

## What the proofs found about the code

- Limit plus failFast: what a fan-out reports depends on the schedule, unless every failure its
  branches can end with is the same and some branch cannot avoid it, or none can fail and each can
  end only one way (`FanOutLimits.LimitedVerdictIff`).
- Two events that share a sequence number across a run boundary: once the first run is saved, the
  second event is behind the cursor and is never delivered again (`Projections.SharedSeqLosesEvent`).
- `reserveSubscribeAttempt` checks for an active subscription and reserves in two critical sections.
  Two callers that both look first both subscribe, and the first id keeps its entry in
  `subscriptions` while no pattern names it (`SubscribeHandshake.TwoCallersSplitMaps`). That is so
  exactly when an install meets an occupied pattern (`MapsAgreeIff`), and every such install ends a
  stale reservation (`OverwriteWasStale`).
- A frame that does not decode is skipped and the next one moves the cursor past it
  (`CursorResume.UndecodableFrameLeavesGap`). An event is missing for good exactly when a later,
  sequenced frame of its subscription was delivered before it (`MissingIff`); until then it is still
  after the cursor, where a reconnect serves it again (`Position`).
- `sendLoop` sees its queue empty and then calls `CloseRequest`. What is queued in between is never
  sent (`StreamingWorker.AllSentIff`). While the worker drains that can be a nack
  (`DrainLosesControl`) but no report (`DrainLosesNoReport`). After a Stop it can be the report of a
  job that ended (`StoppedDrainLosesReport`), exactly when the job queues it then (`ReportLostIff`,
  `LateReportNeedsStop`).
- The streaming worker refuses a job only while draining: once stopped it still admits assignments
  (`StreamingWorker.StoppedWorkerStillAdmits`). The polling worker refuses in both phases.
- `MaxAttempts` below 1 makes `withRetry` return nil without sending (`Retry.WithRetry`).
- A repeated `Release` deletes another caller's claim (`CommandDedup.RepeatedReleaseBreaks`). A second
  winner can follow exactly when the release reaches the store while another caller is the winner
  (`ReleaseSafeIff`); with no live winner it is harmless.

## Model

| member | source | states |
|---|---|---|
| `StepIds.EscapeInjective` | ironflow/step.go:155-173 | two names with one escaped spelling are equal |
| `StepIds.ClosedSplit` | ironflow/step.go:155-173 | an escaped segment ends at the first separator that is not escaped, so it can be cut off uniquely |
| `StepIds.OutOfPhase` | ironflow/step.go:155-173 | two readings of one id that are off by a numeric segment never agree again, so an index never lines up with an unescaped `publish:` or `compensate:` prefix |
| `StepIds.IdInjective` | ironflow/step.go:176-190 | the escaped id determines scope path, step name and counter, for all names and nesting depths |
| `StepIds.IdReadsBack` | ironflow/step.go:176-190 | an id is the run id, then each fan-out with its branch, then the step name with its counter: undoing the escapes gives the names and reading base 10 gives the indices, without leading zeros |
| `StepIds.LegacyIdReads` | ironflow/step.go:187-188 | the unescaped id is the same with the names as they are |
| `StepIds.DecimalReads` | ironflow/step.go:176-190 | an index is spelled in base 10 without leading zeros |
| `StepIds.UnescapePart` | ironflow/step.go:163-173 | undoing the escapes of a part gives the name back, namespace prefix included |
| `StepIds.PartUnchangedIff` | ironflow/step.go:150-173 | a part is spelled as it is if and only if what follows its namespace prefix has no colon and no backslash |
| `StepIds.PlainIdUnchanged` | ironflow/step.go:150-173 | names with neither a colon nor a backslash keep the ids they had before escaping, in every scope |
| `StepIds.LegacyIdCollides` | ironflow/step.go:187-188 | the unescaped spelling is not injective, with two claims that share one |
| `StepIds.ResolveInjectiveIff` | ironflow/step.go:205-216 | two claims never read one memo row, if and only if no row read under a legacy spelling is another claim's escaped id or legacy row |
| `StepIds.ResolveReachesOnlyOwnId` | ironflow/step.go:205-216 | an escaped id that is not in the table can only be taken by its own claim |
| `StepIds.Scope.GenerateStepId` | ironflow/step.go:238-247 | each call issues a claim the scope never issued before, resolved against the memo table |
| `Durable.VerdictByIndex` | ironflow/parallel.go:342-357 | a fan-out's verdict is the lowest-index yield, else (unless allSettled) the lowest-index error, else every result at its branch's index |
| `Durable.JoinBranches` | ironflow/parallel.go:342-365 | the scans over the yield, error and result arrays compute that verdict |
| `Durable.StepConsumes` | ironflow/parallel.go:280-340 | every action of every goroutine, at any nesting depth, keeps the outcome and moves exactly its own claim from what is to come into the log |
| `Durable.ScheduleIndependent` | ironflow/parallel.go:235-365 | without a limit or with allSettled, every interleaving claims the same steps in the same branches, gets the same replies, and ends with the same outcome after the same number of actions |
| `Durable.Progress` | ironflow/parallel.go:626-752 | no schedule gets stuck, with or without a limit |
| `ConcurrencyLimit.NeverOverLimit` | ironflow/parallel.go:291-298 | in every state of every run, each fan-out with a limit, however deeply nested, has at most that many branches at work |
| `ConcurrencyLimit.FanHasItsLimit` | ironflow/parallel.go:256-298 | the limit that holds is the one the handler asked for, over all its branches |
| `ConcurrencyLimit.LeavesQueueIff` | ironflow/parallel.go:291-298 | a queued branch can leave the queue if and only if there is no limit or fewer branches than the limit are at work |
| `ConcurrencyLimit.QueuedOrLeft` | ironflow/parallel.go:291-298 | a queued branch stays queued, or starts with a scope of its own, or is skipped when the limited failFast fan-out already has a branch that failed or yielded |
| `FanOutLimits.LimitedVerdictIff` | ironflow/parallel.go:261-345 | under a limit and failFast, whatever the branches hold, all schedules reach one verdict if and only if every failure any branch can end with is the same and some branch cannot avoid it, or no branch can fail and each can end only one way |
| `FanOutLimits.FirstFails` | ironflow/parallel.go:286-298 | each failure a branch can end with has a schedule in which that branch runs alone, fails so, and every queued branch is skipped |
| `FanOutLimits.AgreedVerdict` | ironflow/parallel.go:286-298 | under that condition skipped branches do not change the verdict |
| `FanOutLimits.AllReturn` | ironflow/parallel.go:280-340 | any results the branches can return, one each, are the results of some schedule |
| `FanOutLimits.CanFinish` | ironflow/parallel.go:280-365 | every handler can run to an end from every start, however fan-outs and limits nest |
| `FanOutLimits.PlainVerdictIff` | ironflow/parallel.go:261-345 | with branches that skip nothing, the verdict is one exactly when all branches whose sequential meaning fails fail the same way |
| `Replay.ClaimsDistinct` | ironflow/step.go:227-247 | with unique fan-out names, no claim is made twice in an invocation, in any scope |
| `Replay.RepeatedFanCollides` | ironflow/step.go:227-235 | a handler with two fan-outs of one name in one scope claims one id twice |
| `Replay.TableOverridesBodies` | ironflow/step.go:392-507 | for every handler and memo table, the outcome and claims are those of a run whose bodies reply the stored outputs, and the bodies executed are exactly those of claims without a completed row |
| `Replay.ReplayIsMemoOverride` | ironflow/step.go:392-507 | persist any part of what an attempt executed: the next attempt sees the same replies, ends the same way and executes exactly the bodies whose completed row was not persisted |
| `Replay.ResolveStable` | ironflow/step.go:205-216 | a table grown by rows of its own run does not change the id a claim resolves to |
| `Replay.PersistedStepNeverRunsAgain` | ironflow/job_executor.go:99-114 | over any number of attempts, interleavings and crashes, a step whose completed row reached the server is answered with that row, under that id, ever after |
| `Replay.StoredRowIsRead` | ironflow/step.go:392-507 | in a history, a completed row is read under the same id by every later claim of its step, which it answers with what the row says |
| `Replay.RunSees` | ironflow/step.go:392-507 | a step with a body gets its completed row's output and otherwise runs its body |
| `Replay.SleepSees` | ironflow/step.go:779-792 | in every interleaved attempt a sleep is over if and only if its row is completed or the attempt resumes from it |
| `Replay.WaitSees` | ironflow/step.go:888-935 | a wait gets its completed row's output and else the resume data; a null row fails a plain wait and is null for an optional one; anything else parks |
| `Replay.InvokeSees` | ironflow/step.go:1011-1032 | an invoke gets its row's output, its row's error or a timeout, by the status of the row, and otherwise parks |
| `Replay.InvokeAsyncSees` | ironflow/step.go:1089-1110 | an asynchronous invoke gets its row's output or error and otherwise parks; it has no timeout |
| `ReplayHistory.EvalExtends` | ironflow/step.go:762-955 | for every handler, when whatever a run answered is answered alike and parked steps may have replied, the new run makes every claim of the old one and, if that did not park, is the same |
| `ReplayHistory.HistoryReplaysUndisturbed` | ironflow/job_executor.go:99-114 | over any history of interleaved attempts that crash anywhere, persist any part of what they executed, park at sleeps, waits and invokes and are resumed or given results, every attempt makes only the claims of the undisturbed run from the first table whose parked steps reply the values known so far, with its ids and replies, and every attempt that finishes made all of them and ended with that run's outcome |
| `ReplayHistory.UndisturbedRunsExtend` | ironflow/job_executor.go:99-114 | those undisturbed runs are one run that gets further: a later one keeps every claim, id and reply of an earlier one, and equals it if that one did not park |
| `ReplayHistory.AttemptsAgree` | ironflow/step.go:392-507 | a claim that two attempts of a history both make has one id and, unless it was parked in the earlier attempt, one reply |
| `ReplayHistory.OutcomeStays` | ironflow/job_executor.go:99-114 | once an attempt ended without parking, every later attempt that finishes ends the same way |
| `ReplayHistory.ParkedStepReplies` | ironflow/step.go:779-788 | a parked step for which the next attempt's row or resume context holds a reply, by its fields, gets exactly that reply under the same id |
| `ReplayHistory.StoredReplyStays` | ironflow/step.go:1011-1032 | and every later claim of the step in any attempt gets exactly that reply, failures and timeouts of an invoke included |
| `ReplayHistory.SleepIsPassed` | ironflow/step.go:779-788 | a history that parks at a sleep and, once its row is stored, returns is among those the results are about |
| `Compensations.ExecutionContext.Compensate` | ironflow/step.go:700-750 | one compensation takes the next root id, is skipped when its row is completed and otherwise recorded, failed or not |
| `Compensations.ExecutionContext.ExecuteCompensations` | ironflow/step.go:689-750 | the loop records what the specification walk records |
| `Compensations.ExecutionContext.RegisterCompensation` | ironflow/step.go:669-677 | registering puts this compensation first in every later walk, under the next id of its name, and leaves the rest as before with that id taken |
| `Compensations.ExecutionContext.FailTerminally` | ironflow/job_executor.go:228-235 | a job that registers a list and fails terminally adds exactly the records of an attempt of the histories, wherever it is interrupted |
| `Compensations.RegisteredLastRunsFirst` | ironflow/step.go:669-750 | a compensation registered last runs first, under the next id of its name, and the earlier ones then run as if it had never been registered, with that id taken |
| `Compensations.ReverseAndComplete` | ironflow/step.go:689-750 | the records name, in exactly reverse registration order, precisely the compensations without a completed row; no failure stops the walk |
| `Compensations.RecordsAreTrue` | ironflow/step.go:700-750 | each record carries its registration's own id and result |
| `Compensations.CompClaimsDistinct` | ironflow/step.go:700-710 | repeated step names never share a claim |
| `Compensations.CompletedCompensationNeverRunsAgain` | ironflow/step.go:700-720 | over interrupted attempts that register the same list, a compensation recorded as completed is skipped under the same id |
| `Checkpoints.EncodableSteps` | ironflow/encode_guard.go:16-28 | returns the longest encodable prefix and the step it stopped at |
| `Checkpoints.StepCheckpointer.Append` | ironflow/step.go:255-260 | a handler's step joins the executed steps, moves nothing else, and the server's array stays a prefix of them |
| `Checkpoints.StepCheckpointer.Unsaved` | ironflow/job_executor.go:354-368 | a progress report carries at most 500 encodable steps right after the cursor |
| `Checkpoints.StepCheckpointer.Flush` | ironflow/job_executor.go:354-377 | the cursor advances by what was sent only when the report was acknowledged, and whatever became of the report the server's array stays a prefix of the executed steps that reaches the cursor |
| `Checkpoints.StepCheckpointer.Finish` | ironflow/job_executor.go:379-406 | writing the returned steps at the returned offset completes the server's array to exactly the executed steps, and writing their longest encodable prefix completes it to the longest encodable prefix of the executed steps, after any appends and flushes before |
| `Checkpoints.Overwrite` | ironflow/job_executor.go:354-377 | resending an overlapping slice leaves the longer of the two prefixes |
| `Checkpoints.CheckpointsConserveSteps` | ironflow/job_executor.go:263-275 | after every interleaving of appends and delivered, refused or reply-lost reports, a terminal report that gets through leaves the server with exactly the executed steps in place, and on the failure path with their longest encodable prefix |
| `Projections.BatchingUnobservableIff` | ironflow/projection_runner.go:774-782 | cutting events into batches is unobservable if and only if a reducer that can return `{}` treats `{}` like its initial state |
| `Projections.FoldAllIsPartitionFold` | ironflow/projection_runner.go:837-845 | the per-event fold gives each partition the reducer's fold over exactly its own events |
| `Projections.SortBySeqSorts` | ironflow/projection_runner.go:749-750 | the batch is put in seq order and is a permutation |
| `Projections.SortIsStable` | ironflow/projection_runner.go:749-750 | events of one seq keep their order |
| `Projections.CutRuns` | ironflow/projection_runner.go:751-761 | the runs are consecutive events of one partition, as long as possible, and together they are the batch |
| `Projections.Runner.Load` | ironflow/projection_runner.go:847-885 | the loaded states are the saved ones that are not `{}`, and behave like the saved ones when `{}` means the initial state |
| `Projections.Runner.ReduceRun` | ironflow/projection_runner.go:793-814 | the handler loop over a run is the fold |
| `Projections.Runner.ProcessRun` | ironflow/projection_runner.go:783-834 | a run is reduced from the batch's state or InitialState and saved with its last seq or not at all, and a failure stops the batch |
| `Projections.Runner.ProcessManaged` | ironflow/projection_runner.go:745-834 | for every reducer and whatever fails, exactly the seq-ordered prefix made of the runs before the first failure is saved (with that run when only its reply was lost): each partition of the prefix holds the reducer folded over its events, from its saved state, or from InitialState, or `{}` without one, when that is missing or `{}`, and no other partition changed; when `{}` means the initial state that is the old state advanced by the prefix |
| `Projections.NewPartitionStarts` | ironflow/projection_runner.go:778-787 | a partition whose saved state is missing or `{}` starts from InitialState, and from `{}` without one |
| `Projections.SavedWhere` | ironflow/projection_runner.go:837-843 | an event without a partition is saved in `__global__`, and any other in the partition it names |
| `Projections.LoadedFolds` | ironflow/projection_runner.go:774-834 | for every reducer, saving from the loaded states folds each partition over its own persisted events and touches no other |
| `Projections.Runner.ProcessRuns` | ironflow/projection_runner.go:783-834 | the loop stops at the first run that fails, succeeds exactly when every run saves, and leaves the run-by-run saved state |
| `Projections.SaveRunsAdvances` | ironflow/projection_runner.go:783-834 | saving run by run is the per-event fold over the persisted prefix of the sorted batch |
| `Projections.CursorResumesIff` | ironflow/projection_runner.go:745-748 | once a prefix of a sorted batch is saved with its last seq, the events with a larger seq are exactly the rest, if and only if the prefix does not end between two events of one seq |
| `Projections.BatchResumesIff` | ironflow/projection_runner.go:745-834 | a batch leaves exactly its unsaved events after the saved cursor, however it fails, if and only if no seq is shared across the boundary of two runs |
| `Projections.SharedSeqLosesEvent` | ironflow/projection_runner.go:745-834 | two events of one seq in two partitions: after the first save nothing follows the cursor and the second event was not applied |
| `Projections.Runner.ReadStream` | ironflow/projection_runner.go:412-512 | a stream opened at the saved cursor that delivers a first part of what follows it, in any order, saves some first part of that in seq order, and the rest is what follows the new cursor |
| `Projections.Runner.StreamLoop` | ironflow/projection_runner.go:354-401 | over any number of streams and batches that fail anywhere, the server holds the old state advanced by exactly the events between the old and the new cursor; when nothing follows the cursor that is one undisturbed pass over all of them, and one undisturbed round gets there |
| `ProjectionLease.SaveKeeps` | ironflow/projection_runner.go:783-834 | a save, applied, reply-lost or refused, keeps every runner and the server consistent |
| `ProjectionLease.SavedStateIsFold` | ironflow/projection_runner.go:159-259 | in every reachable state, for any number of runners acquiring, losing, crashing and saving late, each partition's saved state is the fold over exactly its events with a seq up to the saved cursor |
| `ProjectionLease.HolderGoesOnFromCursor` | ironflow/projection_runner.go:412-512 | in every reachable state the lease holder's unsaved events, followed by what its stream has yet to deliver, are exactly the events after the saved cursor |
| `ProjectionLease.AckedEventsWereHandled` | ironflow/projection_runner.go:898-930 | in every reachable state of an external projection, for every handler, each event with a seq up to the acknowledged cursor was handled |
| `ProjectionLease.AnyRunnerCatchesUp` | ironflow/projection_runner.go:354-512 | from every reachable state any runner can acquire the lease and catch up, and then the saved states are the per-event fold of the whole log, or every event of an external projection was handled |
| `ProjectionLease.LogIsAppended` | ironflow/projection_runner.go:412-512 | the log is what was appended, whatever the runners do |
| `StreamingWorker.NeverOverCapacity` | ironflow/worker_streaming.go:525-608 | in every interleaving at most MaxConcurrentJobs jobs are running |
| `StreamingWorker.AssignmentStartsIff` | ironflow/worker_streaming.go:525-608 | in every interleaving and phase, an assignment whose key is not active starts a job if and only if the worker was not draining when it was tested, fewer than MaxConcurrentJobs jobs ran when it was counted, and it converts |
| `StreamingWorker.AssignmentAlone` | ironflow/worker_streaming.go:525-608 | from every reachable state of an idle, connecting, connected or stopped worker with room, an assignment handled without interruption starts its job |
| `StreamingWorker.RefusedAlone` | ironflow/worker_streaming.go:538-553 | while the worker drains, or is full, an assignment is refused and leaves the worker as it was |
| `StreamingWorker.NoTwoJobsOfOneKey` | ironflow/worker_streaming.go:525-598 | a duplicate assignment never runs beside the job it repeats |
| `StreamingWorker.PhaseMovesForward` | ironflow/worker.go:122-144 | Stopped is absorbing and Draining is left only for Stopped, over all interleaved compare-and-swap loops; a closed flush signal stays closed |
| `StreamingWorker.StoresAlone` | ironflow/worker.go:122-144 | a compare-and-swap loop alone stores its phase, unless the worker is stopped or drains and the loop respects draining |
| `StreamingWorker.GivesUpAlone` | ironflow/worker.go:122-144 | in those two cases it gives up and changes no phase |
| `StreamingWorker.NothingStartsAfterZero` | ironflow/worker_streaming.go:226-268 | once a drain has read a zero count, no job is running in any later draining state |
| `StreamingWorker.FlushSendsAll` | ironflow/worker_streaming.go:443-451 | in every phase, what is on the wire ever after the send loop saw its queue empty is everything queued by then, in order, the report of every job that had ended and queued one included |
| `StreamingWorker.AllSentIff` | ironflow/worker_streaming.go:443-451 | everything queued was sent if and only if nothing was queued since the send loop saw its queue empty |
| `StreamingWorker.LostConnectionIsSilent` | ironflow/worker_streaming.go:430-463 | a lost connection sends nothing more, unless its stream was already half-closed |
| `StreamingWorker.ReportLostIff` | ironflow/worker_streaming.go:443-451 | a queued report is lost if and only if its job queued it after the send loop saw its queue empty |
| `StreamingWorker.LateReportNeedsStop` | ironflow/worker_streaming.go:226-268 | a report is queued that late only in a stopped worker |
| `StreamingWorker.DrainLosesNoReport` | ironflow/worker_streaming.go:430-463 | from the half-close on nothing is sent, and in every state in which the worker still drains every report ever queued was sent, that of every ended job that queued one included |
| `StreamingWorker.ClosedAfterSeeEmpty` | ironflow/worker_streaming.go:443-451 | every half-close follows a test that saw the queue empty |
| `StreamingWorker.LateReportIsLost` | ironflow/worker_streaming.go:443-451 | from every reachable state between the test and CloseRequest with an executing job and room in the queue, the job can report and end with its report never sent |
| `StreamingWorker.StoppedDrainLosesReport` | ironflow/worker_streaming.go:443-451 | such a run exists from every idle new connection: a drain, a Stop, and a job admitted after it |
| `StreamingWorker.DrainLosesControl` | ironflow/worker_streaming.go:443-451 | a control message queued in between is lost although the worker still drains |
| `StreamingWorker.PollerNothingStartsAfterZero` | ironflow/worker.go:723-781 | once any Drain of the polling worker has read a zero count, before or after a Stop, no job runs in any later state |
| `StreamingWorker.PollerStartsExactly` | ironflow/worker.go:723-760 | over every run of the polling worker, what is running is what ran at first and every polled job whose key is not active while the worker neither drains nor is stopped, less what has finished |
| `StreamingWorker.StartedJobIsActive` | ironflow/worker.go:723-760 | a started job has its key until it is removed |
| `StreamingWorker.PollDrainStays` | ironflow/worker.go:327-356 | after a drain begins the polling worker starts no job and leaves the phase only for Stopped |
| `StreamingWorker.PollStopIsFinal` | ironflow/worker.go:358-372 | after a stop the polling worker starts no job in any later state |
| `StreamingWorker.StoppedWorkerStillAdmits` | ironflow/worker_streaming.go:525-608 | from every stopped state with room, an assignment still starts a job |
| `SubscribeHandshake.NeverBoth` | ironflow/subscribe.go:1085-1146 | in every run no accepted id is both installed and answered with an unsubscribe, even during close |
| `SubscribeHandshake.NeverNeither` | ironflow/subscribe.go:631-690 | while the client is open and the reader is between frames, the accepted ids are exactly the installed and the unsubscribed ones |
| `SubscribeHandshake.MoverMoves` | ironflow/subscribe.go:1085-1146 | from every open state with a result under way, the reader or the caller it serves can take a step |
| `SubscribeHandshake.OwesKept` | ironflow/subscribe.go:1085-1146 | every step of the reader and the caller it serves brings the decision about all accepted ids closer, and no other step of anyone puts it off |
| `SubscribeHandshake.AcceptedIdsSettle` | ironflow/subscribe.go:631-747 | in every interleaving, once the reader and the caller it serves have taken ten more steps of an open client, every id accepted before them is installed or unsubscribed and not both, and until then one of the two can take a step |
| `SubscribeHandshake.OccupiedLookReturns` | ironflow/subscribe.go:692-703 | a caller that looks while the pattern is occupied has returned in every later state and never reserves, sends or installs |
| `SubscribeHandshake.ReservesOrWaits` | ironflow/subscribe.go:692-723 | a caller reserves when no attempt is pending and otherwise waits for the pending one |
| `SubscribeHandshake.WaiterGoesOn` | ironflow/subscribe.go:692-747 | the attempt a caller waits for is pending, or done, and then it can look again and go on if the pattern is free |
| `SubscribeHandshake.UnsubscribeFrees` | ironflow/subscribe.go:692-723 | unsubscribing frees the pattern for the next caller while the two maps agree |
| `SubscribeHandshake.StepSplitsIff` | ironflow/subscribe.go:692-723 | one step of an open client breaks the agreement of the pattern map and the subscription map if and only if it installs over an occupied pattern |
| `SubscribeHandshake.MapsAgreeIff` | ironflow/subscribe.go:692-723 | the two maps agree at every moment of a run of an open client if and only if no step of the run installs over an occupied pattern |
| `SubscribeHandshake.OverwriteWasStale` | ironflow/subscribe.go:692-723 | every install over an occupied pattern ends a race: its caller looked while the pattern was free, another caller installed, and only then did the first one reserve |
| `SubscribeHandshake.MapsAgreeUnlessStale` | ironflow/subscribe.go:692-723 | without a stale reservation the pattern map and the subscription map agree at every moment of an open client |
| `SubscribeHandshake.TwoCallersSplitMaps` | ironflow/subscribe.go:692-723 | two callers reach that state from a new client |
| `CursorResume.Position` | ironflow/subscribe.go:1412-1464 | a resubscription is served from the first event after its cursor |
| `CursorResume.ResubscriptionServes` | ironflow/subscribe.go:1412-1464 | in every run, a resubscription with a cursor is served every event after it and no other, one without only what is published later |
| `CursorResume.FullChannel` | ironflow/subscribe.go:1230-1295 | on a full channel a cursor subscription makes the connection fall behind and passes over nothing; one without a cursor drops the event and goes on |
| `CursorResume.NoGaps` | ironflow/subscribe.go:1230-1295 | over all publishes, deliveries, timeouts, drops and reconnects of a shared connection, every event after the initial and up to the current cursor was delivered, save frames that did not decode |
| `CursorResume.InOrderExactlyOnce` | ironflow/subscribe.go:899-925 | when frames carry their sequence number, a cursor subscription delivers in order and each event once |
| `CursorResume.GapStepIff` | ironflow/subscribe.go:1230-1295 | one step leaves a gap behind the cursor if and only if it delivers a sequenced frame of the subscription while an event before it is undelivered |
| `CursorResume.MissingIff` | ironflow/subscribe.go:1230-1295 | in every state of every run an event is missing behind the cursor if and only if such a delivery overtook it; no reconnect brings it back |
| `CursorResume.UndecodableFrameLeavesGap` | ironflow/subscribe.go:1230-1235 | a new client reaches such a state: the first frame does not decode and the second is delivered |
| `CursorResume.Receive` | ironflow/subscribe_connectrpc.go:416-466 | the receive loop of one stream takes the frames up to the first that ends it, and keeps the cursor gap-free and in order |
| `CursorResume.StreamSubscription` | ironflow/subscribe_connectrpc.go:395-487 | the reconnect loop takes the attempts up to the first that ends it, and keeps the cursor gap-free and in order over every sequence of streams |
| `CursorResume.ServedFrames` | ironflow/subscribe_connectrpc.go:416-466 | every frame served before one ends the loop is handled: a delivered one's event is delivered, any other is skipped |
| `CursorResume.OnlyServed` | ironflow/subscribe_connectrpc.go:416-466 | nothing is delivered that was not served in a delivered frame |
| `CursorResume.GoesOnIff` | ironflow/subscribe_connectrpc.go:467-487 | another attempt is made if and only if there is a cursor, no frame ended the loop, and the failure is retryable and was waited out |
| `CursorResume.RetriesResume` | ironflow/subscribe_connectrpc.go:395-487 | after any number of retryable attempts the next one is made from the cursor they left, and what it delivers is after that cursor and ends delivered |
| `AckBook.StreamConn.Finish` | ironflow/consumer_group_stream_conn.go:66-78 | ending fails every pending ack, each exactly once |
| `AckBook.StreamConn.MarkDelivered` | ironflow/consumer_group_stream_conn.go:80-98 | counts a copy after dropping exactly the entries whose latest copy is too old |
| `AckBook.StreamConn.Resolve` | ironflow/consumer_group_stream_conn.go:117-126 | a result reaches its pending ack and no other; an unknown id changes nothing |
| `AckBook.StreamConn.Register` | ironflow/consumer_group_stream_conn.go:128-148 | refuses on an ended stream and, when manual, for an event without a copy; otherwise the next id becomes pending |
| `AckBook.StreamConn.Forget` | ironflow/consumer_group_stream_conn.go:150-154 | drops the pending entry and nothing else |
| `AckBook.StreamConn.ApplyOk` | ironflow/consumer_group_stream_conn.go:206-226 | settles one copy and drops the entry with its last |
| `AckBook.UnsettledIsLargestSurplus` | ironflow/consumer_group_stream_conn.go:206-226 | the copy count is the largest surplus of arrivals over settlements counted from any point since the last drop |
| `AckBook.AckIdsAreFresh` | ironflow/consumer_group_stream_conn.go:128-148 | every registered ack id is new on its stream |
| `AckBook.AtMostOneOutcome` | ironflow/consumer_group_stream_conn.go:66-78 | every ack id receives at most one outcome and a pending one none yet, so the one-slot send never blocks, whatever the server repeats |
| `AckBook.ChannelIsTold` | ironflow/consumer_group_stream_conn.go:66-126 | over every run, an ack's channel holds exactly the server's verdict for its id that came while it was pending, or the end of the stream |
| `AckBook.ToldStays` | ironflow/consumer_group_stream_conn.go:66-126 | a told ack keeps its outcome in every later state, whatever the server repeats |
| `AckBook.TakesWhatWasTold` | ironflow/consumer_group_stream_conn.go:185-205 | a waiting call whose pending ack was told takes exactly that: success, an AckError, or a stale ack |
| `AckBook.AnswerIsTheServers` | ironflow/consumer_group_stream_conn.go:185-214 | a settle call returns success, or an AckError, only when the server answered its own ack id so while it was pending |
| `AckBook.SettleStarts` | ironflow/consumer_group_stream_conn.go:128-148 | on an ended stream, or a manual one without a copy of the event, a settle call returns a stale ack and does nothing; any other registers the next ack id for its event |
| `AckBook.SettleAlone` | ironflow/consumer_group_stream_conn.go:128-226 | from every reachable state an undisturbed settle call sends its frame, returns success on the server's OK and settles exactly one copy |
| `AckBook.Unanswered` | ironflow/consumer_group_stream_conn.go:150-205 | a failed Send is a stale ack if the stream has ended by then, EOF always is, and a Send or result that does not come in time is reported so; the ack is forgotten |
| `AckBook.EndedStaysEmpty` | ironflow/consumer_group_stream_conn.go:128-148 | an ended stream has no pending ack and never gains one |
| `AckBook.FramesAreForUnsettledCopies` | ironflow/consumer_group_stream_conn.go:128-172 | every ack frame on a manual stream was for an event with an unsettled copy when its id was registered |
| `GroupStream.AtMostOneMember` | ironflow/consumer_group_stream.go:172-227 | at most one stream is live at a time, the one the opening goroutine holds |
| `GroupStream.NoJoinAfterStop` | ironflow/consumer_group_stream.go:215-226 | once stopCh is closed the current stream never changes |
| `GroupStream.NoMemberOutlivesUnsubscribe` | ironflow/consumer_group_stream.go:431-445 | after the half-close every joined stream is over or still in the opener's hands, and after the forced teardown all are over |
| `GroupStream.LateJoinIsRefused` | ironflow/consumer_group_stream.go:215-226 | a join in hand when stopCh closes is never installed and leaves only cancelled |
| `GroupStream.OpenerStopsSoon` | ironflow/consumer_group_stream.go:172-227 | after stopCh is closed the opening goroutine takes at most five more steps, whatever the server and Unsubscribe do meanwhile |
| `GroupStream.OpenerCanStop` | ironflow/consumer_group_stream.go:215-226 | until it has ended it can always take a step, and once it has ended every stream it joined is cancelled |
| `GroupStream.InstalledIff` | ironflow/consumer_group_stream.go:215-226 | a join that takes the lock becomes the current stream if and only if stopCh is still open |
| `GroupStream.GoesOnIff` | ironflow/consumer_group_stream.go:172-227 | a read that is over, or a join let go, is followed by another attempt if and only if the error permits it and nothing has ended the subscription |
| `GroupStream.UndisturbedJoin` | ironflow/consumer_group_stream.go:172-227 | from every reachable state about to open, an undisturbed join becomes the live, current stream |
| `GroupStream.ContextEndsStreams` | ironflow/consumer_group_stream.go:172-227 | once the join context has ended, every stream opened before or after is cancelled |
| `RunVersionFilter.KeyNamesRun` | ironflow/run_events.go:93-112 | the key of a frame determines its run |
| `RunVersionFilter.RunTopic` | ironflow/run_events.go:93-112 | `system.run.{run}.{event}` is a frame of that run, under the run's key |
| `RunVersionFilter.StepTopic` | ironflow/run_events.go:93-112 | `system.run.{run}.step.{id}.{event}` is a frame of that step, under a key of its own, also when the id has dots |
| `RunVersionFilter.OnlyRunTopics` | ironflow/run_events.go:93-112 | no other topic is a frame of a run |
| `RunVersionFilter.Filter.Accept` | ironflow/run_events.go:93-149 | map and recency list keep the same keys within the limit, and the verdict and new memory are the specification's |
| `RunVersionFilter.EvictionOnlyPermits` | ironflow/run_events.go:93-149 | over every frame sequence, each frame the bounded filter drops is dropped by the one with unlimited memory |
| `RunVersionFilter.ExactWhileItFits` | ironflow/run_events.go:136-149 | while the keys fit, the two filters are the same |
| `RunVersionFilter.OrderIsKept` | ironflow/run_events.go:113-135 | unlimited memory drops every later frame with a smaller version and everything after a deletion |
| `RunVersionFilter.DroppedIff` | ironflow/run_events.go:93-135 | unlimited memory drops a frame if and only if its run was deleted before and it is no deletion, or an earlier frame of its key carried a larger version |
| `CommandDedup.TryClaim` | ironflow/command_dedup.go:139-181 | the first round that is not lost decides: its create wins, its read returns the entry it found, or it fails; and a race error exactly when every round is lost |
| `CommandDedup.RequestsAnswer` | ironflow/command_dedup.go:139-197 | in every run a create on an empty store wins when its reply arrives, one on a taken store goes on to read, a read that finds an entry ends the claim with exactly it, and a finalize stores its value |
| `CommandDedup.AtMostOneWinner` | ironflow/command_dedup.go:139-208 | at most one caller is a live winner, over all interleavings, lost races and lost replies |
| `CommandDedup.FinalizedValueIsReturned` | ironflow/command_dedup.go:183-197 | once a finalize reached the store, every read that arrives returns exactly the finalized entry and no create wins again |
| `CommandDedup.ReleaseKeepsIff` | ironflow/command_dedup.go:199-208 | a release by any caller that is not at Finalize keeps the protocol sound if and only if it does not reach the store while another caller is the winner |
| `CommandDedup.SoundIffNoHarm` | ironflow/command_dedup.go:199-208 | over every run with releases out of turn, the protocol is sound at every moment if and only if none of them does |
| `CommandDedup.ReleaseSafeIff` | ironflow/command_dedup.go:199-208 | after such a release at most one winner stays live however the callers go on, if and only if it did not reach the store beside another winner, claimed or finalized |
| `CommandDedup.RepeatedReleaseBreaks` | ironflow/command_dedup.go:199-208 | two callers and a repeated release reach that state from an empty store |
| `Retry.DelayIsBounded` | ironflow/client.go:2262-2282 | every wait is at most the larger of MaxDelay and ConnectionRetryDelay, Retry-After included |
| `Retry.RetryAfterIsHonoured` | ironflow/client.go:2284-2287 | every wait is at least the smaller of Retry-After and MaxDelay, and is exactly that when Retry-After is longer than the wait would be |
| `Retry.PlainDelay` | ironflow/client.go:2265-2287 | without a longer Retry-After the wait is ConnectionRetryDelay after a connection error and the backoff after any other failure |
| `Retry.BackoffStarts` | ironflow/client.go:2271-2282 | the first backoff is InitialDelay, capped at MaxDelay |
| `Retry.BackoffGrows` | ironflow/client.go:2271-2282 | the backoff never shrinks, and until it reaches MaxDelay each one is BackoffMultiplier times the last up to the fractions cut off |
| `Retry.ComputeBackoff` | ironflow/client.go:2271-2282 | the multiplication loop computes that backoff |
| `Retry.WithRetry` | ironflow/client.go:2232-2312 | at most MaxAttempts sends, each after a reply that permits it; returns the last reply or the context's end; a write is applied at most once when only rate-limited replies guarantee no effect; every wait is between the smaller of Retry-After and MaxDelay and the larger of MaxDelay and ConnectionRetryDelay |
| `Retry.WriteAppliedAtMostOnce` | ironflow/client.go:2490-2493 | any sends of a write of which all but the last got a rate-limited reply apply it at most once |
| `Retry.OtherwiseAppliedTwice` | ironflow/client.go:2490-2493 | resending after any other failure can apply a write twice |

## Left out

- Transports, TLS, headers, authentication and discovery: I/O around the protocols.
- The CRUD clients (key-value, config, files, schema, webhook, project, user, ops): thin requests.
- JSON and protobuf: payloads are opaque values, encodability and decodability are predicates,
  cloning a state is identity.
- Real time, the memory model and channel-close panics: timeouts are steps that may happen, locks
  are atomic steps.
- Cancellation of a handler's context: a cancelled job is an attempt that stops. A step timeout is a
  failed reply.
- The warnings about branches that use an outer scope, and branches that do so.
- `OnError` values other than failFast and allSettled.
- Compensations of the streaming worker's job-failure path, and a handler that returns a nil map.
- Connection loss during a subscribe, resubscribe attempts and terminated subscriptions:
  `SubscribeHandshake` is about one connection.
- The order in which a shared socket interleaves two subscriptions' replays, `Replay` options, and
  reconnect delays.
- The queue and pump of a consumer-group stream, its error reports, and counting acks against copies
  when two callers ack one event at once.
- The renewal timer and release of a projection lease: the server may grant a new epoch at any time.
- Expiry and `IsOwner` of command dedup.
- CursorResume.NoGaps: excepts frames that do not decode, because the code passes over them;
  `CursorResume.MissingIff` says exactly which events are lost.
- Replay.ReplayIsMemoOverride: needs `UniqueFans` and `Unaliased`, as do the results of
  `ReplayHistory`; `Replay.TableOverridesBodies` is the form without them.
- ReplayHistory.HistoryReplaysUndisturbed: is about handlers whose fan-outs skip no branch, because
  under a limit and failFast the outcome depends on the schedule.
- HMAC signatures, agent dispatch, upcasters, enum mappings and config validation.
