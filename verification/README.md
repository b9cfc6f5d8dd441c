# OpenRTC coroutine worker: a verified model

OpenRTC runs many voice sessions as cooperative asyncio tasks in one worker process. This
project models the worker and the logic around it, and proves what holds over every run: every
interleaving of launches, faults, cancellations, hang-ups, drains, reloads and queries, for any
number of sessions, tenants and agents.

`dafny verify dfyconfig.toml` checks everything.

## How it is modelled

- **Sessions.** A session task is a machine whose states are the places where its coroutine is
  suspended (`SessionTask.dfy`); a step runs from one await to the next. `SessionProgram.dfy`
  writes the same coroutine as the source does, statement by statement with loops and early
  exits, and proves that it passes through exactly the states of the machine. An await may come
  back in any way its place allows: return, raise, be cancelled, or time out where a timeout
  wraps the whole end hook.
- **The worker.** `Worker.dfy` steps the pool, every session ever launched and the shared metrics
  by event-loop steps and outside calls in any order. `WorkerRuns.dfy` proves the inductive
  invariant, `WorkerTheorems.dfy` and `WorkerDrain.dfy` the guarantees, `SessionOutcomes.dfy` that
  every reported outcome is the way its `run_session` was left and what a kill settles,
  `WorkerSupervisor.dfy` that the supervisor follows the statuses of the closed executors,
  `WorkerJournal.dfy` that the metrics rows are the sessions' effects in order, and
  `WorkerGate.dfy` that the breaker and the caps see what the sessions record. A launch is one
  atomic step; done callbacks run as their own later steps.
- **Objects.** What the source updates in place is a class whose methods are proved against
  functions on values: executor, pool, metrics store, JSONL sink, circuit breaker, file watcher,
  session registry, reload coordinator. The theorems are about those functions.
- **Circuit breaker.** The shared deques and deadlines refine a specification that recomputes
  everything from one tenant's whole history. `TenantIsolation.dfy` lifts this to all tenants.
- **Admission and routing.** The two separately written resolvers are related to each other, and
  the nested filters to one decision.
- **Hot reload.** Debounce and collapse (`FileWatcher.dfy`), import with rollback, re-bind and
  coordinator (`Reload.dfy`), and runs that mix them with session starts, ends and pins
  (`ReloadRuns.dfy`).
- **Argument rewriting and signed membership.** `Argv.dfy` relates the stripping loop to a
  reading of the token positions; `Membership.dfy` gives a decoder for the signing message.

Times, windows and ratios are reals. Strings are sequences of characters, except in
`Membership.dfy`, where text is a sequence of code points, lone surrogates included.

## Where the code and its documentation disagree

The model follows the code.

- `_canonical` promises that no two distinct tuples share a message. ASCII-only JSON writes the
  code point 1F600 and the two lone surrogates D83D DE00 the same way, so the promise holds
  exactly up to UTF-16 spelling (`Membership.SameMessage`, `Membership.SpelledOutPairCollides`).
- The `draining` property says it is true after `aclose`. `aclose` clears `_started` and leaves
  `_draining` alone, so the flag is set exactly once a drain has begun (`WorkerDrain.DrainingExact`,
  `WorkerDrain.ClosedIsNotDraining`); launches are then refused because the pool is not started.
- A session can report a success and not be SUCCESS on its executor. That happens exactly when a
  caller settled its status first, when a held call was not torn down whole, or when the inline end
  notifications were left early (`WorkerTheorems.StatusExact`, `WorkerTheorems.ReportAndStatus`).
  Inputs: a call cancelled while held open, whose error was captured before; a fake job cancelled
  while its end is notified; a call nobody cancels whose teardown raises a cancellation of its
  own, which stays RUNNING and counts as a failure for the supervisor; and an uncancelled session
  one of whose end hooks raises when called.
- The notification loops promise to isolate every observer. The hook is called while the arguments
  of the isolating function are evaluated, so what the call itself raises, as a plain function or
  with the wrong arity, leaves the loop: at the start it fails the session, at the end it skips
  the remaining observers, and only those (`WorkerTheorems.StartFaultFails`,
  `WorkerTheorems.FaultyStartExample`, `WorkerTheorems.StartMeetsItsFinish`,
  `WorkerTheorems.FaultyHookReportsSuccess`).
- The sink's `open` says each opening starts a fresh stream. It truncates the file and never resets
  the count, so line numbers start at 1 only in a file opened before anything was written
  (`MetricsStream.NumberedFromOneIffFirst`, `MetricsStream.ReopenedGoesOn`).
- `rebind_agent` says a lagging session catches up on a later swap. It does only if that swap
  brings a class other than the registered one (`Reload.AllCurrentIffNewOrNoneLagged`,
  `Reload.LaggardStaysBehind`), and a
  reload that falls between a session's start and its registration passes it by
  (`ReloadRuns.ReloadDuringStartIsMissed`).
- `reload_agent_module` promises to leave the running module alone on failure. Module code that
  raises something other than an `Exception` escapes before the rollback, a name blocked by a
  `None` entry is unblocked, and what the code itself imported stays in any case
  (`Reload.RollbackExact`, `Reload.ExitKeepsHalfRun`, `Reload.BlockedIsPopped`).
- `_owns_room` says that metadata naming an unregistered agent is not ours. Such a room is still
  owned, and routing raises, exactly when room metadata names one of ours or the room name has a
  prefix of ours (`RequestFilter.OwnedYetRefused`, `RequestFilter.OwnedByPrefixYetRefused`).
- `FileWatcher.stop` says it drops unflushed events. It does when its first call returns. Before
  that, events are delivered exactly when a flush was scheduled at the call, a batch came while that
  flush was awaited, and its timer fired (`FileWatcher.DeliveredDuringStop`,
  `FileWatcher.DeliveredDuringStopExample`).
- `_resolve_request_tenant` says it mirrors the session's resolution; it does exactly when the raw
  value has no outer whitespace (`RequestFilter.FilterAndSessionTenant`, `RequestFilter.PaddedTenant`).

## Assumptions

- The pool's failure limit is at least 1, as its constructor checks.
- Observers are registered before the sessions they observe start.
- The end hook's timeout is positive, and `asyncio.wait_for` starts the awaited coroutine inline,
  as it does from Python 3.12 on.
- The clock is nondecreasing where a statement says so, and only there.
- Change paths and source paths are already resolved, and a module is named by its path.
- A registered session has a current agent, and an `update_agent` that raises leaves its class as
  it was.
- A task runs its done callbacks in the order they were added, so the pool's, added at launch, runs
  before any join of that task wakes.
- The shutdown future is awaited directly: a held call wakes cancelled exactly when a cancellation
  is pending, and a cancellation is pending until the next step of its task.

## Model

| member | source | states |
|---|---|---|
| `WorkerTheorems.StartMeetsItsFinish` | src/openrtc/core/wiring.py:156-232 | In every run of any number of sessions a log holds at most one start, then at most one failure, then at most one finish; once the task is over a recorded start has its finish if and only if the pool has an end hook or the end was not deferred, and then every observer, up to one whose hook raises when called, was told of it unless the task was cancelled or the hook timed out, and all were told of the start if the end was a success |
| `WorkerTheorems.StartFaultFails` | src/openrtc/observability/base_observer.py:233-248 | A session with a start hook that raises when called never reports a success and is never SUCCESS |
| `WorkerTheorems.FaultyStartExample` | src/openrtc/observability/base_observer.py:233-248 | A concrete run: the only start hook raises when called, and the session is FAILED and reports a failure |
| `WorkerTheorems.UnroutedRecordsNothing` | src/openrtc/runtime/coroutine_runtime.py:226-324 | A session cancelled before its first step, or failing in setup or in `build_session`, never records a start, failure or finish, however the run continues |
| `WorkerTheorems.RunOnlyAdds` | src/openrtc/core/wiring.py:156-232 | Continuing a run never unwrites a log entry, changes a job, un-cancels a task or reopens an ended one |
| `WorkerTheorems.StatusSettlesOnce` | src/openrtc/runtime/coroutine_runtime.py:178-201 | Whatever order kill, aclose, swallowed cancellations and completion come in, a status that has left RUNNING never changes again |
| `WorkerTheorems.SuccessIsEarned` | src/openrtc/runtime/coroutine_runtime.py:265-298 | SUCCESS implies the entrypoint returned normally; for a held call it also implies a requested shutdown and a whole teardown; and the end is, or will be, reported as a success |
| `WorkerTheorems.StatusExact` | src/openrtc/runtime/coroutine_runtime.py:265-298 | An ended session is SUCCESS exactly when its entrypoint returned, its teardown ran whole if it was held, and no caller settled its status first; an uncancelled session that reports a success returned exactly when its end was deferred or no end hook raised when called |
| `WorkerTheorems.ReportAndStatus` | src/openrtc/core/wiring.py:200-212 | Reported outcome and executor status agree exactly where a reported success goes with a return, a whole teardown of a held call, and no earlier kill; for an uncancelled session whose hooks can be called, exactly where a held success was torn down whole |
| `WorkerTheorems.CancelledWhileHeldReportsSuccess` | src/openrtc/core/wiring.py:200-212 | A concrete run: a call cancelled while held open is FAILED and has reported a success |
| `WorkerTheorems.CutTeardownReportsSuccess` | src/openrtc/runtime/coroutine_runtime.py:326-352 | Another: a call nobody cancels, whose teardown raises a cancellation of its own, stays RUNNING and has reported a success |
| `WorkerTheorems.CancelledInNotifyReportsSuccess` | src/openrtc/core/wiring.py:121-139 | Another: a session never held, cancelled while its end is notified, is FAILED and has reported a success |
| `WorkerTheorems.FaultyHookReportsSuccess` | src/openrtc/observability/base_observer.py:251-266 | Another: an uncancelled session, one of whose end hooks raises when called, is FAILED and has reported a success |
| `WorkerRuns.EveryRunKeepsInv` | src/openrtc/runtime/coroutine_runtime.py:636-723 | Sessions, gauges, tracked set, lifecycle events and supervisor stay mutually exact after every sequence of steps from a fresh worker |
| `WorkerRuns.StepKeepsInv` | src/openrtc/runtime/coroutine_runtime.py:636-723 | Each single step, of the event loop or of an outside caller, keeps that invariant |
| `SessionFacts.ResumeKeepsInv` | src/openrtc/runtime/coroutine_runtime.py:265-324 | However an await comes back, the next stretch of one session up to its next await keeps the per-session invariant |
| `SessionFacts.BeginKeepsInv` | src/openrtc/runtime/coroutine_runtime.py:226-267 | So does the first stretch of a session, in each way it can go |
| `SessionFacts.ResumeLater` | src/openrtc/runtime/coroutine_runtime.py:265-324 | A stretch of a session only appends to its log, never moves a settled status, and never runs the done callback |
| `SessionFacts.ResumeRank` | src/openrtc/runtime/coroutine_runtime.py:265-324 | Every stretch uses up part of a bound computed from the number of observers and teardown awaits |
| `SessionOutcomes.OutcomeExact` | src/openrtc/core/wiring.py:175-217 | In every run a session reports, or is to report, an outcome if and only if its `run_session` was left that way: by an exception of an await inside the `try` or of the call of a start hook, by a cancellation at such an await or, while the task was being cancelled, in a start notification, or well; and a failure is recorded if and only if it was left by an exception |
| `SessionOutcomes.StepReports` | src/openrtc/core/wiring.py:175-217 | The same of one stretch: what it adds to the reported outcomes and to the recorded failures is exactly the way it leaves `run_session` |
| `SessionOutcomes.FaultsAreIsolated` | src/openrtc/observability/base_observer.py:194-230 | What an awaited observer hook or a teardown call raises leaves the session exactly where a normal return leaves it; so does the own cancellation of a hook while the session is not being cancelled |
| `SessionOutcomes.CancellationLeaves` | src/openrtc/observability/base_observer.py:210-230 | A genuine cancellation inside an end notification ends the task with the remaining observers untold, and so does the timeout of the end hook |
| `SessionOutcomes.BuildFailureFails` | src/openrtc/runtime/coroutine_runtime.py:226-283 | A session whose build fails is FAILED at once; one cancelled before its first step, or failing in setup, keeps the status it had |
| `SessionOutcomes.HeldCallsWait` | src/openrtc/runtime/coroutine_runtime.py:284-296 | A call with a primary session that is not fake, and no other, is held open after `run_session`; a deferrable end of such a call waits for the end hook, any other is reported at once |
| `SessionOutcomes.CancelledHold` | src/openrtc/runtime/coroutine_runtime.py:287-298 | A held call cancelled before its teardown is FAILED unless settled before; one cancelled inside its teardown keeps the status it had; neither counts as torn down |
| `SessionOutcomes.KillSettles` | src/openrtc/runtime/coroutine_runtime.py:193-201 | A kill in flight counts one more cancellation, to be delivered at the next step, leaves no RUNNING status, and makes a RUNNING one FAILED in every continuation |
| `SessionOutcomes.AcloseCancels` | src/openrtc/runtime/coroutine_runtime.py:178-184 | An aclose in flight counts one more cancellation and waits; the status stays |
| `SessionOutcomes.AcloseSettles` | src/openrtc/runtime/coroutine_runtime.py:185-191 | After its return no status is RUNNING, and one that was is FAILED in every continuation |
| `SessionOutcomes.NothingInFlight` | src/openrtc/runtime/coroutine_runtime.py:178-201 | On an executor with nothing in flight kill and aclose do the same: clear `started` |
| `SessionProgram.SessionCoroutine.RunEntrypoint` | src/openrtc/runtime/coroutine_runtime.py:226-324 | The entrypoint wrapper written statement by statement ends in exactly the state the step machine reaches on the same replies from outside |
| `SessionProgram.SessionCoroutine.RunSession` | src/openrtc/core/wiring.py:156-217 | `run_session` with its except and finally clauses leaves the machine where the executor takes over, with the error that leaves it |
| `SessionProgram.SessionCoroutine.RunBody` | src/openrtc/core/wiring.py:175-194 | The try block of `run_session`: start recorded, connect, start, notify, greet, out at the first error |
| `SessionProgram.SessionCoroutine.FinishInline` | src/openrtc/core/wiring.py:121-139 | `_finish_session`: finish recorded, then every observer told, cut short only by a cancellation of the session or a hook that raises when called |
| `SessionProgram.SessionCoroutine.NotifyStart` | src/openrtc/observability/base_observer.py:233-248 | The start notification loop agrees with the machine observer by observer: what an awaited hook raises is isolated, what its call raises is not |
| `SessionProgram.SessionCoroutine.TearDown` | src/openrtc/runtime/coroutine_runtime.py:326-352 | Teardown runs all its awaits through faults and is cut off only by a cancellation |
| `SessionProgram.SessionCoroutine.HoldOpen` | src/openrtc/runtime/coroutine_runtime.py:287-296 | A held call waits for the shutdown future unless it is already done, then tears down; cancelled while waiting it settles to FAILED |
| `SessionProgram.SessionCoroutine.RunSessionEnd` | src/openrtc/core/wiring.py:220-232 | The deferred end fires at most once and is a no-op when the end was reported inline |
| `SessionProgram.SessionCoroutine.NotifyEnd` | src/openrtc/observability/base_observer.py:251-266 | The deferred end notifications, with the hook timeout and hooks that raise when called, agree with the machine |
| `SessionProgram.SessionCoroutine.AwaitEndHook` | src/openrtc/observability/base_observer.py:210-230 | One awaited end hook: faults and stray cancellations are isolated, a timeout or a genuine cancellation leaves the loop |
| `SessionProgram.HangingUpIsFair` | src/openrtc/runtime/coroutine_runtime.py:287-296 | The outside worlds these methods quantify over exist: one is where every call comes back and every room is hung up |
| `SessionProgram.MachineKeepsInv` | src/openrtc/runtime/coroutine_runtime.py:226-324 | On any sequence of replies the machine stays within the session invariant |
| `SessionProgram.ProgramEnds` | src/openrtc/core/wiring.py:156-232 | What the program has recorded when its task ends: a routed session one start and one finish, with the observers told, any other nothing, up to the missing end hook; and exactly when its status is SUCCESS |
| `Executor.CoroutineJobExecutor.KillTask` | src/openrtc/runtime/coroutine_runtime.py:193-201 | Kill cancels an unfinished task and settles only a RUNNING status; a finished or absent task is left alone |
| `Executor.CoroutineJobExecutor.AcloseUpToAwait` | src/openrtc/runtime/coroutine_runtime.py:178-184 | The first half of aclose: a cancellation and a wait, or nothing but clearing `started` |
| `Executor.CoroutineJobExecutor.AcloseAfterAwait` | src/openrtc/runtime/coroutine_runtime.py:185-191 | The second half settles a status still RUNNING to FAILED |
| `Executor.CoroutineJobExecutor.LaunchJob` | src/openrtc/runtime/coroutine_runtime.py:203-224 | The four refusals in order, what each leaves behind, and the state of an accepted launch |
| `WorkerTheorems.PoolAccounts` | src/openrtc/runtime/coroutine_runtime.py:717-777 | In every run an executor is tracked exactly while launched and not closed; its events are exactly those of its stage, closed at most once; load is created minus closed; the supervisor called back once per maximal failure run that reached the limit, always with the limit |
| `Pool.ObserveKeepsSupervisorExact` | src/openrtc/runtime/coroutine_runtime.py:725-751 | The counter is the length of the trailing run of non-SUCCESS closures, `fired` means it reached the limit, and the callbacks so far are one per maximal run that did |
| `Pool.CoroutinePool.ObserveExecutorStatus` | src/openrtc/runtime/coroutine_runtime.py:725-751 | The supervisor method computes that step and keeps its exactness |
| `WorkerSupervisor.SupervisorFollowsStatuses` | src/openrtc/runtime/coroutine_runtime.py:717-751 | In every run, over the statuses of the closed executors in the order of their `process_closed` events, one for each: the counter is the number closed since the last SUCCESS, the supervisor has fired exactly while that is at the limit or above, and it was called once per maximal run of other statuses that reached the limit, with the limit |
| `WorkerSupervisor.EveryRunObserves` | src/openrtc/runtime/coroutine_runtime.py:717-730 | In every run the statuses the supervisor has seen are, one for one and in order, those of the closed executors; only a RUNNING one may since have become FAILED, by an aclose that returned late |
| `WorkerSupervisor.CallbackObserves` | src/openrtc/runtime/coroutine_runtime.py:717-730 | The done callback emits one `process_closed` and observes the status its session has at that moment |
| `WorkerSupervisor.TwoFailuresAlarm` | src/openrtc/runtime/coroutine_runtime.py:732-751 | A concrete run: two refused launches under a limit of two make one callback, with two |
| `Pool.CoroutinePool.OnExecutorDone` | src/openrtc/runtime/coroutine_runtime.py:717-723 | Idempotent: an untracked executor changes nothing; a tracked one is removed, closed and observed |
| `Pool.CoroutinePool.LaunchJob` | src/openrtc/runtime/coroutine_runtime.py:636-668 | Refused when not started or draining with nothing changed; otherwise tracked with its four events, or, if the executor refuses, closed again and observed as a failure |
| `Pool.CoroutinePool.BeginDrain` | src/openrtc/runtime/coroutine_runtime.py:564-572 | Sets the flag and touches nothing else |
| `Pool.RemoveFirstExact` | src/openrtc/runtime/coroutine_runtime.py:721 | Removing a tracked executor removes it and no other |
| `WorkerDrain.DrainCancelsNothing` | src/openrtc/runtime/coroutine_runtime.py:564-590 | Whatever happens after a drain begins, every session, gauge, event and supervisor call is what it would have been without the drain, had nothing been launched |
| `WorkerDrain.DrainingExact` | src/openrtc/runtime/coroutine_runtime.py:564-595 | In every run the draining flag is set exactly once a drain has begun, so closing the pool does not set it |
| `WorkerDrain.ClosedIsNotDraining` | src/openrtc/runtime/coroutine_runtime.py:592-605 | A pool started and closed is not draining, and still refuses every launch |
| `WorkerDrain.DrainOnlyShrinks` | src/openrtc/runtime/coroutine_runtime.py:564-590 | Once draining, whatever happens, the flag stays set, no session is added and the tracked set only shrinks |
| `WorkerDrain.DrainTerminates` | src/openrtc/runtime/coroutine_runtime.py:574-590 | A draining worker has a bounded amount of work left: every task step and done callback in any continuation uses some of it up |
| `WorkerDrain.DrainLoopExit` | src/openrtc/runtime/coroutine_runtime.py:584 | The tracked list is empty exactly when no work is left |
| `WorkerDrain.TrackedIsReady` | src/openrtc/runtime/coroutine_runtime.py:287-296 | A tracked session can take a step exactly when it is not a held call that is neither hung up nor about to be delivered a cancellation; hanging up frees such a call |
| `WorkerDrain.WaitingStays` | src/openrtc/runtime/coroutine_runtime.py:287-296 | Such a call stays held and tracked, whatever else happens, until it is hung up or cancelled, so a drain waits for it |
| `WorkerDrain.WaitingIsStuck` | src/openrtc/runtime/coroutine_runtime.py:287-296 | No task step of any kind is possible for it meanwhile |
| `WorkerDrain.SwallowedCancelWaits` | src/openrtc/runtime/coroutine_runtime.py:178-184 | A concrete run: a call cancelled while it connects, where the cancellation is swallowed, is cancelled and held and waiting |
| `WorkerDrain.CancelledIsNotWaiting` | src/openrtc/runtime/coroutine_runtime.py:178-201 | Killing a waiting held call, or closing its executor, ends its wait: its task can step |
| `WorkerDrain.Drain` | src/openrtc/runtime/coroutine_runtime.py:574-590 | The drain loop over gathers of joins makes one round, or none when nothing is tracked, and ends with nothing tracked and every session ever launched closed |
| `WorkerDrain.HangingUpJoins` | src/openrtc/runtime/coroutine_runtime.py:574-590 | Such gathers exist: hanging up on whoever is tracked until nobody is |
| `WorkerDrain.HangUpProgresses` | src/openrtc/runtime/coroutine_runtime.py:287-296 | Hanging up on a tracked session always lets it take a step |
| `WorkerTheorems.GaugesNeverDrift` | src/openrtc/observability/metrics.py:130-180 | In every run each gauge key counts the sessions between start and finish under it, no key is zero, both gauges sum to started minus finished, failures never exceed starts, and a session still to finish has both its keys, so the floor is never reached |
| `WorkerJournal.RowsAreTheEffects` | src/openrtc/observability/metrics.py:119-180 | In every run the rows written to the stream are the effects of the sessions in the order they happened, with agent and tenant of their session and a failure message cut at 500 characters, the first 256 waiting and the others counted; the effects of each session, in order, are its log; last routed agent and last error are those of the newest rows that set them |
| `WorkerGauges.EffectKeepsGauges` | src/openrtc/observability/metrics.py:130-180 | One recorded start, failure or finish keeps the gauges exact, and a finish finds both its keys present |
| `Metrics.DecrementUndoesIncrement` | src/openrtc/observability/metrics.py:130-163 | A finish undoes its start on a gauge, key presence included |
| `Metrics.DecrementGauge` | src/openrtc/observability/metrics.py:157-163 | Above the floor a decrement takes one off one key and one off the sum and leaves no zero |
| `Metrics.IncrementGauge` | src/openrtc/observability/metrics.py:136-139 | An increment adds one to one key and one to the sum |
| `Metrics.RuntimeMetricsStore.DecrementCount` | src/openrtc/observability/metrics.py:157-163 | The static helper computes that decrement, floor included |
| `Metrics.RuntimeMetricsStore.RecordSessionStarted` | src/openrtc/observability/metrics.py:130-143 | Total, last agent, both gauges and one stream row |
| `Metrics.RuntimeMetricsStore.RecordSessionFinished` | src/openrtc/observability/metrics.py:145-154 | Both gauges down and one stream row; totals untouched |
| `Metrics.RuntimeMetricsStore.RecordSessionFailure` | src/openrtc/observability/metrics.py:165-180 | Failure total, last agent and error, one row with the error cut to 500 characters; gauges untouched |
| `Metrics.RuntimeMetricsStore.AppendStreamEvent` | src/openrtc/observability/metrics.py:119-128 | A full buffer counts a drop instead of storing |
| `Metrics.RuntimeMetricsStore.DrainStreamEvents` | src/openrtc/observability/metrics.py:199-214 | Everything pending plus one overflow row if any were dropped; buffer and counter reset |
| `MetricsStream.StreamAccounting` | src/openrtc/observability/metrics.py:119-214 | Over any run of records and exports: recorded = written + pending + reported lost + not yet reported lost; written then pending is an order-preserving subsequence of recorded; the buffer never exceeds its bound |
| `MetricsStream.LosslessIffWithinBound` | src/openrtc/observability/metrics.py:119-128 | Nothing is lost, and file plus buffer equal the recording, if and only if no gap between exports held more rows than the buffer takes |
| `MetricsStream.LostExactlyOverBound` | src/openrtc/observability/metrics.py:119-128 | As many rows are dropped as a gap between exports exceeds 256 by, and none is lost at all if and only if no gap does |
| `MetricsStream.BufferKeepsFirst` | src/openrtc/observability/metrics.py:119-128 | The buffer holds exactly the first 256 rows of the current gap, in order, and counts the others |
| `MetricsStream.LinesGoOn` | src/openrtc/observability/jsonl_sink.py:97-133 | Over any opens, writes and closes of one sink, the line numbers of the file go on without a gap from the lines written before it was last opened |
| `MetricsStream.NumberedFromOneIffFirst` | src/openrtc/observability/jsonl_sink.py:106-123 | So a file is numbered 1, 2, ..., n exactly when it is empty or nothing was written before it was opened |
| `MetricsStream.ReopenedGoesOn` | src/openrtc/observability/jsonl_sink.py:106-123 | A concrete run: a file opened second starts at line 2 |
| `MetricsStream.JsonlMetricsSink.Open` | src/openrtc/observability/jsonl_sink.py:106-113 | Opening truncates the file and keeps the count |
| `MetricsStream.JsonlMetricsSink.Write` | src/openrtc/observability/jsonl_sink.py:115-133 | One more line with the next number; a sink that is not open writes nothing and says so |
| `MetricsStream.EmitJsonl` | src/openrtc/cli/reporter_cli.py:135-141 | One tick writes one snapshot and then every drained row, in order, and empties the buffer; without a sink, or on one that is not open, nothing is drained |
| `MetricsStream.TickShape` | src/openrtc/cli/reporter_cli.py:135-141 | What one tick adds to the file: the snapshot, the pending rows in order, and last, only if rows were dropped, how many |
| `CircuitBreaker.ReplayRefinesSpec` | src/openrtc/core/circuit_breaker.py:53-93 | With a clock that never goes back, deque and deadline after any history equal the recomputation from that whole history: the outcomes since the last opening within the window of the last record, and open exactly as the specification says |
| `CircuitBreaker.OpensExactly` | src/openrtc/core/circuit_breaker.py:53-76 | After any history a closed breaker opens on a record exactly when the outcomes recorded since it last opened, within the window of this record, are at least the minimum and not none, and those that failed are strictly more than the ratio times their number; it then opens for the cooldown with an empty deque |
| `CircuitBreaker.TripsExactly` | src/openrtc/core/circuit_breaker.py:63-64 | The count and the division of the source are that condition on the set of failed positions, multiplied out |
| `CircuitBreaker.AllSuccessesNeverOpen` | src/openrtc/core/circuit_breaker.py:63-64 | Successes alone never open it |
| `CircuitBreaker.AtTheRatioStaysClosed` | src/openrtc/core/circuit_breaker.py:63-64 | A window exactly at the ratio does not open it |
| `CircuitBreaker.RecordRefines` | src/openrtc/core/circuit_breaker.py:53-76 | A record keeps that refinement, and opens exactly when closed, at or above the minimum samples, and strictly over the ratio on the recomputed window |
| `CircuitBreaker.QueryRefines` | src/openrtc/core/circuit_breaker.py:78-88 | A query keeps it, and rejects exactly when the specification is then open |
| `CircuitBreaker.RecordNeverRaises` | src/openrtc/core/circuit_breaker.py:53-69 | With a window that is not negative the newest outcome survives its own pruning, so a record never divides by zero |
| `CircuitBreaker.PruneIsWithin` | src/openrtc/core/circuit_breaker.py:90-93 | On a sorted deque, popping from the left leaves exactly the outcomes within the window |
| `CircuitBreaker.NotesAlternate` | src/openrtc/core/circuit_breaker.py:59-97 | With any clock, state changes alternate open, closed, open, and the breaker is open exactly after an "open" |
| `CircuitBreaker.RejectsThroughCooldown` | src/openrtc/core/circuit_breaker.py:53-88 | Whatever outcomes arrive, an open breaker keeps its deadline and rejects every query before it |
| `CircuitBreaker.FirstLateQueryRecovers` | src/openrtc/core/circuit_breaker.py:78-88 | The first query at or after the deadline is accepted, closes the breaker and says so once |
| `CircuitBreaker.TenantCircuitBreaker.RecordOutcome` | src/openrtc/core/circuit_breaker.py:53-76 | On the shared maps, one tenant slot moves as the single-tenant breaker does and no other slot moves; it divides by zero exactly when closed, emptied by its own pruning, and without a minimum |
| `CircuitBreaker.TenantCircuitBreaker.ShouldReject` | src/openrtc/core/circuit_breaker.py:78-88 | Likewise for a query, with its answer |
| `CircuitBreaker.TenantCircuitBreaker.PruneOutcomes` | src/openrtc/core/circuit_breaker.py:90-93 | The pruning loop |
| `TenantIsolation.OthersAreInvisible` | src/openrtc/core/circuit_breaker.py:49-93 | Over any interleaving, the breaker slot and live count held for a tenant, and every answer its admission queries got, are those of the run with all other tenants removed |
| `TenantIsolation.SlotIsOwnReplay` | src/openrtc/core/circuit_breaker.py:53-88 | What is held for a tenant is the single-tenant breaker on its own ends and queries |
| `WorkerGate.BreakerSeesEachEnd` | src/openrtc/core/wiring.py:121-139 | After any worker run, with queries at any time, what the breaker holds for a tenant is its own replay of a history that records each ended session of that tenant once, as the success or failure it reported |
| `WorkerGate.OneStore` | src/openrtc/core/wiring.py:121-139 | The metrics the tenant caps read are those the sessions of the run have recorded |
| `TenantIsolation.StackAnswers` | src/openrtc/routing/request_filter.py:171-233 | The answers spoken of are those of the composed circuit and tenant-cap filters |
| `RequestFilter.RoutingAgreesWithCharging` | src/openrtc/routing/request_filter.py:84-110 | Without a custom router, routing picks the agent the job was charged to or raises, and raises exactly when there are no agents or the first metadata naming an agent names an unregistered one |
| `RequestFilter.AppendingAnAgent` | src/openrtc/routing/room_prefix_routing.py:14-27 | Registering one more agent changes a successful resolution only for a fallback room with the new prefix, which goes to the new agent |
| `RequestFilter.OwnsRoom` | src/openrtc/routing/request_filter.py:30-53 | True exactly when attribution did not need the fallback, and then attribution is that claim |
| `RequestFilter.ResolveRequestAgentName` | src/openrtc/routing/request_filter.py:84-110 | The early-return loops compute the claim, or else the first registered agent |
| `RequestFilter.OwnedYetRefused` | src/openrtc/routing/request_filter.py:30-53 | A room is owned although routing raises exactly when the first metadata to name an agent names a stranger, while room metadata names one of ours or the room name has a prefix of ours |
| `RequestFilter.OwnedByPrefixYetRefused` | src/openrtc/routing/request_filter.py:30-53 | A concrete request: the job names a stranger and the room name has our prefix |
| `RequestFilter.JobTenantWins` | src/openrtc/observability/base_observer.py:119-141 | Job metadata decides the tenant over room metadata, even with an empty value, which then means the default tenant |
| `RequestFilter.FilterAndSessionTenant` | src/openrtc/routing/request_filter.py:158-168 | For a session that starts, filter and session use the same tenant if and only if the raw value has no outer whitespace |
| `RequestFilter.PaddedTenant` | src/openrtc/routing/request_filter.py:158-168 | A concrete request: a tenant with a leading blank is counted under it by the filters and without it by the session |
| `RequestFilter.RunFilter` | src/openrtc/routing/request_filter.py:56-233 | The nested filter closures make exactly the calls the composition prescribes, and ask the breaker, recovering its tenant where due, exactly when the request gets as far |
| `RequestFilter.StackDecides` | src/openrtc/core/pool.py:293-344 | The filter a pool builds makes one reject if a configured layer blocks and otherwise exactly the base decision; it accepts exactly when breaker, tenant and agent caps and base all allow |
| `RequestFilter.RegisteredRoomsDecide` | src/openrtc/routing/request_filter.py:30-81 | A pool that accepts registered rooms only answers once, and accepts exactly when no layer turns the request away and job metadata or room metadata names one of its agents or the room name starts with the name of one and a dash |
| `RequestFilter.NoBaseDecides` | src/openrtc/core/pool.py:293-344 | Without a base filter it accepts exactly when no layer turns the request away |
| `RequestFilter.UserDecides` | src/openrtc/core/pool.py:293-344 | With the filter of a user it makes exactly the calls of that filter, unless a layer turns the request away |
| `RequestFilter.BlockedExactly` | src/openrtc/routing/request_filter.py:113-233 | A layer turns a request away exactly when the breaker of its tenant is open now, or the live count of its tenant, or of the agent it is charged to, is at the cap configured for that key |
| `RequestFilter.BreakerIsOutermost` | src/openrtc/core/pool.py:293-344 | Where it is configured the breaker is asked on every request, whatever the caps say, and nowhere else |
| `RequestFilter.CoerceExactly` | src/openrtc/observability/base_observer.py:103-116 | Where the tenant is read: the decoded fields key by key, strings as they are and other values as rendered, nothing where there is no mapping |
| `RequestFilter.TenantIdExactly` | src/openrtc/utils/validation.py:84-100 | A tenant id is accepted exactly when what is between the outer whitespace is 1 to 128 ASCII letters, digits, dashes and underscores |
| `RequestFilter.LayersOnlyRestrict` | src/openrtc/core/pool.py:300-344 | Adding layers never turns a reject into an accept |
| `Routing.RouteCases` | src/openrtc/routing/resolver.py:78-98 | The strategy chain is router, job metadata, room metadata, prefix, first registered, each deferring or deciding or raising |
| `Routing.RoutedIsRegistered` | src/openrtc/routing/resolver.py:101-117 | Whatever router and metadata say, a routed name is registered |
| `Routing.FirstPrefixExact` | src/openrtc/routing/room_prefix_routing.py:14-27 | The prefix match is the first registered agent whose prefix fits, and none exactly when none fits |
| `Routing.RouterDecides` | src/openrtc/routing/resolver.py:48-98 | A custom router wins with a registered name, ends the call with any other or by raising, and by deferring leaves the call to the chain as if there were none |
| `Routing.StrangersRaise` | src/openrtc/routing/resolver.py:78-98 | Without one, a stranger in job metadata, or in room metadata when the job names nobody, ends the call with its name and place; a call nobody names an agent for is always routed |
| `Routing.TextReadsAsMapping` | src/openrtc/routing/base_routing.py:30-56 | JSON text names the agent that the mapping it decodes to names; blank text, junk and absence name none |
| `Routing.NameExactly` | src/openrtc/routing/base_routing.py:30-56 | Metadata names the stripped text under `agent` if that is a string with a character that is not whitespace, or else the one under `demo` |
| `Routing.NamesAreTrimmed` | src/openrtc/routing/base_routing.py:30-56 | A name read from metadata is never empty and has no outer whitespace |
| `Routing.StripExact` | src/openrtc/utils/validation.py:84-100 | Stripping leaves no outer whitespace and changes a string exactly when it had some |
| `Routing.StripIsMiddle` | src/openrtc/utils/validation.py:84-100 | What stripping takes away, on both ends, is whitespace; the middle stays |
| `FileWatcher.DeliveredInSegments` | src/openrtc/runtime/file_watcher.py:262-292 | Until stop returns, arrived changes split into consecutive nonempty segments, each delivered once, in order, as its collapse, then the pending tail |
| `FileWatcher.FlushScheduled` | src/openrtc/runtime/file_watcher.py:262-292 | Until stop is called, a flush is scheduled while anything is pending |
| `FileWatcher.StopIsFinal` | src/openrtc/runtime/file_watcher.py:157-180 | Once the first call of stop has returned nothing more is delivered or kept, whatever events follow |
| `FileWatcher.DeliveredDuringStop` | src/openrtc/runtime/file_watcher.py:157-180 | Between the call of stop and its return something is delivered exactly when a flush was scheduled at the call, one more batch came while that flush was awaited, and the timer of that batch fired |
| `FileWatcher.DeliveredDuringStopExample` | src/openrtc/runtime/file_watcher.py:169-180 | A concrete run in which that happens |
| `FileWatcher.CollapseOfCollapse` | src/openrtc/runtime/file_watcher.py:295-310 | Collapsing a prefix first changes nothing: collapse(collapse(a) + b) = collapse(a + b) |
| `FileWatcher.CollapseMembers` | src/openrtc/runtime/file_watcher.py:295-310 | A collapse has exactly one type per path: deleted over created over modified |
| `FileWatcher.CollapseExactly` | src/openrtc/runtime/file_watcher.py:295-310 | Of the delivered list: a path is deleted in it exactly when it was ever deleted, created when ever created and never deleted, modified when only modified |
| `FileWatcher.FirstSeenOrder` | src/openrtc/runtime/file_watcher.py:295-310 | Paths are delivered in the order of their first change |
| `FileWatcher.PathsOfEntries` | src/openrtc/runtime/file_watcher.py:295-310 | A collapse keeps every path once, in first-seen order |
| `FileWatcher.CollapseChanges` | src/openrtc/runtime/file_watcher.py:295-310 | The two loops over a dict of lists compute the collapse |
| `FileWatcher.DebouncedWatcher.HandleChangeBatch` | src/openrtc/runtime/file_watcher.py:262-270 | A batch joins the buffer and leaves exactly one flush scheduled |
| `FileWatcher.DebouncedWatcher.FlushAfterDelay` | src/openrtc/runtime/file_watcher.py:272-292 | A flush delivers the collapse of the buffer, unless empty, and clears it |
| `FileWatcher.DebouncedWatcher.StopUpToAwait` | src/openrtc/runtime/file_watcher.py:157-171 | Up to its first await stop cancels the flush and keeps the buffer; without a watch loop, or called again, it returns at once |
| `FileWatcher.DebouncedWatcher.StopAfterLoop` | src/openrtc/runtime/file_watcher.py:173-180 | After the awaits stop drops the buffer |
| `Reload.SwapExact` | src/openrtc/reload/rebind.py:56-82 | A class-changing swap leaves every registered unpinned session of the agent whose swap did not raise on the new class, everyone else untouched, and returns the number of sessions that changed class |
| `Reload.AllCurrentIffNewOrNoneLagged` | src/openrtc/reload/rebind.py:56-59 | A reload to the class already registered changes nothing, so all eligible sessions end current if and only if the class was new or none lagged behind |
| `Reload.LaggardStaysBehind` | src/openrtc/reload/rebind.py:56-59 | A concrete input: a session left on an old class does not catch up when the registered class is reloaded |
| `Reload.RollbackExact` | src/openrtc/reload/module_reloader.py:67-84 | When a re-import that does not swap leaves the own entry as it was: exactly when the code was not run, or raised an `Exception` with the name not blocked by a `None` entry, or exited after putting the entry back itself; any other entry exactly unless that code put something else there |
| `Reload.ExitKeepsHalfRun` | src/openrtc/reload/module_reloader.py:67-77 | A concrete input: code that exits leaves its half-run module entered |
| `Reload.BlockedIsPopped` | src/openrtc/reload/module_reloader.py:66-77 | A concrete input: a `None` entry is popped rather than restored |
| `Reload.LoadedIsEntered` | src/openrtc/reload/module_reloader.py:67-84 | After a re-import that swaps the new module is entered, unless its own code entered something else under the name; what it imported stays and nothing else moves |
| `Reload.OwnEntryRolledBack` | src/openrtc/reload/module_reloader.py:70-84 | Even code that replaces its own entry is rolled back when it raises an `Exception`, exactly unless the name was blocked |
| `Reload.ReloadAgentModule` | src/openrtc/reload/module_reloader.py:30-84 | The module entry after each way a re-import can go, popped rather than restored when there was none |
| `Reload.FailedReloadChangesNothing` | src/openrtc/reload/coordinator.py:90-103 | A failed reload changes no class, session or module entry, and is reported |
| `Reload.SwapIsReported` | src/openrtc/reload/coordinator.py:90-116 | A successful reload registers the class and reports the number of sessions that changed class |
| `Reload.EscapeIsUnreported` | src/openrtc/reload/coordinator.py:90-93 | One whose exception escapes reports nothing and swaps nothing |
| `Reload.ReloadCoordinator.RebindAgent` | src/openrtc/reload/rebind.py:38-82 | The re-bind method computes that swap and its count on the sessions registered now |
| `Reload.ReloadCoordinator.SwapSessions` | src/openrtc/reload/rebind.py:62-81 | The fan-out loop, counting each changed session once |
| `Reload.ReloadCoordinator.ReloadOne` | src/openrtc/reload/coordinator.py:90-116 | One re-import, re-bind and report; an escaping exception leaves no report |
| `Reload.ReloadCoordinator.ConfigsBySourcePath` | src/openrtc/reload/coordinator.py:82-88 | Every path maps to the agents loaded from it, in registration order |
| `Reload.AgentsAtOneMore` | src/openrtc/reload/coordinator.py:82-88 | The agents of a path are those loaded from it and no other: one registered later comes last |
| `Reload.WorkOfBatch` | src/openrtc/reload/coordinator.py:68-80 | The reloads a batch asks for are those of its changes one after another |
| `Reload.WorkOfOne` | src/openrtc/reload/coordinator.py:68-80 | One change asks for one reload of each agent loaded from its path, in order, and for none if the file was deleted |
| `Reload.BatchSplits` | src/openrtc/reload/coordinator.py:68-80 | A batch in two parts: the second goes on where the first ended, unless an exception escaped from the first, which then ends the batch |
| `Reload.ReloadCoordinator.OnChange` | src/openrtc/reload/coordinator.py:68-80 | A batch reloads, in order, every agent of every changed path that was not deleted, up to an escaping exception |
| `Reload.PutEntryExact` | src/openrtc/reload/session_registry.py:36-40 | A start replaces its job entry and no other; jobs stay unique |
| `Reload.PutKeepsPlace` | src/openrtc/reload/session_registry.py:36-40 | A job already listed keeps its place, a new one goes last |
| `Reload.DropEntryExact` | src/openrtc/reload/session_registry.py:42-44 | An end removes its job entry and no other, and tolerates an absent one |
| `Reload.LiveSessionRegistry.SessionsFor` | src/openrtc/reload/session_registry.py:46-52 | The sessions of one agent in registration order |
| `ReloadRuns.SessionsRunLoadedClasses` | src/openrtc/reload/rebind.py:56-82 | Over any run of builds, registrations, hand-offs, ends, pins and reloads, a session was last bound to a class its own agent was registered with or reloaded to, and runs it unless it handed itself off since; it runs the current class if and only if the last class change reached it or left it out on what is the current class again |
| `ReloadRuns.ReloadDuringStartIsMissed` | src/openrtc/core/wiring.py:181-184 | A concrete run: a reload between the building of an agent and its registration leaves a never pinned session on the old class |
| `Argv.StripIsKept` | src/openrtc/cli/livekit_cli.py:40-81 | The stripped line is the tokens that are neither an OpenRTC option nor the value of one, and everything from the first `--` that is not itself a value, read off the positions |
| `Argv.StripOpenrtcOnlyFlags` | src/openrtc/cli/livekit_cli.py:59-81 | The loop computes that line |
| `Argv.OursExactly` | src/openrtc/cli/livekit_cli.py:20-81 | A token is ours exactly when it is one of the flag names, alone or with an attached value, and takes the next token exactly when it is one of those that need a value, alone |
| `Argv.BeforeEqOfPair` | src/openrtc/cli/livekit_cli.py:66-70 | A name with its value attached is recognised by that name, whatever the value holds |
| `Argv.StripFixpoints` | src/openrtc/cli/livekit_cli.py:40-81 | Stripping leaves a line alone exactly when no OpenRTC option precedes its first `--` |
| `Argv.StripIsClean` | src/openrtc/cli/livekit_cli.py:40-81 | No OpenRTC option is left before the first `--` |
| `Argv.StripIdempotent` | src/openrtc/cli/livekit_cli.py:40-81 | Stripping twice is stripping once |
| `Argv.StripIsSubsequence` | src/openrtc/cli/livekit_cli.py:40-81 | Nothing is added or reordered |
| `Argv.StripUndoesInject` | src/openrtc/cli/livekit_cli.py:84-127 | Stripping an injected line gives what stripping the line without the rewritten positionals gives; the subcommand stays |
| `Argv.InjectShape` | src/openrtc/cli/livekit_cli.py:84-127 | The first positional of a known command becomes the value of `--agents-dir`, and of a worker command the second that of `--metrics-jsonl`, unless the flag is given or a dash token is in its place; every other token stays where it stood |
| `Argv.InjectOnlyAdds` | src/openrtc/cli/livekit_cli.py:84-127 | Injection keeps every token in order and adds one flag per rewritten positional |
| `Argv.InjectIdempotent` | src/openrtc/cli/livekit_cli.py:114-127 | Injecting twice is injecting once |
| `Membership.CanonicalRoundTrip` | src/openrtc/core/membership.py:35-43 | A decoder gives version, worker id and timestamp back if and only if none of them spells out a surrogate pair |
| `Membership.CanonicalInjective` | src/openrtc/core/membership.py:35-43 | On such strings, which include all strings of Unicode scalar values, two tuples share a message only if equal |
| `Membership.SameMessage` | src/openrtc/core/membership.py:35-43 | In general two tuples share a message exactly when they are the same UTF-16 text |
| `Membership.SpelledOutPairCollides` | src/openrtc/core/membership.py:35-43 | Every tuple that does spell one out shares its message with a different tuple |
| `Membership.CollisionExample` | src/openrtc/core/membership.py:35-43 | Concretely: D83D DE00 and 1F600 as worker ids |
| `Membership.DecodeCanonical` | src/openrtc/core/membership.py:35-43 | What decoding a message gives: each string with its surrogate pairs joined |
| `Membership.CanonicalPrintable` | src/openrtc/core/membership.py:35-43 | The message is printable ASCII, so no field adds a raw newline, and the bytes are those characters |
| `Membership.SignedText` | src/openrtc/core/membership.py:35-72 | What a signature covers: version, worker id and decimal timestamp in this order, as a compact list of quoted strings |
| `Membership.EscapedConcat` | src/openrtc/core/membership.py:35-43 | Text is escaped character by character |
| `Membership.EscapedPlain` | src/openrtc/core/membership.py:35-43 | Printable text without quotes and backslashes is written as it is |
| `Membership.ShortEscapesExample` | src/openrtc/core/membership.py:35-43 | Concretely: a quote, a backslash and a newline |
| `Membership.UnitsExample` | src/openrtc/core/membership.py:35-43 | Concretely: beyond ASCII, UTF-16 units in lower-case hexadecimal |
| `Membership.SignedIsAccepted` | src/openrtc/core/membership.py:75-101 | A claim signed under any secret of the rotation is accepted exactly while its version is expected and its age is within the window, both ends included |
| `Membership.RefusedFor` | src/openrtc/core/membership.py:75-101 | What a claim is refused for: first its version, then its age past the bound either way, and only then its token |
| `Membership.TokenBindsText` | src/openrtc/core/membership.py:75-101 | Under a collision-free keyed hash a token signed for one claim is accepted for another exactly when both are the same UTF-16 text and the other is of the expected version and in the window |
| `Membership.TokenBindsClaim` | src/openrtc/core/membership.py:75-101 | So where no surrogate pair is spelled out and both timestamps are floats that their decimal forms tell apart, it is accepted for no other claim |

## Left out

- WorkerDrain.Drain: a drain whose own caller is cancelled, which cancels the joined tasks, is a run of cancellations and not of this loop.
- SessionProgram.SessionCoroutine.RunEntrypoint: outside calls act on a session only while it is suspended, as under asyncio; log lines and context variable tokens are not modelled.
- RequestFilter.RunFilter: a user's own filter is known by the accept and reject calls it makes.
- Routing.RouteCases: JSON decoding is a parameter, any function from text to an optional object; the same inputs are given to the filters and to routing, so `session_view.py` is not part of this model beyond them.
- Reload.ReloadCoordinator.OnChange: runs without suspension, so sessions, registry and pins do not move within a batch; the choice of the class in a module is part of how the import goes.
- FileWatcher.DebouncedWatcher.StopUpToAwait: the restart of the watch loop on new paths is not modelled.
- MetricsStream.EmitJsonl: one tick is atomic; a second thread ticking after a join that timed out, and file errors of opening or writing, are not modelled.
- FileWatcher.DebouncedWatcher.FlushAfterDelay: the change callback is one atomic call, so a batch cannot cancel a flush inside it.
- Membership.TokenBindsClaim: HMAC-SHA256 is any function without collisions, and the timestamp is known by its decimal form; NaN and infinite timestamps, and secrets that cannot be encoded, are left out.
- CircuitBreaker.ReplayRefinesSpec: floating-point rounding of times and ratios is not modelled.
- Pool start, prewarm, memory watermark, close timeout and its escalation to kill: the worker model lets closes and kills come at any time instead.
- `CoroutinePool.get_by_job_id`, load rounding, snapshots, pickling of the metrics store: they would only add easy members.
- Error texts of recorded failures are parameters of the steps that record them.
- Observer payloads (times, durations, deployment version) and the observers themselves.
- LiveKit, pipecat, watchfiles, aiohttp and psutil internals, which appear only as awaits that come back in any way.
- Dashboard, `openrtc top`, Unix-socket server, frontend, samplers, agent discovery, provider serialization, tenant configuration cache, audit trail and pagination.
