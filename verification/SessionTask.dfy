/**
 One session's task, from its first step to its done callback, as a machine whose states are
 the places where the coroutine is suspended. A step runs from one suspension to the next.
 */
module SessionTask {
  import opened Basics
  import opened Executor

  /** The exception in flight, as `sys.exc_info()` would show it. */
  datatype Error = NoError | Raised | Cancelled

  /** What a session writes to the shared metrics, in order. */
  datatype Effect = StartRecorded | FailureRecorded | FinishRecorded(error: Error)

  /** How an awaited call comes back. `Timeout` is the end hook's own `wait_for` expiring. */
  datatype Wake = Ok | Raise | Cancel | Timeout

  /** The outcomes of the first step: up to the `connect()` await, or out before any record. */
  datatype First = NeverRuns | SetupRaises | BuildRaises | Routed

  /**
   Which observer's hook, if any, raises when it is called, before there is anything to await.
   The call is an argument of the isolating function, so the exception leaves the notify loop.
   */
  datatype Fault = NoFault | FaultAt(k: nat, cancels: bool)

  function ErrorOf(fault: Fault): Error {
    if fault.NoFault? then NoError else if fault.cancels then Cancelled else Raised
  }

  /**
   What is fixed for a session: its gauge keys; whether its job is fake; whether the executor
   could set the defer flag on the context; whether the agent greets; how many observers are
   registered, and the first whose start hook, or end hook, raises when called; how many awaits
   its teardown makes; and whether the pool has an end hook, with or without a timeout.
   */
  datatype Job = Job(
    agent: string, tenant: string, fake: bool, defers: bool, greets: bool,
    observers: nat, startFault: Fault, endFault: Fault,
    teardownAwaits: nat, endHook: bool, endTimeout: bool)

  predicate Faults(fault: Fault, k: nat) {
    fault.FaultAt? && fault.k == k
  }

  /** How many of `n` observers a loop gets to when nothing but the fault stops it. */
  function Reach(fault: Fault, n: nat): nat {
    if fault.FaultAt? && fault.k < n then fault.k else n
  }

  function StartReach(job: Job): nat {
    Reach(job.startFault, job.observers)
  }

  function EndReach(job: Job): nat {
    Reach(job.endFault, job.observers)
  }

  datatype Phase =
    | Scheduled                         // task created, no step run
    | Connecting | Starting             // in connect(), in AgentSession.start()
    | StartNotify(k: nat)               // in observer k's on_session_start
    | Greeting
    | InlineEnd(k: nat, error: Error)   // in observer k's on_session_end, inside run_session
    | HeldOpen                          // awaiting the shutdown future
    | Teardown(k: nat)                  // in teardown await k
    | EndNotify(k: nat)                 // in observer k's on_session_end, inside the end hook
    | Done                              // task done, done callback pending
    | Closed                            // done callback has run, or the launch was refused

  /**
   `primary` and `finish` are context attributes, `shutdown` says the shutdown future is done.
   The rest is history: `log` the recorded effects, `startTold`/`endTold` how many observers
   had their hook running, `cutShort` whether the end hook timed out, `returned` whether the
   entrypoint returned normally, `tornDown` whether teardown ran to its end, `killed` whether
   the status was settled FAILED from outside while the task was in flight.
   */
  datatype Session = Session(
    job: Job, phase: Phase, exec: Exec,
    primary: bool, finish: Option<Error>, shutdown: bool,
    log: seq<Effect>, startTold: nat, endTold: nat, cutShort: bool, returned: bool, tornDown: bool,
    killed: bool)

  function Launched(job: Job): Session {
    Session(job, Scheduled, FRESH.(task := InFlight), false, None, false, [], 0, 0, false, false, false, false)
  }

  function RefusedLaunch(job: Job): Session {
    Launched(job).(phase := Closed, exec := FRESH)
  }

  /** `_is_held_open_session`, and the executor's own test for holding the job open. */
  predicate Held(s: Session) {
    s.primary && !s.job.fake
  }

  /** The executor as callers leave it, at any moment. */
  function WithExec(s: Session, e: Exec): Session {
    s.(exec := e, killed := s.killed || (s.exec.status.Running? && e.status.Failed? && s.exec.task.InFlight?))
  }

  function Finish(s: Session): Session {
    s.(phase := Done, exec := s.exec.(task := Finished))
  }

  function Note(s: Session, effect: Effect): Session {
    s.(log := s.log + [effect])
  }

  function NextEndObserver(s: Session, k: nat): Session {
    if k < s.job.observers && !Faults(s.job.endFault, k) then s.(phase := EndNotify(k), endTold := k + 1)
    else Finish(s)
  }

  /** The executor's `finally`: `run_session_end` fires a deferred end once, or does nothing. */
  function EnterEndHook(s: Session): Session {
    if s.job.endHook && s.finish.Some? then
      NextEndObserver(Note(s.(finish := None), FinishRecorded(s.finish.value)), 0)
    else Finish(s)
  }

  function NextTeardown(s: Session, k: nat): Session {
    if k < s.job.teardownAwaits then s.(phase := Teardown(k))
    else EnterEndHook(s.(tornDown := true, exec := Settle(s.exec, Success)))
  }

  /** The executor after its `await entrypoint`, which ended with `error`. */
  function AfterEntrypoint(s: Session, error: Error): Session {
    if error != NoError then EnterEndHook(s.(exec := Settle(s.exec, Failed)))
    else
      var r := s.(returned := true);
      if !Held(r) then EnterEndHook(r.(exec := Settle(r.exec, Success)))
      else if r.shutdown then NextTeardown(r, 0)
      else r.(phase := HeldOpen)
  }

  function NextInlineObserver(s: Session, k: nat, error: Error): Session {
    if k < s.job.observers && Faults(s.job.endFault, k) then AfterEntrypoint(s, ErrorOf(s.job.endFault))
    else if k < s.job.observers then s.(phase := InlineEnd(k, error), endTold := k + 1)
    else AfterEntrypoint(s, error)
  }

  /** `run_session`'s except and finally clauses: count a failure, then defer the end or report it. */
  function ExitRun(s: Session, error: Error): Session {
    var f := if error.Raised? then Note(s, FailureRecorded) else s;
    if f.job.defers && Held(f) then AfterEntrypoint(f.(finish := Some(error)), error)
    else NextInlineObserver(Note(f, FinishRecorded(error)), 0, error)
  }

  function NextStartObserver(s: Session, k: nat): Session {
    if k < s.job.observers && Faults(s.job.startFault, k) then ExitRun(s, ErrorOf(s.job.startFault))
    else if k < s.job.observers then s.(phase := StartNotify(k), startTold := k + 1)
    else if s.job.greets then s.(phase := Greeting)
    else ExitRun(s, NoError)
  }

  function AsError(wake: Wake): Error {
    match wake
    case Raise => Raised
    case Cancel => Cancelled
    case _ => NoError
  }

  /** An observer's cancellation leaves the notify loop only when the task itself is being cancelled. */
  predicate Propagates(s: Session, wake: Wake) {
    wake.Cancel? && s.exec.cancels > 0
  }

  predicate CanBegin(s: Session, first: First) {
    s.phase.Scheduled? && (first.NeverRuns? <==> s.exec.cancels > 0)
  }

  function Begin(s: Session, first: First): Session
    requires CanBegin(s, first)
  {
    match first
    case NeverRuns => Finish(s)
    case SetupRaises => Finish(s)
    case BuildRaises => AfterEntrypoint(s, Raised)
    case Routed => Note(s, StartRecorded).(phase := Connecting)
  }

  /** The ways the awaited call can come back, wherever the cancellations come from. */
  predicate CanWake(s: Session, wake: Wake) {
    match s.phase
    case Connecting => !wake.Timeout?
    case Starting => !wake.Timeout?
    case Greeting => !wake.Timeout?
    case StartNotify(_) => !wake.Timeout?
    case InlineEnd(_, _) => !wake.Timeout?
    case Teardown(_) => !wake.Timeout?
    case HeldOpen => (wake.Ok? && s.shutdown) || wake.Cancel?
    case EndNotify(_) => !wake.Timeout? || s.job.endTimeout
    case _ => false
  }

  /**
   The shutdown future of a held call is awaited directly, with nothing between that could raise
   or swallow a cancellation: it comes back cancelled exactly when one is pending.
   */
  predicate CanResume(s: Session, wake: Wake) {
    CanWake(s, wake) && (s.phase.HeldOpen? ==> (wake.Cancel? <==> s.exec.pending))
  }

  /** A task's step delivers the pending cancellation, whatever the awaited call then makes of it. */
  function Delivered(s: Session): Session {
    s.(exec := s.exec.(pending := false))
  }

  /** One step of a suspended task; `primary` says whether `start()` has set the primary session. */
  function Resume(s: Session, wake: Wake, primary: bool): Session
    requires CanResume(s, wake)
  {
    Continue(Delivered(s), wake, primary)
  }

  function Continue(s: Session, wake: Wake, primary: bool): Session
    requires CanWake(s, wake)
  {
    match s.phase
    case Connecting =>
      if wake.Ok? then s.(phase := Starting) else ExitRun(s, AsError(wake))
    case Starting =>
      var t := s.(primary := primary);
      if wake.Ok? then NextStartObserver(t, 0) else ExitRun(t, AsError(wake))
    case StartNotify(k) =>
      if Propagates(s, wake) then ExitRun(s, Cancelled) else NextStartObserver(s, k + 1)
    case Greeting => ExitRun(s, AsError(wake))
    case InlineEnd(k, error) =>
      if Propagates(s, wake) then AfterEntrypoint(s, Cancelled) else NextInlineObserver(s, k + 1, error)
    case HeldOpen =>
      if wake.Ok? then NextTeardown(s, 0) else EnterEndHook(s.(exec := Settle(s.exec, Failed)))
    case Teardown(k) =>
      if wake.Cancel? then EnterEndHook(s) else NextTeardown(s, k + 1)
    case EndNotify(k) =>
      if wake.Timeout? then Finish(s.(cutShort := true))
      else if Propagates(s, wake) then Finish(s)
      else NextEndObserver(s, k + 1)
    case _ => s
  }

  /** The log of a session whose `run_session` exited with `error`, before its end is recorded. */
  function Open(error: Error): seq<Effect> {
    [StartRecorded] + if error.Raised? then [FailureRecorded] else []
  }

  function Complete(error: Error): seq<Effect> {
    Open(error) + [FinishRecorded(error)]
  }

  /** Started and not yet finished: the sessions a gauge counts. */
  predicate Live(s: Session) {
    s.log != [] && !s.log[|s.log| - 1].FinishRecorded?
  }

  /** A session that went well told every observer of its start first. */
  predicate StartTold(s: Session, error: Error) {
    error.NoError? ==> s.startTold == s.job.observers
  }

  /** What the log can be while the end is still to be recorded by the end hook. */
  ghost predicate Deferred(s: Session, error: Error) {
    s.job.defers && Held(s) && s.finish == Some(error) && s.log == Open(error) && s.endTold == 0 && StartTold(s, error)
  }

  ghost predicate Reported(s: Session) {
    s.finish.None? && s.log != [] && s.log[|s.log| - 1].FinishRecorded?
    && s.log == Complete(s.log[|s.log| - 1].error) && StartTold(s, s.log[|s.log| - 1].error)
  }

  ghost predicate ToldAll(s: Session) {
    s.exec.cancels == 0 && !s.cutShort ==> s.endTold == EndReach(s.job)
  }

  /** After `run_session`: either deferred, or recorded inline with the observers already told. */
  ghost predicate PastRun(s: Session) {
    Deferred(s, NoError) || (!s.job.defers && RecordedInline(s))
  }

  ghost predicate RecordedInline(s: Session) {
    s.log == Complete(NoError) && s.finish.None? && ToldAll(s) && StartTold(s, NoError) && s.endTold == s.job.observers
  }

  /**
   What a SUCCESS rests on: a clean `run_session`, and for a held session a requested shutdown
   and a full teardown.
   */
  ghost predicate SuccessEarned(s: Session) {
    s.exec.status.Success? ==> s.returned && (Held(s) ==> s.shutdown && s.tornDown) && WentWell(s)
  }

  /** Its end is, or is to be, reported as a success. */
  ghost predicate WentWell(s: Session) {
    s.log == Complete(NoError) || (s.finish == Some(NoError) && s.log == Open(NoError))
  }

  /** Where the executor has not yet come to settle its status: only a caller can have. */
  ghost predicate Unsettled(s: Session) {
    !s.exec.status.Success? && (s.exec.status.Failed? <==> s.killed) && !s.tornDown
  }

  /** The entrypoint returned, a held session was torn down whole, and no caller settled the status first. */
  predicate Earned(s: Session) {
    s.returned && (Held(s) ==> s.tornDown) && !s.killed
  }

  /**
   Nothing inside `run_session` can stop a session that went well from returning: its end is
   deferred, or no end hook raises.
   */
  predicate Returns(s: Session) {
    (s.job.defers && Held(s)) || EndReach(s.job) == s.job.observers
  }

  /** Once past the executor's own settlement. */
  ghost predicate Settled(s: Session) {
    && (s.exec.status.Success? <==> Earned(s))
    && (s.exec.cancels == 0 && WentWell(s) ==> (s.returned <==> Returns(s)))
    && (s.exec.status.Running? ==> s.log == [] || (s.returned && Held(s) && s.shutdown && !s.tornDown))
  }

  /** The inductive invariant of one session. */
  ghost predicate Inv(s: Session) {
    && (s.exec.task.InFlight? <==> !s.phase.Done? && !s.phase.Closed?)
    && s.startTold <= StartReach(s.job) && s.endTold <= EndReach(s.job)
    && SuccessEarned(s)
    && (s.killed ==> s.exec.cancels > 0)
    && (s.cutShort ==> s.phase.Done? || s.phase.Closed?)
    && match s.phase
       case Scheduled =>
         s.log == [] && s.startTold == 0 && s.finish.None? && Unsettled(s) && s.endTold == 0 && !s.returned
       case Connecting => InRun(s) && s.startTold == 0
       case Starting => InRun(s) && s.startTold == 0
       case Greeting => InRun(s) && s.startTold == s.job.observers
       case StartNotify(k) => InRun(s) && s.startTold == k + 1
       case InlineEnd(k, error) =>
         s.log == Complete(error) && s.finish.None? && s.endTold == k + 1 && StartTold(s, error)
         && !(s.job.defers && Held(s)) && Unsettled(s) && !s.returned
       case HeldOpen => PastRun(s) && Held(s) && s.returned && Unsettled(s)
       case Teardown(k) => PastRun(s) && Held(s) && s.returned && s.shutdown && k < s.job.teardownAwaits && Unsettled(s)
       case EndNotify(k) => Reported(s) && s.endTold == k + 1 && s.job.endHook && Settled(s)
       case _ =>
         && Settled(s)
         && (|| (s.log == [] && s.finish.None? && s.endTold == 0 && !s.exec.status.Success?)
             || (Reported(s) && ToldAll(s) && (s.job.endHook || !(s.job.defers && Held(s))))
             || (!s.job.endHook && s.finish.Some? && Deferred(s, s.finish.value)))
  }

  ghost predicate InRun(s: Session) {
    s.log == Open(NoError) && s.finish.None? && s.endTold == 0 && Unsettled(s) && !s.returned
  }

  /** What any step keeps or only moves one way. */
  ghost predicate Later(s: Session, t: Session) {
    && t.job == s.job && s.log <= t.log
    && (!s.exec.status.Running? ==> t.exec.status == s.exec.status)
    && s.exec.cancels <= t.exec.cancels
    && (s.shutdown ==> t.shutdown)
    && (t.exec.task.NoTask? ==> s.exec.task.NoTask?)
  }

  /** A step of the task itself; only the done callback closes a session. */
  ghost predicate TaskLater(s: Session, t: Session) {
    Later(s, t) && (t.phase.Closed? ==> s.phase.Closed?)
  }

  /** How many task steps a session can still make, at most. */
  function Rank(s: Session): nat {
    RankAt(s.phase, s.job.observers, s.job.teardownAwaits)
  }

  function RankAt(phase: Phase, n: nat, t: nat): nat {
    match phase
    case Closed => 0
    case Done => 1
    case EndNotify(k) => 1 + Left(n, k)
    case Teardown(k) => n + 2 + Left(t, k)
    case HeldOpen => n + t + 3
    case InlineEnd(k, _) => n + t + 3 + Left(n, k)
    case Greeting => 2 * n + t + 4
    case StartNotify(k) => 2 * n + t + 4 + Left(n, k)
    case Starting => 3 * n + t + 5
    case Connecting => 3 * n + t + 6
    case Scheduled => 3 * n + t + 7
  }

  function Left(n: nat, k: nat): nat {
    if k < n then n - k else 0
  }
}
