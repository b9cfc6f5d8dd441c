/** What holds of the worker in every run: safety of sessions, gauges, pool accounting, drain, supervisor. */
module WorkerRuns {
  import opened Executor
  import opened Pool
  import opened SessionFacts
  import opened SessionTask
  import opened Worker
  import opened WorkerGauges

  /** The events of an executor at each stage of its life. */
  function EventsAt(s: Session): seq<PoolEvent> {
    [Created, ProcessStarted, Ready]
    + (if s.exec.task.NoTask? then [] else [JobLaunched])
    + (if s.phase.Closed? then [ProcessClosed] else [])
  }

  function CountKind(events: seq<(nat, PoolEvent)>, kind: PoolEvent): nat {
    if events == [] then 0
    else CountKind(events[..|events| - 1], kind) + if events[|events| - 1].1 == kind then 1 else 0
  }

  ghost predicate PoolExact(pool: PoolState<nat>, sessions: seq<Session>, limit: nat) {
    && NoDuplicates(pool.executors)
    && (forall sid: nat :: sid in pool.executors <==> sid < |sessions| && !sessions[sid].phase.Closed?)
    && (forall sid: nat :: EventsOf(pool.events, sid) == if sid < |sessions| then EventsAt(sessions[sid]) else [])
    && |pool.executors| + CountKind(pool.events, ProcessClosed) == CountKind(pool.events, Created)
    && SupervisorExact(pool, limit)
  }

  ghost predicate SessionsInv(sessions: seq<Session>) {
    forall i :: 0 <= i < |sessions|
      ==> Inv(sessions[i]) && (sessions[i].exec.task.NoTask? ==> sessions[i].phase.Closed?)
  }

  ghost predicate WorkerInv(limit: nat, w: WorkerState) {
    SessionsInv(w.sessions) && GaugesExact(w.sessions, w.store) && PoolExact(w.pool, w.sessions, limit)
  }

  // ---- one step ----

  /** A caller can settle a running status and add cancellations, nothing else. */
  lemma ExecKeepsInv(s: Session, e: Exec)
    requires Inv(s) && e.task == s.exec.task && e.cancels >= s.exec.cancels
    requires e.status == s.exec.status || (s.exec.status.Running? && e.status.Failed?)
    requires e.status != s.exec.status && s.exec.task.InFlight? ==> e.cancels > s.exec.cancels
    ensures Inv(WithExec(s, e))
  {
    hide Open, Complete;
  }

  lemma ShutdownKeepsInv(s: Session)
    requires Inv(s)
    ensures Inv(s.(shutdown := true))
  {
    hide Open, Complete;
  }

  lemma CloseKeepsInv(s: Session)
    requires Inv(s) && s.phase.Done?
    ensures Inv(s.(phase := Closed))
  {
    hide Open, Complete;
  }

  lemma PoolUnmoved(pool: PoolState<nat>, sessions: seq<Session>, limit: nat, sid: nat, s: Session)
    requires sid < |sessions| && PoolExact(pool, sessions, limit)
    requires EventsAt(s) == EventsAt(sessions[sid]) && (s.phase.Closed? <==> sessions[sid].phase.Closed?)
    ensures PoolExact(pool, sessions[sid := s], limit)
  {
  }

  lemma EmitKind(p: PoolState<nat>, e: nat, event: PoolEvent, kind: PoolEvent)
    ensures CountKind(Emit(p, e, event).events, kind) == CountKind(p.events, kind) + if event == kind then 1 else 0
  {
    assert Emit(p, e, event).events[..|p.events|] == p.events;
  }

  /** What admitting a fresh executor does to the tracked list and the events. */
  lemma AdmitFacts(p: PoolState<nat>, e: nat)
    requires NoDuplicates(p.executors) && e !in p.executors
    ensures var q := Admit(p, e);
            && NoDuplicates(q.executors) && q.executors == p.executors + [e]
            && (forall x ::
                  EventsOf(q.events, x) ==
                    EventsOf(p.events, x) + if x == e then [Created, ProcessStarted, Ready] else [])
            && CountKind(q.events, Created) == CountKind(p.events, Created) + 1
            && CountKind(q.events, ProcessClosed) == CountKind(p.events, ProcessClosed)
  {
    var a := p.(executors := p.executors + [e]);
    var b := Emit(a, e, Created);
    var c := Emit(b, e, ProcessStarted);
    EmitEvents(a, e, Created);
    EmitEvents(b, e, ProcessStarted);
    EmitEvents(c, e, Ready);
    EmitKind(a, e, Created, Created);
    EmitKind(b, e, ProcessStarted, Created);
    EmitKind(c, e, Ready, Created);
    EmitKind(a, e, Created, ProcessClosed);
    EmitKind(b, e, ProcessStarted, ProcessClosed);
    EmitKind(c, e, Ready, ProcessClosed);
  }

  /** What a done callback does to the tracked list and the events. */
  lemma DoneFacts(p: PoolState<nat>, e: nat, status: JobStatus, limit: nat)
    requires limit >= 1 && SupervisorExact(p, limit)
    requires NoDuplicates(p.executors) && e in p.executors
    ensures var q := ExecutorDone(p, e, status, limit);
            && NoDuplicates(q.executors) && |q.executors| == |p.executors| - 1
            && (forall y :: y in q.executors <==> y in p.executors && y != e)
            && (forall x :: EventsOf(q.events, x) == EventsOf(p.events, x) + if x == e then [ProcessClosed] else [])
            && CountKind(q.events, Created) == CountKind(p.events, Created)
            && CountKind(q.events, ProcessClosed) == CountKind(p.events, ProcessClosed) + 1
            && SupervisorExact(q, limit)
  {
    hide RemoveFirst, TrailingFailures, RunsReaching, EventsOf, CountKind, NoDuplicates;
    RemoveFirstExact(p.executors, e);
    var a := p.(executors := RemoveFirst(p.executors, e));
    EmitEvents(a, e, ProcessClosed);
    EmitKind(a, e, ProcessClosed, Created);
    EmitKind(a, e, ProcessClosed, ProcessClosed);
    ObserveKeepsSupervisorExact(Emit(a, e, ProcessClosed), status, limit);
  }

  lemma AppendKeepsPool(p: PoolState<nat>, q: PoolState<nat>, sessions: seq<Session>, limit: nat, s: Session)
    requires PoolExact(p, sessions, limit) && SupervisorExact(q, limit)
    requires NoDuplicates(q.executors)
        && |q.executors| + CountKind(q.events, ProcessClosed) == CountKind(q.events, Created)
    requires forall y: nat :: y in q.executors <==> y in p.executors || (y == |sessions| && !s.phase.Closed?)
    requires forall x: nat ::
               EventsOf(q.events, x) == EventsOf(p.events, x) + if x == |sessions| then EventsAt(s) else []
    ensures PoolExact(q, sessions + [s], limit)
  {
  }

  lemma LaunchFacts(p: PoolState<nat>, e: nat)
    requires NoDuplicates(p.executors) && e !in p.executors
    ensures var q := Emit(Admit(p, e), e, JobLaunched);
            && NoDuplicates(q.executors) && q.executors == p.executors + [e]
            && (forall x ::
                  EventsOf(q.events, x) ==
                    EventsOf(p.events, x) + if x == e then [Created, ProcessStarted, Ready, JobLaunched] else [])
            && CountKind(q.events, Created) == CountKind(p.events, Created) + 1
            && CountKind(q.events, ProcessClosed) == CountKind(p.events, ProcessClosed)
  {
    AdmitFacts(p, e);
    var q := Admit(p, e);
    EmitEvents(q, e, JobLaunched);
    EmitKind(q, e, JobLaunched, Created);
    EmitKind(q, e, JobLaunched, ProcessClosed);
  }

  lemma LaunchKeepsPool(pool: PoolState<nat>, sessions: seq<Session>, limit: nat, job: Job)
    requires PoolExact(pool, sessions, limit)
    ensures PoolExact(Emit(Admit(pool, |sessions|), |sessions|, JobLaunched), sessions + [Launched(job)], limit)
  {
    hide TrailingFailures, RunsReaching, EventsOf, CountKind, NoDuplicates;
    LaunchFacts(pool, |sessions|);
    AppendKeepsPool(pool, Emit(Admit(pool, |sessions|), |sessions|, JobLaunched), sessions, limit, Launched(job));
  }

  lemma RefusalFacts(p: PoolState<nat>, e: nat, limit: nat)
    requires limit >= 1 && SupervisorExact(p, limit) && NoDuplicates(p.executors) && e !in p.executors
    ensures var q := ExecutorDone(Admit(p, e), e, JobStatus.Running, limit);
            && SupervisorExact(q, limit) && NoDuplicates(q.executors) && |q.executors| == |p.executors|
            && (forall y :: y in q.executors <==> y in p.executors)
            && (forall x ::
                  EventsOf(q.events, x) ==
                    EventsOf(p.events, x) + if x == e then [Created, ProcessStarted, Ready, ProcessClosed] else [])
            && CountKind(q.events, Created) == CountKind(p.events, Created) + 1
            && CountKind(q.events, ProcessClosed) == CountKind(p.events, ProcessClosed) + 1
  {
    hide ExecutorDone, TrailingFailures, RunsReaching, EventsOf, CountKind, NoDuplicates;
    AdmitFacts(p, e);
    DoneFacts(Admit(p, e), e, JobStatus.Running, limit);
  }

  lemma RefusalKeepsPool(pool: PoolState<nat>, sessions: seq<Session>, limit: nat, job: Job)
    requires limit >= 1 && PoolExact(pool, sessions, limit)
    ensures PoolExact(ExecutorDone(Admit(pool, |sessions|), |sessions|, JobStatus.Running, limit),
        sessions + [RefusedLaunch(job)], limit)
  {
    RefusalFacts(pool, |sessions|, limit);
    AppendKeepsPool(pool, ExecutorDone(Admit(pool, |sessions|), |sessions|, JobStatus.Running, limit), sessions, limit,
      RefusedLaunch(job));
  }

  lemma DoneKeepsPool(pool: PoolState<nat>, sessions: seq<Session>, limit: nat, sid: nat)
    requires limit >= 1 && PoolExact(pool, sessions, limit)
    requires sid < |sessions| && sessions[sid].phase.Done?
    ensures PoolExact(ExecutorDone(pool, sid, sessions[sid].exec.status, limit),
        sessions[sid := sessions[sid].(phase := Closed)], limit)
  {
    hide ExecutorDone, SupervisorExact, EventsOf, CountKind;
    DoneFacts(pool, sid, sessions[sid].exec.status, limit);
  }

  lemma AdvanceKeepsInv(limit: nat, w: WorkerState, sid: nat, s: Session, message: string)
    requires WorkerInv(limit, w) && sid < |w.sessions| && !w.sessions[sid].phase.Closed?
    requires Inv(s) && TaskLater(w.sessions[sid], s)
    ensures WorkerInv(limit, Advance(w, sid, s, message))
  {
    hide GaugesExact, PoolExact, ApplyEffects;
    AdvanceKeepsGauges(w, sid, s, message);
    PoolUnmoved(w.pool, w.sessions, limit, sid, s);
  }

  lemma PutKeepsInv(limit: nat, w: WorkerState, sid: nat, s: Session)
    requires WorkerInv(limit, w) && sid < |w.sessions|
    requires Inv(s) && s.job == w.sessions[sid].job && s.log == w.sessions[sid].log
    requires s.phase == w.sessions[sid].phase && s.exec.task == w.sessions[sid].exec.task
    ensures WorkerInv(limit, Put(w, sid, s))
  {
    hide Inv, GaugesExact, PoolExact;
    SameCounts(w.sessions, w.store, sid, s);
    PoolUnmoved(w.pool, w.sessions, limit, sid, s);
  }

  lemma LaunchKeepsInv(limit: nat, w: WorkerState, job: Job, refused: bool)
    requires limit >= 1 && WorkerInv(limit, w)
    ensures WorkerInv(limit, Apply(limit, w, Launch(job, refused)))
  {
    hide Inv, GaugesExact, PoolExact, Admit, Emit, ExecutorDone;
    LaunchKeepsSessionInv(job);
    if refused {
      RefusalKeepsPool(w.pool, w.sessions, limit, job);
      AppendKeepsSessions(w.sessions, RefusedLaunch(job));
      LaunchKeepsGauges(w.sessions, w.store, RefusedLaunch(job));
    } else {
      LaunchKeepsPool(w.pool, w.sessions, limit, job);
      AppendKeepsSessions(w.sessions, Launched(job));
      LaunchKeepsGauges(w.sessions, w.store, Launched(job));
    }
  }

  lemma AppendKeepsSessions(sessions: seq<Session>, s: Session)
    requires SessionsInv(sessions) && Inv(s) && (s.exec.task.NoTask? ==> s.phase.Closed?)
    ensures SessionsInv(sessions + [s])
  {
  }

  lemma CallbackKeepsInv(limit: nat, w: WorkerState, sid: nat)
    requires limit >= 1 && WorkerInv(limit, w)
    ensures WorkerInv(limit, Apply(limit, w, DoneCallback(sid)))
  {
    hide Inv, GaugesExact, PoolExact, ExecutorDone;
    if Enabled(w, DoneCallback(sid)) {
      var s := w.sessions[sid];
      CloseKeepsInv(s);
      SameCounts(w.sessions, w.store, sid, s.(phase := Closed));
      DoneKeepsPool(w.pool, w.sessions, limit, sid);
    }
  }

  lemma FlagKeepsInv(limit: nat, w: WorkerState, started: bool, draining: bool)
    requires WorkerInv(limit, w)
    ensures WorkerInv(limit, w.(pool := w.pool.(started := started, draining := draining)))
  {
  }

  lemma StepKeepsInv(limit: nat, w: WorkerState, step: Step)
    requires limit >= 1 && WorkerInv(limit, w)
    ensures WorkerInv(limit, Apply(limit, w, step))
  {
    hide WorkerInv;
    if Enabled(w, step) {
      match step
      case StartPool => FlagKeepsInv(limit, w, true, w.pool.draining);
      case BeginDrain => FlagKeepsInv(limit, w, w.pool.started, true);
      case ClosePool => FlagKeepsInv(limit, w, false, w.pool.draining);
      case Launch(job, refused) => LaunchKeepsInv(limit, w, job, refused);
      case BeginTask(sid, first) => BeginStepKeepsInv(limit, w, sid, first);
      case ResumeTask(sid, wake, primary, message) => ResumeStepKeepsInv(limit, w, sid, wake, primary, message);
      case DoneCallback(sid) => CallbackKeepsInv(limit, w, sid);
      case _ => OutsideStepKeepsInv(limit, w, step);
    }
  }

  lemma BeginStepKeepsInv(limit: nat, w: WorkerState, sid: nat, first: First)
    requires WorkerInv(limit, w) && Enabled(w, BeginTask(sid, first))
    ensures WorkerInv(limit, Apply(limit, w, BeginTask(sid, first)))
  {
    BeginLater(w.sessions[sid], first);
    BeginKeepsInv(w.sessions[sid], first);
    AdvanceKeepsInv(limit, w, sid, Begin(w.sessions[sid], first), "");
  }

  lemma SessionTracked(limit: nat, w: WorkerState, sid: nat)
    requires WorkerInv(limit, w) && sid < |w.sessions|
    ensures Inv(w.sessions[sid])
  {
  }

  lemma ResumableIsOpen(s: Session, wake: Wake)
    requires CanResume(s, wake)
    ensures !s.phase.Closed?
  {
  }

  lemma ResumeStepKeepsInv(limit: nat, w: WorkerState, sid: nat, wake: Wake, primary: bool, message: string)
    requires WorkerInv(limit, w) && sid < |w.sessions| && CanResume(w.sessions[sid], wake)
    ensures WorkerInv(limit, Apply(limit, w, ResumeTask(sid, wake, primary, message)))
  {
    ResumableIsOpen(w.sessions[sid], wake);
    hide WorkerInv, Resume, CanResume, Inv, Advance, TaskLater;
    SessionTracked(limit, w, sid);
    ResumeLater(w.sessions[sid], wake, primary);
    ResumeKeepsInv(w.sessions[sid], wake, primary);
    AdvanceKeepsInv(limit, w, sid, Resume(w.sessions[sid], wake, primary), message);
  }

  lemma CallKeepsInv(s: Session, step: Step)
    requires Inv(s)
    requires IsCall(step) && (step.AcloseReturn? ==> s.exec.acloses > 0 && s.exec.task.Finished?)
    ensures Inv(AfterCall(s, step))
  {
    hide Inv;
    match step
    case RequestShutdown(_) => ShutdownKeepsInv(s);
    case AcloseCall(_) => ExecKeepsInv(s, AcloseBegin(s.exec));
    case AcloseReturn(_) => ExecKeepsInv(s, AcloseEnd(s.exec));
    case _ => ExecKeepsInv(s, Kill(s.exec));
  }

  lemma OutsideStepKeepsInv(limit: nat, w: WorkerState, step: Step)
    requires WorkerInv(limit, w) && Enabled(w, step)
    requires IsCall(step)
    ensures WorkerInv(limit, Apply(limit, w, step))
  {
    hide Inv, GaugesExact, PoolExact;
    CallKeepsInv(w.sessions[step.sid], step);
    PutKeepsInv(limit, w, step.sid, AfterCall(w.sessions[step.sid], step));
  }

  /** The invariant holds after any sequence of steps from a fresh worker. */
  lemma {:induction false} EveryRunKeepsInv(limit: nat, steps: seq<Step>)
    requires limit >= 1
    ensures WorkerInv(limit, Run(limit, Fresh(), steps))
  {
    hide Apply;
    if steps != [] {
      EveryRunKeepsInv(limit, steps[..|steps| - 1]);
      StepKeepsInv(limit, Run(limit, Fresh(), steps[..|steps| - 1]), steps[|steps| - 1]);
    }
  }
}
