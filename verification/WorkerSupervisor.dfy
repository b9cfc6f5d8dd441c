/** The supervisor of a worker sees the status each executor closed with, in closing order. */
module WorkerSupervisor {
  import opened Basics
  import opened Executor
  import opened Pool
  import opened SessionFacts
  import opened SessionTask
  import opened Worker
  import opened WorkerRuns
  import opened WorkerTheorems

  /** The executors in the order of their `process_closed` events. */
  function ClosedOrder(events: seq<(nat, PoolEvent)>): seq<nat> {
    if events == [] then []
    else
      var last := events[|events| - 1];
      ClosedOrder(events[..|events| - 1]) + if last.1.ProcessClosed? then [last.0] else []
  }

  /** An executor closes with its final status, except that a late `aclose` can still settle a RUNNING one to FAILED. */
  predicate ClosedWith(observed: JobStatus, final: JobStatus) {
    observed == final || (observed.Running? && final.Failed?)
  }

  /** What was observed is, entry by entry, the status of the executors in closing order. */
  ghost predicate ObservedExact(pool: PoolState<nat>, sessions: seq<Session>) {
    var order := ClosedOrder(pool.events);
    && |pool.observed| == |order|
    && forall i :: 0 <= i < |order| ==>
         && order[i] < |sessions| && sessions[order[i]].phase.Closed?
         && ClosedWith(pool.observed[i], sessions[order[i]].exec.status)
  }

  lemma EmitOrder(p: PoolState<nat>, e: nat, event: PoolEvent)
    ensures ClosedOrder(Emit(p, e, event).events) == ClosedOrder(p.events) + if event.ProcessClosed? then [e] else []
  {
    assert Emit(p, e, event).events[..|p.events|] == p.events;
  }

  lemma AdmitOrder(p: PoolState<nat>, e: nat)
    ensures ClosedOrder(Admit(p, e).events) == ClosedOrder(p.events) && Admit(p, e).observed == p.observed
  {
    var a := p.(executors := p.executors + [e]);
    EmitOrder(a, e, Created);
    EmitOrder(Emit(a, e, Created), e, ProcessStarted);
    EmitOrder(Emit(Emit(a, e, Created), e, ProcessStarted), e, Ready);
    hide ClosedOrder;
  }

  /** A done callback observes the status the executor has then, and closes it last. */
  lemma DoneObserves(p: PoolState<nat>, e: nat, status: JobStatus, limit: nat)
    requires e in p.executors
    ensures var q := ExecutorDone(p, e, status, limit);
            q.observed == p.observed + [status] && ClosedOrder(q.events) == ClosedOrder(p.events) + [e]
  {
    hide ClosedOrder, RemoveFirst;
    EmitOrder(p.(executors := RemoveFirst(p.executors, e)), e, ProcessClosed);
  }

  lemma LaunchObserves(limit: nat, w: WorkerState, job: Job, refused: bool)
    requires ObservedExact(w.pool, w.sessions)
    ensures ObservedExact(Apply(limit, w, Launch(job, refused)).pool, Apply(limit, w, Launch(job, refused)).sessions)
  {
    hide ClosedOrder, ExecutorDone, Admit;
    var sid := |w.sessions|;
    AdmitOrder(w.pool, sid);
    if refused {
      AdmitTracks(w.pool, sid);
      DoneObserves(Admit(w.pool, sid), sid, JobStatus.Running, limit);
    } else {
      EmitOrder(Admit(w.pool, sid), sid, JobLaunched);
    }
  }

  lemma AdmitTracks(p: PoolState<nat>, e: nat)
    ensures e in Admit(p, e).executors
  {
  }

  lemma ObservedGrows(pool: PoolState<nat>, grown: PoolState<nat>, sessions: seq<Session>, sid: nat)
    requires ObservedExact(pool, sessions) && sid < |sessions|
    requires grown.observed == pool.observed + [sessions[sid].exec.status]
    requires ClosedOrder(grown.events) == ClosedOrder(pool.events) + [sid]
    ensures ObservedExact(grown, sessions[sid := sessions[sid].(phase := Closed)])
  {
    hide ClosedOrder;
  }

  lemma CallbackRuns(limit: nat, w: WorkerState, sid: nat)
    requires Enabled(w, DoneCallback(sid))
    ensures var after := Apply(limit, w, DoneCallback(sid));
            && after.pool == ExecutorDone(w.pool, sid, w.sessions[sid].exec.status, limit)
            && after.sessions == w.sessions[sid := w.sessions[sid].(phase := Closed)]
  {
    hide ExecutorDone, Resume, Begin, ApplyEffects, AfterCall, Admit;
  }

  /** The done callback observes the status its session has at that moment. */
  lemma CallbackObserves(limit: nat, w: WorkerState, sid: nat)
    requires WorkerInv(limit, w) && Enabled(w, DoneCallback(sid))
    ensures var after := Apply(limit, w, DoneCallback(sid));
            && after.pool.observed == w.pool.observed + [w.sessions[sid].exec.status]
            && ClosedOrder(after.pool.events) == ClosedOrder(w.pool.events) + [sid]
            && after.sessions == w.sessions[sid := w.sessions[sid].(phase := Closed)]
  {
    hide ClosedOrder, ExecutorDone, WorkerInv, Apply;
    TrackedUntilClosed(limit, w, sid);
    CallbackRuns(limit, w, sid);
    DoneObserves(w.pool, sid, w.sessions[sid].exec.status, limit);
  }

  lemma TrackedUntilClosed(limit: nat, w: WorkerState, sid: nat)
    requires WorkerInv(limit, w) && sid < |w.sessions| && !w.sessions[sid].phase.Closed?
    ensures sid in w.pool.executors
  {
    hide SessionsInv, SupervisorExact, EventsOf, CountKind;
  }

  /** A closed session is never moved by its task, and its status moves only from RUNNING to FAILED. */
  lemma ClosedStays(limit: nat, w: WorkerState, step: Step, sid: nat)
    requires sid < |w.sessions| && w.sessions[sid].phase.Closed? && !w.sessions[sid].exec.task.InFlight?
    requires !step.Launch? && !step.DoneCallback?
    ensures var after := Apply(limit, w, step);
            && after.pool.events == w.pool.events && after.pool.observed == w.pool.observed
            && |after.sessions| == |w.sessions|
            && after.sessions[sid].phase.Closed? && !after.sessions[sid].exec.task.InFlight?
            && ClosedWith(w.sessions[sid].exec.status, after.sessions[sid].exec.status)
  {
    hide Resume, Begin, ApplyEffects, AfterCall;
    if IsCall(step) && Enabled(w, step) && step.sid == sid {
      ClosedCall(w.sessions[step.sid], step);
    }
  }

  lemma ClosedCall(s: Session, step: Step)
    requires IsCall(step) && (step.AcloseReturn? ==> s.exec.acloses > 0) && !s.exec.task.InFlight?
    ensures var t := AfterCall(s, step);
            t.phase == s.phase && !t.exec.task.InFlight? && ClosedWith(s.exec.status, t.exec.status)
  {
    match step
    case RequestShutdown(_) =>
    case AcloseCall(_) =>
    case AcloseReturn(_) =>
    case _ =>
  }

  lemma StepObserves(limit: nat, w: WorkerState, step: Step)
    requires WorkerInv(limit, w) && ObservedExact(w.pool, w.sessions)
    ensures ObservedExact(Apply(limit, w, step).pool, Apply(limit, w, step).sessions)
  {
    hide WorkerInv, ClosedOrder;
    if step.Launch? {
      hide Apply;
      LaunchObserves(limit, w, step.job, step.refused);
    } else if step.DoneCallback? {
      if Enabled(w, step) {
        hide Apply, ObservedExact;
        CallbackObserves(limit, w, step.sid);
        ObservedGrows(w.pool, Apply(limit, w, step).pool, w.sessions, step.sid);
      }
    } else {
      hide Apply;
      var order := ClosedOrder(w.pool.events);
      PoolUntouched(limit, w, step);
      forall i | 0 <= i < |order|
        ensures order[i] < |Apply(limit, w, step).sessions|
        ensures Apply(limit, w, step).sessions[order[i]].phase.Closed?
        ensures ClosedWith(w.pool.observed[i], Apply(limit, w, step).sessions[order[i]].exec.status)
      {
        SessionOfRun(limit, w, order[i]);
        ClosedIsDone(w.sessions[order[i]]);
        ClosedStays(limit, w, step, order[i]);
      }
    }
  }

  lemma PoolUntouched(limit: nat, w: WorkerState, step: Step)
    requires !step.Launch? && !step.DoneCallback?
    ensures var after := Apply(limit, w, step);
            after.pool.events == w.pool.events && after.pool.observed == w.pool.observed
  {
    hide Resume, Begin, ApplyEffects, AfterCall;
  }

  lemma ClosedIsDone(s: Session)
    requires Inv(s) && s.phase.Closed?
    ensures !s.exec.task.InFlight?
  {
  }

  lemma {:induction false} EveryRunObserves(limit: nat, steps: seq<Step>)
    requires limit >= 1
    ensures ObservedExact(Run(limit, Fresh(), steps).pool, Run(limit, Fresh(), steps).sessions)
  {
    if steps != [] {
      hide Apply, ObservedExact, WorkerInv;
      var init := steps[..|steps| - 1];
      EveryRunObserves(limit, init);
      EveryRunKeepsInv(limit, init);
      StepObserves(limit, Run(limit, Fresh(), init), steps[|steps| - 1]);
    }
  }

  // ---- the supervisor, told from the statuses ----

  /** The status of every closed executor, in closing order. */
  ghost function ClosedStatuses(order: seq<nat>, sessions: seq<Session>): (statuses: seq<JobStatus>)
    requires forall i :: 0 <= i < |order| ==> order[i] < |sessions|
    ensures |statuses| == |order|
    ensures forall i :: 0 <= i < |order| ==> statuses[i] == sessions[order[i]].exec.status
  {
    seq(|order|, i requires 0 <= i < |order| => sessions[order[i]].exec.status)
  }

  ghost predicate SameSuccesses(a: seq<JobStatus>, b: seq<JobStatus>) {
    |a| == |b| && forall i :: 0 <= i < |a| ==> (a[i].Success? <==> b[i].Success?)
  }

  lemma {:induction false} SameSupervision(a: seq<JobStatus>, b: seq<JobStatus>, limit: nat)
    requires SameSuccesses(a, b)
    ensures TrailingFailures(a) == TrailingFailures(b) && RunsReaching(a, limit) == RunsReaching(b, limit)
  {
    if a != [] {
      SameSupervision(a[..|a| - 1], b[..|b| - 1], limit);
    }
  }

  lemma {:induction false} OrderCounts(events: seq<(nat, PoolEvent)>)
    ensures |ClosedOrder(events)| == CountKind(events, ProcessClosed)
  {
    if events != [] {
      OrderCounts(events[..|events| - 1]);
    }
  }

  /**
   In every run the supervisor's counter is the number of executors closed since the last SUCCESS,
   it has fired exactly while that number is at the limit or above, and it has called back once for
   each maximal run of other statuses that reached the limit, each time with the limit: over the
   statuses of the closed executors, one for each `process_closed` event, in their order.
   */
  lemma SupervisorFollowsStatuses(limit: nat, steps: seq<Step>)
    requires limit >= 1
    ensures var w := Run(limit, Fresh(), steps);
            var order := ClosedOrder(w.pool.events);
            && |order| == CountKind(w.pool.events, ProcessClosed)
            && (forall i :: 0 <= i < |order| ==> order[i] < |w.sessions| && w.sessions[order[i]].phase.Closed?)
            && var statuses := ClosedStatuses(order, w.sessions);
               && w.pool.consecutive == TrailingFailures(statuses)
               && (w.pool.fired <==> TrailingFailures(statuses) >= limit)
               && |w.pool.alarms| == RunsReaching(statuses, limit)
               && (forall n :: n in w.pool.alarms ==> n == limit)
  {
    EveryRunObserves(limit, steps);
    PoolAccounts(limit, steps);
    hide Run, ClosedOrder, TrailingFailures, RunsReaching;
    var w := Run(limit, Fresh(), steps);
    OrderCounts(w.pool.events);
    SameSupervision(w.pool.observed, ClosedStatuses(ClosedOrder(w.pool.events), w.sessions), limit);
  }

  /** Two refused launches in a row under a limit of two: one callback, with two. */
  lemma TwoFailuresAlarm(job: Job)
    ensures var w := Run(2, Fresh(), [StartPool, Launch(job, true), Launch(job, true)]);
            w.pool.alarms == [2] && w.pool.fired && w.pool.consecutive == 2
  {
    var steps: seq<Step> := [];
    var w := Fresh();
    hide Run, ApplyEffects;
    RunNothing(2, w);
    steps, w := Extend(2, steps, w, StartPool);
    steps, w := Extend(2, steps, w, Launch(job, true));
    assert w.pool.executors == [] && w.pool.consecutive == 1;
    steps, w := Extend(2, steps, w, Launch(job, true));
    assert steps == [StartPool, Launch(job, true), Launch(job, true)];
  }
}
