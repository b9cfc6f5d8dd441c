/** The worker's guarantees, over every sequence of steps from a fresh worker. */
module WorkerTheorems {
  import opened Basics
  import opened Executor
  import opened Pool
  import opened SessionFacts
  import opened SessionTask
  import opened Worker
  import opened WorkerGauges
  import opened WorkerRuns

  /** The session's task has ended, or never existed. */
  predicate TaskOver(s: Session) {
    !s.exec.task.InFlight?
  }

  // ---- start and finish ----

  /**
   In every run and at every moment a session has recorded at most one start, then at most one
   failure, then at most one finish. Once its task is over, a recorded start has its finish if
   and only if the pool has an end hook or the session was not deferred to it; and then every
   observer was told of the end unless the task was cancelled or its end hook timed out, and,
   if the end was a success, every observer had been told of the start.
   */
  lemma StartMeetsItsFinish(limit: nat, steps: seq<Step>, sid: nat)
    requires limit >= 1 && sid < |Run(limit, Fresh(), steps).sessions|
    ensures var s := Run(limit, Fresh(), steps).sessions[sid];
            && Shape(s.log)
            && (TaskOver(s) && s.log != [] ==>
                  && (s.log[|s.log| - 1].FinishRecorded? <==> s.job.endHook || !(s.job.defers && Held(s)))
                  && (s.log[|s.log| - 1].FinishRecorded? ==>
                        s.log == Complete(s.log[|s.log| - 1].error) && ToldAll(s)
                          && StartTold(s, s.log[|s.log| - 1].error)))
  {
    EveryRunKeepsInv(limit, steps);
    InvShape(Run(limit, Fresh(), steps).sessions[sid]);
  }

  /** A start hook that raises when called fails the session: it never reports a success, and never is one. */
  lemma StartFaultFails(limit: nat, steps: seq<Step>, sid: nat)
    requires limit >= 1 && sid < |Run(limit, Fresh(), steps).sessions|
    requires StartReach(Run(limit, Fresh(), steps).sessions[sid].job)
           < Run(limit, Fresh(), steps).sessions[sid].job.observers
    ensures var s := Run(limit, Fresh(), steps).sessions[sid];
            !s.exec.status.Success? && s.log != Complete(NoError)
  {
    EveryRunKeepsInv(limit, steps);
    hide Run, WorkerInv;
    var w := Run(limit, Fresh(), steps);
    SessionOfRun(limit, w, sid);
    FaultedNeverWell(w.sessions[sid]);
  }

  lemma FaultedNeverWell(s: Session)
    requires Inv(s) && StartReach(s.job) < s.job.observers
    ensures !s.exec.status.Success? && s.log != Complete(NoError)
  {
    assert Complete(NoError)[|Complete(NoError)| - 1] == FinishRecorded(NoError);
  }

  /** Continuing a run never unwrites a log, changes a job, or moves a status that has settled. */
  lemma {:induction false} RunOnlyAdds(limit: nat, w: WorkerState, steps: seq<Step>, sid: nat)
    requires sid < |w.sessions|
    ensures var w' := Run(limit, w, steps);
            && |w.sessions| <= |w'.sessions|
            && Later(w.sessions[sid], w'.sessions[sid])
            && (Ended(w.sessions[sid]) ==> Ended(w'.sessions[sid]) && w'.sessions[sid].log == w.sessions[sid].log)
  {
    if steps != [] {
      hide Apply;
      var init, last := steps[..|steps| - 1], steps[|steps| - 1];
      RunOnlyAdds(limit, w, init, sid);
      StepOnlyAdds(limit, Run(limit, w, init), last, sid);
    }
  }

  predicate Ended(s: Session) {
    s.phase.Done? || s.phase.Closed?
  }

  lemma StepOnlyAdds(limit: nat, w: WorkerState, step: Step, sid: nat)
    requires sid < |w.sessions|
    ensures var w' := Apply(limit, w, step);
            && |w.sessions| <= |w'.sessions|
            && Later(w.sessions[sid], w'.sessions[sid])
            && (Ended(w.sessions[sid]) ==> Ended(w'.sessions[sid]) && w'.sessions[sid].log == w.sessions[sid].log)
  {
    hide Resume, Begin, Admit, ExecutorDone, ApplyEffects;
    if Enabled(w, step) {
      match step
      case BeginTask(i, first) => BeginLater(w.sessions[i], first);
      case ResumeTask(i, wake, primary, _) => ResumeLater(w.sessions[i], wake, primary);
      case DoneCallback(_) =>
      case RequestShutdown(_) =>
      case AcloseCall(_) =>
      case AcloseReturn(_) =>
      case KillCall(_) =>
      case _ =>
    }
  }

  /** A session whose first step failed before routing it, or never ran, records nothing, ever. */
  lemma UnroutedRecordsNothing(limit: nat, before: seq<Step>, sid: nat, first: First, after: seq<Step>)
    requires limit >= 1 && !first.Routed? && Enabled(Run(limit, Fresh(), before), BeginTask(sid, first))
    ensures var w := Run(limit, Apply(limit, Run(limit, Fresh(), before), BeginTask(sid, first)), after);
            sid < |w.sessions| && Ended(w.sessions[sid]) && w.sessions[sid].log == []
  {
    EveryRunKeepsInv(limit, before);
    RunOnlyAdds(limit, Apply(limit, Run(limit, Fresh(), before), BeginTask(sid, first)), after, sid);
  }

  // ---- status ----

  /** Whatever kill, aclose, swallowed cancellations and completion do, a settled status stays. */
  lemma StatusSettlesOnce(limit: nat, w: WorkerState, steps: seq<Step>, sid: nat)
    requires sid < |w.sessions| && !w.sessions[sid].exec.status.Running?
    ensures sid < |Run(limit, w, steps).sessions|
    ensures Run(limit, w, steps).sessions[sid].exec.status == w.sessions[sid].exec.status
  {
    RunOnlyAdds(limit, w, steps, sid);
  }

  /**
   SUCCESS: the entrypoint returned, a held call was shut down and torn down, and the end was or
   will be reported as a success.
   */
  lemma SuccessIsEarned(limit: nat, steps: seq<Step>, sid: nat)
    requires limit >= 1 && sid < |Run(limit, Fresh(), steps).sessions|
    requires Run(limit, Fresh(), steps).sessions[sid].exec.status.Success?
    ensures var s := Run(limit, Fresh(), steps).sessions[sid];
            && s.returned && (Held(s) ==> s.shutdown && s.tornDown)
            && (s.log == Complete(NoError) || (s.log == Open(NoError) && s.finish == Some(NoError)))
  {
    EveryRunKeepsInv(limit, steps);
  }

  /**
   When it ends, a session is SUCCESS exactly when its entrypoint returned, its teardown ran
   whole if it was held, and no caller had settled its status first. Where it also reports a
   success, the entrypoint of an uncancelled session returned exactly when its end was deferred
   or no end hook raised when called.
   */
  lemma StatusExact(limit: nat, steps: seq<Step>, sid: nat)
    requires limit >= 1 && sid < |Run(limit, Fresh(), steps).sessions|
    requires Ended(Run(limit, Fresh(), steps).sessions[sid])
    ensures var s := Run(limit, Fresh(), steps).sessions[sid];
            && (s.exec.status.Success? <==> s.returned && (Held(s) ==> s.tornDown) && !s.killed)
            && (s.exec.cancels == 0 ==> !s.killed)
            && (s.exec.cancels == 0 && s.log == Complete(NoError) ==>
                  (s.returned <==> (s.job.defers && Held(s)) || EndReach(s.job) == s.job.observers))
  {
    EveryRunKeepsInv(limit, steps);
    hide Run, WorkerInv, Inv;
    var w := Run(limit, Fresh(), steps);
    assert Inv(w.sessions[sid]) by { SessionOfRun(limit, w, sid); }
    EndedIsSettled(w.sessions[sid]);
  }

  lemma SessionOfRun(limit: nat, w: WorkerState, sid: nat)
    requires WorkerInv(limit, w) && sid < |w.sessions|
    ensures Inv(w.sessions[sid])
  {
  }

  lemma EndedIsSettled(s: Session)
    requires Inv(s) && Ended(s)
    ensures Settled(s) && (s.killed ==> s.exec.cancels > 0)
  {
  }

  /**
   So a reported success and a SUCCESS status come apart exactly for a session that a caller
   settled first, that was held and not torn down whole, or that left its inline end
   notifications early.
   */
  lemma ReportAndStatus(limit: nat, steps: seq<Step>, sid: nat)
    requires limit >= 1 && sid < |Run(limit, Fresh(), steps).sessions|
    requires Ended(Run(limit, Fresh(), steps).sessions[sid])
    requires var log := Run(limit, Fresh(), steps).sessions[sid].log; log != [] && log[|log| - 1].FinishRecorded?
    ensures var s := Run(limit, Fresh(), steps).sessions[sid];
            && ((s.exec.status.Success? <==> s.log == Complete(NoError))
                <==> (s.log == Complete(NoError) ==> s.returned && (Held(s) ==> s.tornDown) && !s.killed))
            && (s.exec.cancels == 0 && Returns(s) ==>
                  ((s.exec.status.Success? <==> s.log == Complete(NoError))
                   <==> (s.log == Complete(NoError) && Held(s) ==> s.tornDown)))
  {
    StatusExact(limit, steps, sid);
    SuccessReports(limit, steps, sid);
  }

  lemma SuccessReports(limit: nat, steps: seq<Step>, sid: nat)
    requires limit >= 1 && sid < |Run(limit, Fresh(), steps).sessions|
    ensures var s := Run(limit, Fresh(), steps).sessions[sid];
            s.exec.status.Success? && s.log != [] && s.log[|s.log| - 1].FinishRecorded? ==> s.log == Complete(NoError)
  {
    EveryRunKeepsInv(limit, steps);
  }

  /** A call on its way to being held: launched, routed, connected and started, with nothing to notify or greet. */
  lemma HeldCall(limit: nat, job: Job) returns (steps: seq<Step>)
    requires limit >= 1 && !job.fake && job.defers && !job.greets && job.observers == 0
    ensures Run(limit, Fresh(), steps).sessions == [HeldSession(job)]
  {
    hide ApplyEffects, Run;
    steps := [];
    var w := Fresh();
    RunNothing(limit, w);
    steps, w := Extend(limit, steps, w, StartPool);
    steps, w := Extend(limit, steps, w, Launch(job, false));
    steps, w := Extend(limit, steps, w, BeginTask(0, Routed));
    steps, w := Extend(limit, steps, w, ResumeTask(0, Ok, false, ""));
    assert w.sessions[0].log == Open(NoError);
    steps, w := Extend(limit, steps, w, ResumeTask(0, Ok, true, ""));
    assert w.sessions[0] == HeldSession(job);
  }

  function HeldSession(job: Job): Session {
    Launched(job).(phase := HeldOpen, primary := true, finish := Some(NoError), log := Open(NoError), returned := true)
  }

  /** A call cancelled while held open is FAILED, yet reports a success. */
  lemma CancelledWhileHeldReportsSuccess(limit: nat) returns (steps: seq<Step>)
    requires limit >= 1
    ensures var w := Run(limit, Fresh(), steps);
            && |w.sessions| == 1 && Ended(w.sessions[0])
            && w.sessions[0].exec.status == Failed && w.sessions[0].log == Complete(NoError)
  {
    hide ApplyEffects, Run;
    steps := HeldCall(limit, Job("a", "t", false, true, false, 0, NoFault, NoFault, 0, true, false));
    var w := Run(limit, Fresh(), steps);
    steps, w := Extend(limit, steps, w, AcloseCall(0));
    steps, w := Extend(limit, steps, w, ResumeTask(0, Cancel, false, ""));
  }

  /**
   A call nobody cancels, whose teardown is cut off by a cancellation of its own, stays RUNNING,
   yet reports a success.
   */
  lemma CutTeardownReportsSuccess(limit: nat) returns (steps: seq<Step>)
    requires limit >= 1
    ensures var w := Run(limit, Fresh(), steps);
            && |w.sessions| == 1 && Ended(w.sessions[0]) && w.sessions[0].exec.cancels == 0
            && w.sessions[0].exec.status == JobStatus.Running && w.sessions[0].log == Complete(NoError)
  {
    hide ApplyEffects, Run;
    steps := HeldCall(limit, Job("a", "t", false, true, false, 0, NoFault, NoFault, 1, true, false));
    var w := Run(limit, Fresh(), steps);
    steps, w := Extend(limit, steps, w, RequestShutdown(0));
    steps, w := Extend(limit, steps, w, ResumeTask(0, Ok, false, ""));
    steps, w := Extend(limit, steps, w, ResumeTask(0, Cancel, false, ""));
  }

  /**
   A session that was never held and is cancelled while its end is being notified is FAILED, yet
   has reported a success.
   */
  lemma CancelledInNotifyReportsSuccess(limit: nat) returns (steps: seq<Step>)
    requires limit >= 1
    ensures var w := Run(limit, Fresh(), steps);
            && |w.sessions| == 1 && Ended(w.sessions[0]) && !Held(w.sessions[0])
            && w.sessions[0].exec.status == Failed && w.sessions[0].log == Complete(NoError)
  {
    hide ApplyEffects, Run;
    steps := GreetedFake(limit, Job("a", "t", true, true, true, 1, NoFault, NoFault, 0, true, false));
    var w := Run(limit, Fresh(), steps);
    steps, w := Extend(limit, steps, w, ResumeTask(0, Ok, false, ""));
    steps, w := Extend(limit, steps, w, AcloseCall(0));
    assert w.sessions[0].log == Complete(NoError);
    steps, w := Extend(limit, steps, w, ResumeTask(0, Cancel, false, ""));
  }

  /** So is a session nobody cancels, when the call of an end hook raises. */
  lemma FaultyHookReportsSuccess(limit: nat) returns (steps: seq<Step>)
    requires limit >= 1
    ensures var w := Run(limit, Fresh(), steps);
            && |w.sessions| == 1 && Ended(w.sessions[0]) && w.sessions[0].exec.cancels == 0
            && w.sessions[0].exec.status == Failed && w.sessions[0].log == Complete(NoError)
  {
    hide ApplyEffects, Run;
    steps := GreetedFake(limit, Job("a", "t", true, true, true, 1, NoFault, FaultAt(0, false), 0, true, false));
    var w := Run(limit, Fresh(), steps);
    steps, w := Extend(limit, steps, w, ResumeTask(0, Ok, false, ""));
    assert w.sessions[0].log == Complete(NoError);
  }

  /** A session whose only start hook raises when called: it fails, and reports that. */
  lemma FaultyStartExample(limit: nat) returns (steps: seq<Step>)
    requires limit >= 1
    ensures var w := Run(limit, Fresh(), steps);
            && |w.sessions| == 1 && Ended(w.sessions[0])
            && w.sessions[0].exec.status == Failed && w.sessions[0].log == Complete(Raised)
  {
    hide ApplyEffects, Run;
    var job := Job("a", "t", false, true, false, 1, FaultAt(0, false), NoFault, 0, true, false);
    steps := [];
    var w := Fresh();
    RunNothing(limit, w);
    steps, w := Extend(limit, steps, w, StartPool);
    steps, w := Extend(limit, steps, w, Launch(job, false));
    steps, w := Extend(limit, steps, w, BeginTask(0, Routed));
    steps, w := Extend(limit, steps, w, ResumeTask(0, Ok, false, ""));
    steps, w := Extend(limit, steps, w, ResumeTask(0, Ok, false, ""));
    assert w.sessions[0].log == Complete(Raised);
    steps, w := Extend(limit, steps, w, ResumeTask(0, Ok, false, ""));
  }

  /** A fake job with one observer, launched, connected, started, notified, and now greeting. */
  lemma GreetedFake(limit: nat, job: Job) returns (steps: seq<Step>)
    requires limit >= 1 && job.fake && job.greets && job.observers == 1 && job.startFault == NoFault
    ensures Run(limit, Fresh(), steps).sessions
         == [Launched(job).(phase := Phase.Greeting, primary := true, log := Open(NoError), startTold := 1)]
  {
    hide ApplyEffects, Run;
    steps := [];
    var w := Fresh();
    RunNothing(limit, w);
    steps, w := Extend(limit, steps, w, StartPool);
    steps, w := Extend(limit, steps, w, Launch(job, false));
    steps, w := Extend(limit, steps, w, BeginTask(0, Routed));
    steps, w := Extend(limit, steps, w, ResumeTask(0, Ok, false, ""));
    assert w.sessions[0].log == Open(NoError);
    steps, w := Extend(limit, steps, w, ResumeTask(0, Ok, true, ""));
    steps, w := Extend(limit, steps, w, ResumeTask(0, Ok, false, ""));
    assert w.sessions[0].log == Open(NoError) && w.sessions[0].startTold == 1;
  }

  lemma RunNothing(limit: nat, w: WorkerState)
    ensures Run(limit, w, []) == w
  {
  }

  lemma Extend(limit: nat, steps: seq<Step>, w: WorkerState, step: Step) returns (longer: seq<Step>, w': WorkerState)
    requires w == Run(limit, Fresh(), steps)
    ensures longer == steps + [step] && w' == Apply(limit, w, step) == Run(limit, Fresh(), longer)
  {
    longer, w' := steps + [step], Apply(limit, w, step);
    RunThen(limit, Fresh(), steps, step);
  }

  // ---- gauges ----

  /**
   In every run the gauges are exact, failures never exceed starts, and both keys of a session
   that can still finish are above the floor of the decrement.
   */
  lemma GaugesNeverDrift(limit: nat, steps: seq<Step>)
    requires limit >= 1
    ensures var w := Run(limit, Fresh(), steps);
            && GaugesExact(w.sessions, w.store) && w.store.failures <= w.store.started
            && forall sid: nat :: sid < |w.sessions| && Live(w.sessions[sid]) ==>
                 w.sessions[sid].job.agent in w.store.byAgent && w.sessions[sid].job.tenant in w.store.byTenant
  {
    EveryRunKeepsInv(limit, steps);
    var w := Run(limit, Fresh(), steps);
    forall i | 0 <= i < |w.sessions| && HAS_FAILED(w.sessions[i])
      ensures HAS_STARTED(w.sessions[i])
    {
      InvShape(w.sessions[i]);
    }
    CountMonotone(w.sessions, HAS_FAILED, HAS_STARTED);
    forall sid: nat | sid < |w.sessions| && Live(w.sessions[sid])
      ensures w.sessions[sid].job.agent in w.store.byAgent && w.sessions[sid].job.tenant in w.store.byTenant
    {
      CountPositive(w.sessions, LiveOfAgent(w.sessions[sid].job.agent), sid);
      CountPositive(w.sessions, LiveOfTenant(w.sessions[sid].job.tenant), sid);
    }
  }

  // ---- pool accounting ----

  /**
   In every run: an executor is tracked exactly while it is launched and not closed; its events
   are the exact sequence of its stage; the load numerator is created minus closed; and the
   supervisor has called back exactly once per maximal run of non-SUCCESS closures that
   reached the limit, each time with the limit.
   */
  lemma PoolAccounts(limit: nat, steps: seq<Step>)
    requires limit >= 1
    ensures var w := Run(limit, Fresh(), steps);
            && (forall sid: nat :: sid in w.pool.executors <==> sid < |w.sessions| && !w.sessions[sid].phase.Closed?)
            && (forall sid: nat :: sid < |w.sessions| ==> EventsOf(w.pool.events, sid) == EventsAt(w.sessions[sid]))
            && |w.pool.executors| + CountKind(w.pool.events, ProcessClosed) == CountKind(w.pool.events, Created)
            && w.pool.consecutive == TrailingFailures(w.pool.observed)
            && (w.pool.fired <==> w.pool.consecutive >= limit)
            && |w.pool.alarms| == RunsReaching(w.pool.observed, limit)
            && (forall n :: n in w.pool.alarms ==> n == limit)
  {
    EveryRunKeepsInv(limit, steps);
  }
}
