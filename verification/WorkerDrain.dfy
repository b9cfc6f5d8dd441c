/** Draining the worker: what it does not touch, and that it ends. */
module WorkerDrain {
  import opened Pool
  import opened SessionFacts
  import opened SessionTask
  import opened Worker
  import opened WorkerGauges
  import opened WorkerRuns
  import opened WorkerTheorems

  function Draining(w: WorkerState): WorkerState {
    w.(pool := w.pool.(draining := true))
  }

  /** The steps of a run, its launches left out. */
  function WithoutLaunches(steps: seq<Step>): seq<Step> {
    if steps == [] then []
    else
      var last := steps[|steps| - 1];
      WithoutLaunches(steps[..|steps| - 1]) + if last.Launch? then [] else [last]
  }

  /**
   A drain cancels nothing: whatever happens after it begins, every session, gauge, event and
   supervisor call is what it would have been without the drain, had nothing been launched.
   */
  lemma {:induction false} DrainCancelsNothing(limit: nat, w: WorkerState, steps: seq<Step>)
    ensures Run(limit, Draining(w), steps) == Draining(Run(limit, w, WithoutLaunches(steps)))
  {
    if steps != [] {
      var init, last := steps[..|steps| - 1], steps[|steps| - 1];
      DrainCancelsNothing(limit, w, init);
      if last.Launch? {
        assert WithoutLaunches(steps) == WithoutLaunches(init);
      } else {
        RunThen(limit, w, WithoutLaunches(init), last);
        hide Apply, Draining;
        DrainUnseen(limit, Run(limit, w, WithoutLaunches(init)), last);
      }
    }
  }

  lemma DrainUnseen(limit: nat, w: WorkerState, step: Step)
    requires !step.Launch?
    ensures Apply(limit, Draining(w), step) == Draining(Apply(limit, w, step))
  {
    hide Resume, Begin, ApplyEffects, RemoveFirst, CanResume, CanBegin, AfterCall;
  }

  lemma DrainingStep(limit: nat, w: WorkerState, step: Step)
    ensures Apply(limit, w, step).pool.draining <==> w.pool.draining || step.BeginDrain?
  {
    hide Resume, Begin, ApplyEffects, RemoveFirst, AfterCall, CanResume, CanBegin;
  }

  /** The flag is set exactly once a drain has begun; closing the pool does not set it. */
  lemma {:induction false} DrainingExact(limit: nat, steps: seq<Step>)
    ensures Run(limit, Fresh(), steps).pool.draining <==> BeginDrain in steps
  {
    if steps != [] {
      var init, last := steps[..|steps| - 1], steps[|steps| - 1];
      assert steps == init + [last];
      DrainingExact(limit, init);
      hide Apply;
      DrainingStep(limit, Run(limit, Fresh(), init), last);
    }
  }

  /** A pool started and closed again is not draining, and still refuses every launch. */
  lemma ClosedIsNotDraining(limit: nat, job: Job, refused: bool)
    ensures var w := Run(limit, Fresh(), [StartPool, ClosePool]);
            !w.pool.draining && !w.pool.started && !Enabled(w, Launch(job, refused))
  {
    var both := [StartPool, ClosePool];
    DrainingExact(limit, both);
    assert both[..1] == [StartPool] && [StartPool][..0] == [];
    RunNothing(limit, Fresh());
  }

  /** From then on nothing is launched and the tracked set only shrinks. */
  lemma {:induction false} DrainOnlyShrinks(limit: nat, w: WorkerState, steps: seq<Step>)
    requires limit >= 1 && w.pool.draining && NoDuplicates(w.pool.executors)
    ensures var w' := Run(limit, w, steps);
            && w'.pool.draining && |w'.sessions| == |w.sessions| && NoDuplicates(w'.pool.executors)
            && |w'.pool.executors| <= |w.pool.executors|
            && forall sid :: sid in w'.pool.executors ==> sid in w.pool.executors
  {
    if steps != [] {
      var init, last := steps[..|steps| - 1], steps[|steps| - 1];
      DrainOnlyShrinks(limit, w, init);
      var v := Run(limit, w, init);
      hide Resume, Begin, ApplyEffects, RemoveFirst;
      if last.DoneCallback? && last.sid in v.pool.executors {
        RemoveFirstExact(v.pool.executors, last.sid);
      }
    }
  }

  /** Task steps and done callbacks that are still possible, at most. */
  function Work(sessions: seq<Session>): nat {
    if sessions == [] then 0 else Work(sessions[..|sessions| - 1]) + Rank(sessions[|sessions| - 1])
  }

  lemma {:induction false} WorkUpdate(sessions: seq<Session>, i: nat, s: Session)
    requires i < |sessions|
    ensures Work(sessions[i := s]) + Rank(sessions[i]) == Work(sessions) + Rank(s)
  {
    hide Rank;
    var n := |sessions| - 1;
    if i == n {
      assert sessions[i := s][..n] == sessions[..n];
    } else {
      assert sessions[i := s][..n] == sessions[..n][i := s];
      WorkUpdate(sessions[..n], i, s);
    }
  }

  predicate IsTaskStep(step: Step) {
    step.BeginTask? || step.ResumeTask? || step.DoneCallback?
  }

  /** How many steps of the run moved a task or ran a done callback. */
  function TaskSteps(limit: nat, w: WorkerState, steps: seq<Step>): nat {
    if steps == [] then 0
    else
      var init, last := steps[..|steps| - 1], steps[|steps| - 1];
      TaskSteps(limit, w, init) + if IsTaskStep(last) && Enabled(Run(limit, w, init), last) then 1 else 0
  }

  lemma TaskStepDoesWork(limit: nat, w: WorkerState, step: Step)
    requires WorkerInv(limit, w) && IsTaskStep(step) && Enabled(w, step)
    ensures Work(Apply(limit, w, step).sessions) < Work(w.sessions)
  {
    hide GaugesExact, PoolExact, Inv, Resume, Begin, ApplyEffects, ExecutorDone, Work;
    var s := w.sessions[step.sid];
    match step
    case BeginTask(i, first) =>
      BeginLater(s, first);
      BeginRank(s, first);
      WorkUpdate(w.sessions, i, Begin(s, first));
    case ResumeTask(i, wake, primary, _) =>
      ResumeLater(s, wake, primary);
      ResumeRank(s, wake, primary);
      WorkUpdate(w.sessions, i, Resume(s, wake, primary));
    case DoneCallback(i) => WorkUpdate(w.sessions, i, s.(phase := Closed));
  }

  lemma CallKeepsRank(s: Session, step: Step)
    requires IsCall(step) && (step.AcloseReturn? ==> s.exec.acloses > 0)
    ensures Rank(AfterCall(s, step)) == Rank(s)
  {
    hide RankAt;
  }

  lemma OtherStepAddsNoWork(limit: nat, w: WorkerState, step: Step)
    requires w.pool.draining && !IsTaskStep(step)
    ensures Work(Apply(limit, w, step).sessions) == Work(w.sessions)
  {
    hide Work, Rank, AfterCall;
    if Enabled(w, step) && IsCall(step) {
      CallKeepsRank(w.sessions[step.sid], step);
      WorkUpdate(w.sessions, step.sid, AfterCall(w.sessions[step.sid], step));
    }
  }

  lemma StepDoesWork(limit: nat, w: WorkerState, step: Step)
    requires WorkerInv(limit, w) && w.pool.draining
    ensures Work(Apply(limit, w, step).sessions)
        + (if IsTaskStep(step) && Enabled(w, step) then 1 else 0) <= Work(w.sessions)
  {
    hide WorkerInv, Work;
    if IsTaskStep(step) {
      if Enabled(w, step) {
        TaskStepDoesWork(limit, w, step);
      }
    } else {
      OtherStepAddsNoWork(limit, w, step);
    }
  }

  /** A draining worker has a bounded number of task steps left, whatever else happens in between. */
  lemma {:induction false} DrainTerminates(limit: nat, w: WorkerState, steps: seq<Step>)
    requires limit >= 1 && WorkerInv(limit, w) && w.pool.draining
    ensures WorkerInv(limit, Run(limit, w, steps)) && Run(limit, w, steps).pool.draining
    ensures Work(Run(limit, w, steps).sessions) + TaskSteps(limit, w, steps) <= Work(w.sessions)
  {
    hide WorkerInv, Apply, Work, Enabled;
    if steps != [] {
      var init := steps[..|steps| - 1];
      DrainTerminates(limit, w, init);
      StepKeepsInv(limit, Run(limit, w, init), steps[|steps| - 1]);
      StepDoesWork(limit, Run(limit, w, init), steps[|steps| - 1]);
      DrainingStep(limit, Run(limit, w, init), steps[|steps| - 1]);
    }
  }

  lemma {:induction false} NoWorkIffAllClosed(sessions: seq<Session>)
    ensures Work(sessions) == 0 <==> forall i :: 0 <= i < |sessions| ==> sessions[i].phase.Closed?
  {
    if sessions != [] {
      var n := |sessions| - 1;
      NoWorkIffAllClosed(sessions[..n]);
      assert Rank(sessions[n]) == 0 <==> sessions[n].phase.Closed?;
      assert forall i :: 0 <= i < n ==> sessions[..n][i] == sessions[i];
    }
  }

  /** The drain loop's exit test is true exactly when no work is left. */
  lemma DrainLoopExit(limit: nat, w: WorkerState)
    requires WorkerInv(limit, w)
    ensures w.pool.executors == [] <==> Work(w.sessions) == 0
  {
    hide Inv, GaugesExact, SupervisorExact, EventsOf, CountKind;
    NoWorkIffAllClosed(w.sessions);
    if w.pool.executors == [] {
      assert forall sid: nat :: sid !in w.pool.executors;
    } else {
      assert w.pool.executors[0] in w.pool.executors;
    }
  }

  /** The step a tracked session is ready for, if its awaited call (or its caller's hang-up) comes back. */
  function ReadyStep(s: Session, sid: nat): Step {
    match s.phase
    case Scheduled => BeginTask(sid, if s.exec.cancels > 0 then NeverRuns else Routed)
    case Done => DoneCallback(sid)
    case HeldOpen => ResumeTask(sid, if s.exec.pending then Cancel else Ok, false, "")
    case _ => ResumeTask(sid, Ok, false, "")
  }

  /** A held call that nobody has hung up, and to which no cancellation is still to be delivered. */
  predicate Waiting(s: Session) {
    s.phase.HeldOpen? && !s.shutdown && !s.exec.pending
  }

  predicate StepOf(step: Step, sid: nat) {
    IsTaskStep(step) && step.sid == sid
  }

  /** A tracked session can take a step exactly when it is not such a call; and hanging up frees it. */
  lemma TrackedIsReady(limit: nat, w: WorkerState, sid: nat)
    requires WorkerInv(limit, w) && sid in w.pool.executors
    ensures sid < |w.sessions| == |Apply(limit, w, RequestShutdown(sid)).sessions|
    ensures Enabled(w, ReadyStep(w.sessions[sid], sid)) <==> !Waiting(w.sessions[sid])
    ensures var hungUp := Apply(limit, w, RequestShutdown(sid));
            Enabled(hungUp, ReadyStep(hungUp.sessions[sid], sid))
  {
    hide Inv, GaugesExact, SupervisorExact, EventsOf, CountKind;
  }

  /** No step of its own, of whatever kind. */
  lemma WaitingIsStuck(w: WorkerState, sid: nat, step: Step)
    requires sid < |w.sessions| && Waiting(w.sessions[sid]) && StepOf(step, sid)
    ensures !Enabled(w, step)
  {
  }

  /** Killing it, or closing its executor, ends the wait. */
  lemma CancelledIsNotWaiting(limit: nat, w: WorkerState, sid: nat)
    requires sid < |w.sessions| && w.sessions[sid].exec.task.InFlight?
    ensures !Waiting(Apply(limit, w, KillCall(sid)).sessions[sid])
    ensures !Waiting(Apply(limit, w, AcloseCall(sid)).sessions[sid])
  {
  }

  /** So it stays as it is, and tracked, until somebody hangs it up or cancels it, whatever else happens. */
  lemma {:induction false} WaitingStays(limit: nat, w: WorkerState, steps: seq<Step>, sid: nat)
    requires limit >= 1 && WorkerInv(limit, w) && sid < |w.sessions| && Waiting(w.sessions[sid])
    requires RequestShutdown(sid) !in steps && AcloseCall(sid) !in steps && KillCall(sid) !in steps
    ensures var after := Run(limit, w, steps);
            && WorkerInv(limit, after) && sid < |after.sessions| && after.sessions[sid] == w.sessions[sid]
            && sid in after.pool.executors
  {
    if steps == [] {
      NotClosedIsTracked(limit, w, sid);
    } else {
      var init, last := steps[..|steps| - 1], steps[|steps| - 1];
      assert steps == init + [last];
      WaitingStays(limit, w, init, sid);
      hide WorkerInv, Apply;
      StepKeepsInv(limit, Run(limit, w, init), last);
      WaitingStep(limit, Run(limit, w, init), last, sid);
      NotClosedIsTracked(limit, Run(limit, w, steps), sid);
    }
  }

  lemma NotClosedIsTracked(limit: nat, w: WorkerState, sid: nat)
    requires WorkerInv(limit, w) && sid < |w.sessions| && !w.sessions[sid].phase.Closed?
    ensures sid in w.pool.executors
  {
    hide SessionsInv, GaugesExact, SupervisorExact, EventsOf, CountKind;
  }

  lemma WaitingStep(limit: nat, w: WorkerState, step: Step, sid: nat)
    requires WorkerInv(limit, w) && sid < |w.sessions| && Waiting(w.sessions[sid])
    requires step != RequestShutdown(sid) && step != AcloseCall(sid) && step != KillCall(sid)
    ensures var after := Apply(limit, w, step);
            sid < |after.sessions| && after.sessions[sid] == w.sessions[sid]
  {
    SessionOfRun(limit, w, sid);
    HeldInFlight(w.sessions[sid]);
    if StepOf(step, sid) {
      WaitingIsStuck(w, sid, step);
    }
    hide WorkerInv, Inv;
    if !StepOf(step, sid) && step != AcloseReturn(sid) {
      OthersStay(limit, w, step, sid);
    }
  }

  /** A step of another session, or of none, leaves this one as it is. */
  lemma OthersStay(limit: nat, w: WorkerState, step: Step, sid: nat)
    requires sid < |w.sessions| && (IsTaskStep(step) || IsCall(step) ==> step.sid != sid)
    ensures var after := Apply(limit, w, step);
            sid < |after.sessions| && after.sessions[sid] == w.sessions[sid]
  {
    hide Resume, Begin, CanResume, CanBegin, ApplyEffects, ExecutorDone, Admit, AfterCall;
  }

  lemma HeldInFlight(s: Session)
    requires Inv(s) && s.phase.HeldOpen?
    ensures s.exec.task.InFlight?
  {
  }

  /** A cancellation that the connecting room swallows is spent: the call is held, cancelled, and waiting. */
  lemma SwallowedCancelWaits(limit: nat) returns (steps: seq<Step>)
    requires limit >= 1
    ensures var w := Run(limit, Fresh(), steps);
            |w.sessions| == 1 && Waiting(w.sessions[0]) && w.sessions[0].exec.cancels == 1
  {
    hide ApplyEffects, Run;
    var job := Job("a", "t", false, true, false, 0, NoFault, NoFault, 0, true, false);
    steps := [];
    var w := Fresh();
    RunNothing(limit, w);
    steps, w := Extend(limit, steps, w, StartPool);
    steps, w := Extend(limit, steps, w, Launch(job, false));
    steps, w := Extend(limit, steps, w, BeginTask(0, Routed));
    steps, w := Extend(limit, steps, w, AcloseCall(0));
    steps, w := Extend(limit, steps, w, ResumeTask(0, Ok, false, ""));
    steps, w := Extend(limit, steps, w, ResumeTask(0, Ok, true, ""));
  }

  // ---- the drain loop ----

  /** Rounds that hang up on the first tracked session, and run it. */
  function HangUp(limit: nat, w: WorkerState): seq<Step> {
    if w.pool.executors == [] || w.pool.executors[0] >= |w.sessions| then []
    else
      var sid := w.pool.executors[0];
      [RequestShutdown(sid), ReadyStep(Apply(limit, w, RequestShutdown(sid)).sessions[sid], sid)]
  }

  lemma HangUpProgresses(limit: nat, w: WorkerState)
    requires WorkerInv(limit, w) && w.pool.executors != []
    ensures TaskSteps(limit, w, HangUp(limit, w)) > 0
  {
    hide WorkerInv, Apply, Enabled, TaskSteps, ReadyStep;
    var sid := w.pool.executors[0];
    TrackedIsReady(limit, w, sid);
    var hungUp := Apply(limit, w, RequestShutdown(sid));
    ReadyIsTaskStep(hungUp.sessions[sid], sid);
    SecondStepCounts(limit, w, RequestShutdown(sid), ReadyStep(hungUp.sessions[sid], sid));
  }

  lemma ReadyIsTaskStep(s: Session, sid: nat)
    ensures IsTaskStep(ReadyStep(s, sid))
  {
  }

  lemma SecondStepCounts(limit: nat, w: WorkerState, first: Step, second: Step)
    requires IsTaskStep(second) && Enabled(Apply(limit, w, first), second)
    ensures TaskSteps(limit, w, [first, second]) > 0
  {
    hide Apply, Enabled;
    var both := [first, second];
    assert both[..1] == [first] && [first][..0] == [];
    RunThen(limit, w, [], first);
    assert [] + [first] == [first];
    RunNothing(limit, w);
  }

  /** What happens while the drain awaits its n-th `gather` of joins. */
  type Rounds = (nat, WorkerState) -> seq<Step>

  /**
   A `gather` of joins comes back when every task tracked at its start is over. A task runs its
   callbacks in the order they were added, and the pool added its own at launch, before any join
   began to wait: so by then the pool's callback has run for each of them.
   */
  ghost predicate Joined(limit: nat, w: WorkerState, round: seq<Step>) {
    var after := Run(limit, w, round);
    forall sid: nat :: sid in w.pool.executors && sid < |after.sessions| ==>
      TaskOver(after.sessions[sid]) && after.sessions[sid].phase.Closed?
  }

  ghost predicate Joins(limit: nat, rounds: Rounds) {
    forall n: nat, w: WorkerState :: WorkerInv(limit, w) && w.pool.draining ==> Joined(limit, w, rounds(n, w))
  }

  lemma RoundOver(limit: nat, w: WorkerState, round: seq<Step>)
    requires limit >= 1 && WorkerInv(limit, w) && w.pool.draining && Joined(limit, w, round)
    ensures var after := Run(limit, w, round);
            WorkerInv(limit, after) && after.pool.draining && after.pool.executors == []
  {
    hide Run, Inv, GaugesExact, SupervisorExact, EventsOf, CountKind, NoDuplicates;
    var after := Run(limit, w, round);
    assert NoDuplicates(w.pool.executors);
    DrainTerminates(limit, w, round);
    DrainOnlyShrinks(limit, w, round);
    forall sid: nat | sid < |after.sessions| ensures after.sessions[sid].phase.Closed? {
      assert sid in after.pool.executors ==> sid in w.pool.executors;
    }
    NoWorkIffAllClosed(after.sessions);
    DrainLoopExit(limit, after);
  }

  /**
   `CoroutinePool.drain`: whatever else happens, it is over after at most one round, with nothing
   tracked and every session ever launched closed.
   */
  method Drain(limit: nat, start: WorkerState, rounds: Rounds) returns (w: WorkerState, n: nat)
    requires limit >= 1 && WorkerInv(limit, start) && Joins(limit, rounds)
    ensures WorkerInv(limit, w) && w.pool.draining && w.pool.executors == []
    ensures n == if start.pool.executors == [] then 0 else 1
    ensures forall i :: 0 <= i < |w.sessions| ==> w.sessions[i].phase.Closed?
  {
    hide WorkerInv, Run, Work, Joined;
    FlagKeepsInv(limit, start, start.pool.started, true);
    w := start.(pool := start.pool.(draining := true));
    assert start.pool.(started := start.pool.started, draining := true) == w.pool;
    n := 0;
    while w.pool.executors != []
      invariant WorkerInv(limit, w) && w.pool.draining
      invariant n == 0 ==> w.pool.executors == start.pool.executors
      invariant n <= 1 && (n == 1 ==> start.pool.executors != [] && w.pool.executors == [])
      decreases 1 - n
    {
      RoundOver(limit, w, rounds(n, w));
      w := Run(limit, w, rounds(n, w));
      n := n + 1;
    }
    DrainLoopExit(limit, w);
    NoWorkIffAllClosed(w.sessions);
  }

  // ---- such rounds exist ----

  lemma {:induction false} RunConcat(limit: nat, w: WorkerState, a: seq<Step>, b: seq<Step>)
    ensures Run(limit, w, a + b) == Run(limit, Run(limit, w, a), b)
  {
    hide Apply;
    if b == [] {
      assert a + b == a;
    } else {
      var init := b[..|b| - 1];
      RunConcat(limit, w, a, init);
      assert (a + b)[..|a + b| - 1] == a + init;
    }
  }

  lemma HangUpDoesWork(limit: nat, w: WorkerState)
    requires limit >= 1 && WorkerInv(limit, w) && w.pool.draining && w.pool.executors != []
    ensures var after := Run(limit, w, HangUp(limit, w));
            WorkerInv(limit, after) && after.pool.draining && Work(after.sessions) < Work(w.sessions)
  {
    hide WorkerInv, Run, Work, TaskSteps, HangUp;
    HangUpProgresses(limit, w);
    DrainTerminates(limit, w, HangUp(limit, w));
  }

  /** Hang up on whoever is tracked, and run them, until nobody is. */
  ghost function HangUpAll(limit: nat, w: WorkerState): seq<Step>
    requires limit >= 1 && WorkerInv(limit, w) && w.pool.draining
    decreases Work(w.sessions)
  {
    if w.pool.executors == [] then []
    else
      HangUpDoesWork(limit, w);
      HangUp(limit, w) + HangUpAll(limit, Run(limit, w, HangUp(limit, w)))
  }

  lemma {:induction false} HangUpAllEmpties(limit: nat, w: WorkerState)
    requires limit >= 1 && WorkerInv(limit, w) && w.pool.draining
    ensures Run(limit, w, HangUpAll(limit, w)).pool.executors == []
    ensures WorkerInv(limit, Run(limit, w, HangUpAll(limit, w)))
    decreases Work(w.sessions)
  {
    hide WorkerInv, Run, Work, HangUp;
    if w.pool.executors == [] {
      RunNothing(limit, w);
    } else {
      HangUpDoesWork(limit, w);
      var after := Run(limit, w, HangUp(limit, w));
      HangUpAllEmpties(limit, after);
      RunConcat(limit, w, HangUp(limit, w), HangUpAll(limit, after));
    }
  }

  /** The rounds the drain quantifies over exist: one world hangs up on everybody. */
  lemma HangingUpJoins(limit: nat)
    requires limit >= 1
    ensures exists rounds: Rounds :: Joins(limit, rounds)
  {
    ghost var rounds: Rounds :=
      (n: nat, w: WorkerState) => if WorkerInv(limit, w) && w.pool.draining then HangUpAll(limit, w) else [];
    hide WorkerInv, Run, Work, HangUpAll;
    forall n: nat, w: WorkerState | WorkerInv(limit, w) && w.pool.draining ensures Joined(limit, w, rounds(n, w)) {
      HangUpAllEmpties(limit, w);
      EmptyIsJoined(limit, w, HangUpAll(limit, w));
    }
    assert Joins(limit, rounds);
  }

  lemma EmptyIsJoined(limit: nat, w: WorkerState, round: seq<Step>)
    requires WorkerInv(limit, Run(limit, w, round)) && Run(limit, w, round).pool.executors == []
    ensures Joined(limit, w, round)
  {
    hide Run, Inv, GaugesExact, SupervisorExact, EventsOf, CountKind, Work;
    var after := Run(limit, w, round);
    DrainLoopExit(limit, after);
    NoWorkIffAllClosed(after.sessions);
    forall sid: nat | sid < |after.sessions|
      ensures TaskOver(after.sessions[sid]) && after.sessions[sid].phase.Closed?
    {
      SessionOfRun(limit, after, sid);
      ClosedIsOver(after.sessions[sid]);
    }
  }

  lemma ClosedIsOver(s: Session)
    requires Inv(s) && s.phase.Closed?
    ensures TaskOver(s)
  {
  }
}
