/**
 Why a session ends as it does: the outcome it reports is exactly the way its `run_session` was
 left, what observers and teardown do to it is isolated, and what a caller's kill settles.
 */
module SessionOutcomes {
  import opened Basics
  import opened Executor
  import opened Pool
  import opened SessionFacts
  import opened SessionTask
  import opened Worker
  import opened WorkerRuns
  import opened WorkerTheorems

  /** Inside the `try` of `run_session`, at an await whose exceptions are not isolated. */
  predicate InTry(phase: Phase) {
    phase.Connecting? || phase.Starting? || phase.Greeting?
  }

  /** The start hook that is called next, if `wake` leads on to one. */
  function NextHook(s: Session, wake: Wake): int {
    match s.phase
    case Starting => if wake.Ok? then 0 else -1
    case StartNotify(k) => if wake.Cancel? && s.exec.cancels > 0 then -1 else k + 1
    case _ => -1
  }

  /** The call of that hook raises. */
  predicate HookFaults(s: Session, wake: Wake, cancels: bool) {
    && s.job.startFault.FaultAt? && s.job.startFault.cancels == cancels
    && 0 <= NextHook(s, wake) == s.job.startFault.k < s.job.observers
  }

  /** How this wake makes `run_session` end: with an exception, a cancellation, or well. */
  predicate LeavesHere(s: Session, wake: Wake, error: Error) {
    match error
    case Raised => (InTry(s.phase) && wake.Raise?) || HookFaults(s, wake, false)
    case Cancelled =>
      || (InTry(s.phase) && wake.Cancel?)
      || (s.phase.StartNotify? && wake.Cancel? && s.exec.cancels > 0)
      || HookFaults(s, wake, true)
    case NoError =>
      || (s.phase.Greeting? && wake.Ok?)
      || (NextHook(s, wake) == s.job.observers && !s.job.greets)
  }

  /** The session reports, or is to report, that its `run_session` ended this way. */
  predicate EndsAs(s: Session, error: Error) {
    s.finish == Some(error) || (s.finish.None? && s.log != [] && s.log[|s.log| - 1] == FinishRecorded(error))
  }

  lemma EndHookEnds(s: Session, error: Error)
    requires s.finish == Some(error)
    ensures forall e :: EndsAs(EnterEndHook(s), e) <==> e == error
    ensures FailureRecorded in EnterEndHook(s).log <==> FailureRecorded in s.log
  {
    EndHookRecords(s, error);
    hide EnterEndHook;
  }

  lemma EndHookRecords(s: Session, error: Error)
    requires s.finish == Some(error)
    ensures var t := EnterEndHook(s);
            if s.job.endHook then t.finish.None? && t.log == s.log + [FinishRecorded(error)]
            else t.finish == s.finish && t.log == s.log
  {
    hide Faults;
  }

  /** What has been reported, or put down for later, stays as it is. */
  ghost predicate Same(s: Session, t: Session) {
    && (forall e :: EndsAs(t, e) <==> EndsAs(s, e))
    && (FailureRecorded in t.log <==> FailureRecorded in s.log)
  }

  lemma SameRecords(s: Session, t: Session)
    requires t.finish == s.finish && t.log == s.log
    ensures Same(s, t)
  {
  }

  lemma SameThen(s: Session, t: Session, u: Session)
    requires Same(s, t) && Same(t, u)
    ensures Same(s, u)
  {
    hide EndsAs;
  }

  lemma EndHookSame(s: Session)
    requires s.finish.Some? || s.log == [] || s.log[|s.log| - 1].FinishRecorded?
    ensures Same(s, EnterEndHook(s))
  {
    if s.finish.Some? {
      EndHookEnds(s, s.finish.value);
    }
  }

  lemma TeardownSame(s: Session, k: nat)
    requires s.finish.Some? || (s.log != [] && s.log[|s.log| - 1].FinishRecorded?)
    ensures Same(s, NextTeardown(s, k))
  {
    hide EnterEndHook, Same;
    if k < s.job.teardownAwaits {
      SameRecords(s, NextTeardown(s, k));
    } else {
      var t := s.(tornDown := true, exec := Settle(s.exec, Success));
      SameRecords(s, t);
      EndHookSame(t);
      SameThen(s, t, EnterEndHook(t));
    }
  }

  lemma AfterSame(s: Session, error: Error)
    requires s.finish.Some? || (s.log != [] && s.log[|s.log| - 1].FinishRecorded?)
    ensures Same(s, AfterEntrypoint(s, error))
  {
    hide EnterEndHook, NextTeardown, Same;
    if error != NoError {
      var t := s.(exec := Settle(s.exec, Failed));
      SameRecords(s, t);
      EndHookSame(t);
      SameThen(s, t, EnterEndHook(t));
    } else {
      var r := s.(returned := true);
      var t := r.(exec := Settle(r.exec, Success));
      SameRecords(s, r);
      SameRecords(s, t);
      SameRecords(s, r.(phase := HeldOpen));
      EndHookSame(t);
      SameThen(s, t, EnterEndHook(t));
      TeardownSame(r, 0);
      SameThen(s, r, NextTeardown(r, 0));
    }
  }

  lemma InlineSame(s: Session, k: nat, error: Error)
    requires s.finish.None? && s.log != [] && s.log[|s.log| - 1].FinishRecorded?
    ensures Same(s, NextInlineObserver(s, k, error))
  {
    hide AfterEntrypoint, Same;
    AfterSame(s, error);
    AfterSame(s, ErrorOf(s.job.endFault));
    SameRecords(s, s.(phase := InlineEnd(k, error), endTold := k + 1));
  }

  /** `run_session` left with `error`: it is reported as such, and is a failure exactly when it is an exception. */
  lemma ExitEnds(s: Session, error: Error)
    requires s.log == [StartRecorded] && s.finish.None?
    ensures var t := ExitRun(s, error);
            (forall e :: EndsAs(t, e) <==> e == error) && (FailureRecorded in t.log <==> error.Raised?)
  {
    hide AfterEntrypoint, NextInlineObserver;
    var f := if error.Raised? then Note(s, FailureRecorded) else s;
    assert FailureRecorded in f.log <==> error.Raised?;
    if f.job.defers && Held(f) {
      AfterSame(f.(finish := Some(error)), error);
    } else {
      var n := Note(f, FinishRecorded(error));
      assert n.log[|n.log| - 1] == FinishRecorded(error);
      assert forall x :: x in n.log <==> x in f.log || x == FinishRecorded(error);
      InlineSame(n, 0, error);
    }
  }

  /** The start notifications from observer `k` on: still going, or left by a faulting call, or done and well. */
  lemma StartEnds(s: Session, k: nat)
    requires s.log == [StartRecorded] && s.finish.None? && k <= s.job.observers
    ensures var t, faults := NextStartObserver(s, k), k < s.job.observers && Faults(s.job.startFault, k);
            && (EndsAs(t, Raised) <==> faults && !s.job.startFault.cancels)
            && (EndsAs(t, Cancelled) <==> faults && s.job.startFault.cancels)
            && (EndsAs(t, NoError) <==> k == s.job.observers && !s.job.greets)
            && (FailureRecorded in t.log <==> faults && !s.job.startFault.cancels)
  {
    hide ExitRun;
    if k < s.job.observers {
      if Faults(s.job.startFault, k) {
        ExitEnds(s, ErrorOf(s.job.startFault));
      }
    } else if !s.job.greets {
      ExitEnds(s, NoError);
    }
  }

  lemma ConnectEnds(s: Session, wake: Wake, primary: bool, error: Error)
    requires s.log == [StartRecorded] && s.finish.None? && CanWake(s, wake) && s.phase.Connecting?
    ensures EndsAs(Continue(s, wake, primary), error) <==> LeavesHere(s, wake, error)
    ensures FailureRecorded in Continue(s, wake, primary).log <==> LeavesHere(s, wake, Raised)
  {
    hide ExitRun;
    if !wake.Ok? {
      ExitEnds(s, if wake.Cancel? then Cancelled else Raised);
    }
  }

  lemma StartSessionEnds(s: Session, wake: Wake, primary: bool, error: Error)
    requires s.log == [StartRecorded] && s.finish.None? && CanWake(s, wake) && s.phase.Starting?
    ensures EndsAs(Continue(s, wake, primary), error) <==> LeavesHere(s, wake, error)
    ensures FailureRecorded in Continue(s, wake, primary).log <==> LeavesHere(s, wake, Raised)
  {
    hide ExitRun, NextStartObserver, EndsAs;
    var t := s.(primary := primary);
    if wake.Ok? {
      StartEnds(t, 0);
    } else {
      ExitEnds(t, if wake.Cancel? then Cancelled else Raised);
    }
  }

  lemma NotifyEnds(s: Session, wake: Wake, primary: bool, error: Error)
    requires s.log == [StartRecorded] && s.finish.None? && CanWake(s, wake)
    requires s.phase.StartNotify? && s.phase.k < s.job.observers
    ensures EndsAs(Continue(s, wake, primary), error) <==> LeavesHere(s, wake, error)
    ensures FailureRecorded in Continue(s, wake, primary).log <==> LeavesHere(s, wake, Raised)
  {
    hide ExitRun, NextStartObserver, EndsAs;
    if wake.Cancel? && s.exec.cancels > 0 {
      ExitEnds(s, Cancelled);
    } else {
      StartEnds(s, s.phase.k + 1);
    }
  }

  lemma GreetEnds(s: Session, wake: Wake, primary: bool, error: Error)
    requires s.log == [StartRecorded] && s.finish.None? && CanWake(s, wake) && s.phase.Greeting?
    ensures EndsAs(Continue(s, wake, primary), error) <==> LeavesHere(s, wake, error)
    ensures FailureRecorded in Continue(s, wake, primary).log <==> LeavesHere(s, wake, Raised)
  {
    hide ExitRun, EndsAs;
    ExitEnds(s, if wake.Cancel? then Cancelled else if wake.Raise? then Raised else NoError);
  }

  lemma TryStepEnds(s: Session, wake: Wake, primary: bool, error: Error)
    requires Inv(s) && CanWake(s, wake) && (InTry(s.phase) || s.phase.StartNotify?)
    ensures EndsAs(Continue(s, wake, primary), error) <==> LeavesHere(s, wake, error)
    ensures FailureRecorded in Continue(s, wake, primary).log <==> LeavesHere(s, wake, Raised)
  {
    InTryLog(s);
    hide Continue, CanWake, EndsAs, LeavesHere, Inv;
    match s.phase
    case Connecting => ConnectEnds(s, wake, primary, error);
    case Starting => StartSessionEnds(s, wake, primary, error);
    case StartNotify(_) => NotifyEnds(s, wake, primary, error);
    case _ => GreetEnds(s, wake, primary, error);
  }

  lemma InTryLog(s: Session)
    requires Inv(s) && (InTry(s.phase) || s.phase.StartNotify?)
    ensures s.log == [StartRecorded] && s.finish.None?
    ensures s.phase.StartNotify? ==> s.phase.k < s.job.observers
  {
  }

  lemma PastTry(s: Session)
    requires Inv(s) && (s.phase.InlineEnd? || s.phase.HeldOpen? || s.phase.Teardown? || s.phase.EndNotify?)
    ensures s.log != []
    ensures s.phase.InlineEnd? || s.phase.EndNotify? ==> s.finish.None? && s.log[|s.log| - 1].FinishRecorded?
    ensures s.finish.Some? || s.log[|s.log| - 1].FinishRecorded?
  {
  }

  lemma InlineStepSame(s: Session, wake: Wake, primary: bool)
    requires s.phase.InlineEnd? && CanWake(s, wake)
    requires s.finish.None? && s.log != [] && s.log[|s.log| - 1].FinishRecorded?
    ensures Same(s, Continue(s, wake, primary))
  {
    hide AfterEntrypoint, NextInlineObserver, Same;
    if Propagates(s, wake) {
      AfterSame(s, Cancelled);
    } else {
      InlineSame(s, s.phase.k + 1, s.phase.error);
    }
  }

  lemma HeldStepSame(s: Session, wake: Wake, primary: bool)
    requires s.phase.HeldOpen? && CanWake(s, wake)
    requires s.finish.Some? || (s.log != [] && s.log[|s.log| - 1].FinishRecorded?)
    ensures Same(s, Continue(s, wake, primary))
  {
    hide EnterEndHook, NextTeardown, Same;
    if wake.Ok? {
      TeardownSame(s, 0);
    } else {
      var t := s.(exec := Settle(s.exec, Failed));
      SameRecords(s, t);
      EndHookSame(t);
      SameThen(s, t, EnterEndHook(t));
    }
  }

  lemma TeardownStepSame(s: Session, wake: Wake, primary: bool)
    requires s.phase.Teardown? && CanWake(s, wake)
    requires s.finish.Some? || (s.log != [] && s.log[|s.log| - 1].FinishRecorded?)
    ensures Same(s, Continue(s, wake, primary))
  {
    hide EnterEndHook, NextTeardown, Same;
    if wake.Cancel? {
      EndHookSame(s);
    } else {
      TeardownSame(s, s.phase.k + 1);
    }
  }

  lemma EndStepSame(s: Session, wake: Wake, primary: bool)
    requires s.phase.EndNotify? && CanWake(s, wake)
    ensures Same(s, Continue(s, wake, primary))
  {
    hide Same, Faults;
    SameRecords(s, Continue(s, wake, primary));
  }

  lemma LateStepSame(s: Session, wake: Wake, primary: bool)
    requires Inv(s) && CanWake(s, wake)
    requires s.phase.InlineEnd? || s.phase.HeldOpen? || s.phase.Teardown? || s.phase.EndNotify?
    ensures Same(s, Continue(s, wake, primary))
  {
    PastTry(s);
    hide Continue, CanWake, Same, Inv;
    match s.phase
    case InlineEnd(_, _) => InlineStepSame(s, wake, primary);
    case HeldOpen => HeldStepSame(s, wake, primary);
    case Teardown(_) => TeardownStepSame(s, wake, primary);
    case _ => EndStepSame(s, wake, primary);
  }

  /**
   One step: the session comes to report an outcome exactly when the step leaves `run_session`
   that way, and a failure is recorded exactly when it is left with an exception.
   */
  lemma StepReports(s: Session, wake: Wake, primary: bool, error: Error)
    requires Inv(s) && CanResume(s, wake)
    ensures var t := Resume(s, wake, primary);
            && (EndsAs(t, error) <==> EndsAs(s, error) || LeavesHere(s, wake, error))
            && (FailureRecorded in t.log <==> FailureRecorded in s.log || LeavesHere(s, wake, Raised))
  {
    hide Continue, Inv, CanWake;
    DeliveredWakes(s, wake);
    DeliveredKeepsInv(s);
    var d := Delivered(s);
    if InTry(s.phase) || s.phase.StartNotify? {
      TryStepEnds(d, wake, primary, error);
      InTryLog(s);
    } else {
      ResumableLate(s, wake);
      LateStepSame(d, wake, primary);
    }
  }

  lemma ResumableLate(s: Session, wake: Wake)
    requires CanWake(s, wake) && !InTry(s.phase) && !s.phase.StartNotify?
    ensures s.phase.InlineEnd? || s.phase.HeldOpen? || s.phase.Teardown? || s.phase.EndNotify?
  {
  }

  // ---- over runs ----

  /** Some step of the run left this session's `run_session` with `error`. */
  predicate Left(limit: nat, steps: seq<Step>, sid: nat, error: Error) {
    steps != []
    && var init, last := steps[..|steps| - 1], steps[|steps| - 1];
       var w := Run(limit, Fresh(), init);
       || Left(limit, init, sid, error)
       || (last.ResumeTask? && last.sid == sid && Enabled(w, last) && LeavesHere(w.sessions[sid], last.wake, error))
  }

  lemma NoStepReports(limit: nat, w: WorkerState, step: Step, sid: nat)
    requires WorkerInv(limit, w) && sid < |w.sessions| && !(step.ResumeTask? && step.sid == sid)
    ensures var t := Apply(limit, w, step);
            sid < |t.sessions| && Same(w.sessions[sid], t.sessions[sid])
  {
    SessionOfRun(limit, w, sid);
    if step.BeginTask? && step.sid == sid {
      hide WorkerInv, Inv, Begin, ApplyEffects, Same;
      if Enabled(w, step) {
        BeginReportsNothing(w.sessions[sid], step.first);
      } else {
        SameRecords(w.sessions[sid], w.sessions[sid]);
      }
    } else {
      hide WorkerInv, Inv, Same, Apply;
      UnmovedRecords(limit, w, step, sid);
      SameRecords(w.sessions[sid], Apply(limit, w, step).sessions[sid]);
    }
  }

  lemma UnmovedRecords(limit: nat, w: WorkerState, step: Step, sid: nat)
    requires sid < |w.sessions| && !((step.ResumeTask? || step.BeginTask?) && step.sid == sid)
    ensures var t := Apply(limit, w, step);
            && sid < |t.sessions|
            && t.sessions[sid].finish == w.sessions[sid].finish && t.sessions[sid].log == w.sessions[sid].log
  {
    hide Resume, Begin, CanResume, CanBegin, ApplyEffects, ExecutorDone, Admit, AfterCall;
    if IsCall(step) && Enabled(w, step) {
      CallRecordsNothing(w.sessions[step.sid], step);
    }
  }

  lemma CallRecordsNothing(s: Session, step: Step)
    requires IsCall(step) && (step.AcloseReturn? ==> s.exec.acloses > 0)
    ensures AfterCall(s, step).finish == s.finish && AfterCall(s, step).log == s.log
  {
    hide Kill, AcloseBegin, AcloseEnd;
    match step
    case RequestShutdown(_) =>
    case AcloseCall(_) =>
    case AcloseReturn(_) =>
    case _ =>
  }

  lemma BeginReportsNothing(s: Session, first: First)
    requires Inv(s) && CanBegin(s, first)
    ensures Same(s, Begin(s, first))
  {
    ScheduledLog(s);
    hide Inv, EnterEndHook;
    if first.BuildRaises? {
      EndHookSame(s.(exec := Settle(s.exec, Failed)));
    }
  }

  lemma ScheduledLog(s: Session)
    requires Inv(s) && s.phase.Scheduled?
    ensures s.log == [] && s.finish.None?
  {
  }

  lemma RunStepReports(limit: nat, w: WorkerState, step: Step, sid: nat, error: Error)
    requires WorkerInv(limit, w) && sid < |w.sessions|
    ensures var t := Apply(limit, w, step);
            var leaves := step.ResumeTask? && step.sid == sid && Enabled(w, step);
            && sid < |t.sessions|
            && (EndsAs(t.sessions[sid], error)
                <==> EndsAs(w.sessions[sid], error) || (leaves && LeavesHere(w.sessions[sid], step.wake, error)))
            && (FailureRecorded in t.sessions[sid].log
                <==>
                FailureRecorded in w.sessions[sid].log || (leaves && LeavesHere(w.sessions[sid], step.wake, Raised)))
  {
    if step.ResumeTask? && step.sid == sid {
      if Enabled(w, step) {
        SessionOfRun(limit, w, sid);
        StepReports(w.sessions[sid], step.wake, step.primary, error);
        ResumeLater(w.sessions[sid], step.wake, step.primary);
      }
      hide WorkerInv, Inv, Resume, ApplyEffects, CanResume, LeavesHere, EndsAs;
    } else {
      hide Apply, WorkerInv;
      NoStepReports(limit, w, step, sid);
    }
  }

  /**
   Over every run a session reports, or is to report, an outcome if and only if its `run_session`
   was left that way: with an exception that an await inside the `try` or the call of a start hook
   raised, cancelled at such an await or in a notification while its task was being cancelled, or
   well. A failure is recorded if and only if it was left with an exception.
   */
  lemma {:induction false} OutcomeExact(limit: nat, steps: seq<Step>, sid: nat, error: Error)
    requires limit >= 1 && sid < |Run(limit, Fresh(), steps).sessions|
    ensures var s := Run(limit, Fresh(), steps).sessions[sid];
            && (EndsAs(s, error) <==> Left(limit, steps, sid, error))
            && (FailureRecorded in s.log <==> Left(limit, steps, sid, Raised))
  {
    if steps != [] {
      hide Apply, WorkerInv, EndsAs, LeavesHere;
      var init, last := steps[..|steps| - 1], steps[|steps| - 1];
      var w := Run(limit, Fresh(), init);
      EveryRunKeepsInv(limit, init);
      if sid < |w.sessions| {
        OutcomeExact(limit, init, sid, error);
        RunStepReports(limit, w, last, sid, error);
        RunStepReports(limit, w, last, sid, Raised);
      } else {
        NotYet(limit, init, sid, error);
        NotYet(limit, init, sid, Raised);
        JustLaunched(limit, w, last, sid, error);
      }
    }
  }

  lemma {:induction false} NotYet(limit: nat, steps: seq<Step>, sid: nat, error: Error)
    requires sid >= |Run(limit, Fresh(), steps).sessions|
    ensures !Left(limit, steps, sid, error)
  {
    if steps != [] {
      hide Apply, LeavesHere;
      var init, last := steps[..|steps| - 1], steps[|steps| - 1];
      SessionsStay(limit, Run(limit, Fresh(), init), last);
      NotYet(limit, init, sid, error);
    }
  }

  lemma SessionsStay(limit: nat, w: WorkerState, step: Step)
    ensures |Apply(limit, w, step).sessions| >= |w.sessions|
  {
    hide Resume, Begin, ApplyEffects, ExecutorDone, Admit, AfterCall;
  }

  lemma JustLaunched(limit: nat, w: WorkerState, step: Step, sid: nat, error: Error)
    requires |w.sessions| <= sid < |Apply(limit, w, step).sessions|
    ensures !EndsAs(Apply(limit, w, step).sessions[sid], error)
    ensures FailureRecorded !in Apply(limit, w, step).sessions[sid].log
    ensures !step.ResumeTask?
  {
    hide Resume, Begin, ApplyEffects, ExecutorDone, Admit, AfterCall;
  }

  // ---- isolation ----

  predicate Notifying(phase: Phase) {
    phase.StartNotify? || phase.InlineEnd? || phase.EndNotify?
  }

  /** What an awaited observer hook or teardown call raises makes no difference; nor does a hook's own cancellation. */
  lemma FaultsAreIsolated(s: Session, primary: bool)
    requires Notifying(s.phase) || s.phase.Teardown?
    ensures Continue(s, Raise, primary) == Continue(s, Ok, primary)
    ensures Notifying(s.phase) && s.exec.cancels == 0 ==> Continue(s, Cancel, primary) == Continue(s, Ok, primary)
  {
    hide ExitRun, NextStartObserver, NextInlineObserver, NextTeardown, EnterEndHook, AfterEntrypoint, NextEndObserver;
  }

  /** A genuine cancellation leaves an end notification; a timeout of the end hook, or one inside it, ends the task. */
  lemma CancellationLeaves(s: Session, wake: Wake, primary: bool)
    requires Inv(s) && CanWake(s, wake) && (wake.Timeout? || (wake.Cancel? && s.exec.cancels > 0))
    requires s.phase.EndNotify? || (s.phase.InlineEnd? && wake.Cancel?)
    ensures var t := Continue(s, wake, primary);
            && t.endTold == s.endTold && t.phase.Done?
            && (s.phase.InlineEnd? ==> !t.returned && !t.exec.status.Running?)
            && (s.phase.EndNotify? ==> (t.cutShort <==> wake.Timeout?))
  {
    InEndPhase(s);
    hide Inv;
  }

  /**
   A held call cancelled before its teardown began is FAILED, unless it was settled already; one
   cancelled within its teardown keeps the status it had. Neither counts as torn down.
   */
  lemma CancelledHold(s: Session, primary: bool)
    requires Inv(s) && (s.phase.HeldOpen? || s.phase.Teardown?)
    ensures var t, was := Continue(s, Cancel, primary), s.exec.status;
            && (t.phase.EndNotify? || t.phase.Done?) && !t.tornDown
            && t.exec.status == if s.phase.HeldOpen? && was.Running? then Failed else was
  {
    HeldStatus(s);
    hide Inv, NextEndObserver;
    EndHookWaits(s);
    EndHookWaits(s.(exec := Settle(s.exec, Failed)));
    hide EnterEndHook;
  }

  lemma HeldStatus(s: Session)
    requires Inv(s) && (s.phase.HeldOpen? || s.phase.Teardown?)
    ensures !s.tornDown
  {
  }

  lemma InEndPhase(s: Session)
    requires Inv(s) && (s.phase.InlineEnd? || s.phase.EndNotify?)
    ensures s.finish.None? && !s.cutShort && (s.phase.InlineEnd? ==> !s.returned)
  {
  }

  /** A session whose build fails is FAILED at once; one whose setup fails, or that never runs, is left as it is. */
  lemma BuildFailureFails(s: Session, first: First)
    requires Inv(s) && CanBegin(s, first) && !first.Routed?
    ensures var t := Begin(s, first);
            && t.phase.Done? && (first.BuildRaises? ==> t.exec.status.Failed?)
            && (!first.BuildRaises? ==> t.exec.status == s.exec.status)
  {
    ScheduledLog(s);
    ScheduledStatus(s);
    hide Inv;
  }

  lemma ScheduledStatus(s: Session)
    requires Inv(s) && s.phase.Scheduled?
    ensures !s.exec.status.Success?
  {
  }

  /**
   A call with a primary session that is not fake, and only such a call, is held open after
   `run_session`; its end, where the context can carry it, is left for later, and any other end is
   reported at once.
   */
  lemma HeldCallsWait(s: Session)
    requires s.log == [StartRecorded] && s.finish.None? && !s.tornDown
    ensures var t, held := ExitRun(s, NoError), s.primary && !s.job.fake;
            && (s.job.defers && held && !s.shutdown
                ==> t == s.(finish := Some(NoError), returned := true, phase := HeldOpen))
            && (!(s.job.defers && held) ==> t.finish.None? && t.log == [StartRecorded, FinishRecorded(NoError)])
            && (t.phase.HeldOpen? || t.phase.Teardown? || t.tornDown ==> held)
  {
    hide NextTeardown;
    if !(s.job.defers && Held(s)) {
      InlineWaits(Note(s, FinishRecorded(NoError)));
    } else {
      AfterWaits(s.(finish := Some(NoError)), NoError);
    }
    hide AfterEntrypoint, NextInlineObserver;
  }

  lemma InlineWaits(s: Session)
    requires s.finish.None? && !s.tornDown
    ensures var t := NextInlineObserver(s, 0, NoError);
            && t.finish.None? && t.log == s.log
            && (t.phase.HeldOpen? || t.phase.Teardown? || t.tornDown ==> s.primary && !s.job.fake)
  {
    hide AfterEntrypoint;
    AfterWaits(s, NoError);
    AfterWaits(s, ErrorOf(s.job.endFault));
  }

  lemma AfterWaits(s: Session, error: Error)
    requires !s.tornDown
    ensures var t := AfterEntrypoint(s, error);
            && (s.finish.None? ==> t.finish.None? && t.log == s.log)
            && (t.phase.HeldOpen? || t.phase.Teardown? || t.tornDown ==> s.primary && !s.job.fake)
  {
    hide EnterEndHook, NextTeardown;
    var r := s.(returned := true);
    EndHookWaits(s.(exec := Settle(s.exec, Failed)));
    EndHookWaits(r.(exec := Settle(r.exec, Success)));
    if s.finish.None? {
      TeardownWaits(r);
    }
  }

  lemma EndHookWaits(s: Session)
    ensures var t := EnterEndHook(s);
            && (s.finish.None? ==> t.finish.None? && t.log == s.log)
            && (t.phase.EndNotify? || t.phase.Done?) && t.tornDown == s.tornDown && t.exec.status == s.exec.status
  {
    hide NextEndObserver;
    if s.finish.Some? {
      NotifyWaits(Note(s.(finish := None), FinishRecorded(s.finish.value)), 0);
    }
  }

  lemma NotifyWaits(s: Session, k: nat)
    ensures var t := NextEndObserver(s, k);
            (t.phase.EndNotify? || t.phase.Done?) && t.tornDown == s.tornDown && t.exec.status == s.exec.status
  {
    hide Faults;
  }

  lemma TeardownWaits(s: Session)
    requires s.finish.None?
    ensures NextTeardown(s, 0).finish.None? && NextTeardown(s, 0).log == s.log
  {
    hide EnterEndHook;
    EndHookWaits(s.(tornDown := true, exec := Settle(s.exec, Success)));
  }

  // ---- kill and aclose ----

  /** A kill in flight is counted and delivered next, and settles a running status to FAILED for good. */
  lemma KillSettles(limit: nat, w: WorkerState, sid: nat, after: seq<Step>)
    requires sid < |w.sessions| && w.sessions[sid].exec.task.InFlight?
    ensures var killed := Apply(limit, w, KillCall(sid));
            var was, now := w.sessions[sid].exec, killed.sessions[sid].exec;
            && now.cancels == was.cancels + 1 && now.pending && !now.status.Running? && !now.started
            && now.task == was.task && now.acloses == was.acloses
            && (!was.status.Running? ==> now.status == was.status)
            && sid < |Run(limit, killed, after).sessions|
            && (was.status.Running? ==> Run(limit, killed, after).sessions[sid].exec.status == Failed)
  {
    hide Run;
    RunOnlyAdds(limit, Apply(limit, w, KillCall(sid)), after, sid);
  }

  /** An `aclose` in flight is counted and delivered next, and waits; only its return settles a status still running. */
  lemma AcloseCancels(limit: nat, w: WorkerState, sid: nat)
    requires sid < |w.sessions| && w.sessions[sid].exec.task.InFlight?
    ensures var was, now := w.sessions[sid].exec, Apply(limit, w, AcloseCall(sid)).sessions[sid].exec;
            && now.cancels == was.cancels + 1 && now.pending && now.acloses == was.acloses + 1
            && now.status == was.status && now.task == was.task && now.started == was.started
  {
  }

  lemma AcloseSettles(limit: nat, w: WorkerState, sid: nat, after: seq<Step>)
    requires Enabled(w, AcloseReturn(sid))
    ensures var back := Apply(limit, w, AcloseReturn(sid));
            var was, now := w.sessions[sid].exec, back.sessions[sid].exec;
            && !now.status.Running? && !now.started && now.acloses == was.acloses - 1
            && now.cancels == was.cancels && now.task == was.task
            && (!was.status.Running? ==> now.status == was.status)
            && sid < |Run(limit, back, after).sessions|
            && (was.status.Running? ==> Run(limit, back, after).sessions[sid].exec.status == Failed)
  {
    hide Run;
    RunOnlyAdds(limit, Apply(limit, w, AcloseReturn(sid)), after, sid);
  }

  /** On an executor with nothing in flight both only clear `started`. */
  lemma NothingInFlight(limit: nat, w: WorkerState, sid: nat)
    requires sid < |w.sessions| && !w.sessions[sid].exec.task.InFlight?
    ensures var s := w.sessions[sid];
            var stopped := w.(sessions := w.sessions[sid := s.(exec := s.exec.(started := false))]);
            Apply(limit, w, KillCall(sid)) == Apply(limit, w, AcloseCall(sid)) == stopped
  {
  }
}
