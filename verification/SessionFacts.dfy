/** Proofs about one session's task: its invariant, what it never takes back, and its end. */
module SessionFacts {
  import opened Basics
  import opened Executor
  import opened SessionTask

  ghost predicate Sane(s: Session) {
    !s.cutShort && s.startTold <= StartReach(s.job) && s.endTold <= EndReach(s.job) && (s.killed ==> s.exec.cancels > 0)
  }

  /** How `run_session` was left, seen from the executor. */
  ghost predicate LeftRun(s: Session, error: Error) {
    !s.returned && (s.exec.cancels == 0 && WentWell(s) ==> (error.NoError? <==> Returns(s)))
  }

  /**
   Where it is suspended, how many were told of the end, and the task handle are no part of what
   was reported or earned.
   */
  ghost predicate SameRecord(s: Session, t: Session) {
    && t == s.(phase := t.phase, endTold := t.endTold, exec := t.exec)
    && t.exec.status == s.exec.status && t.exec.cancels == s.exec.cancels
  }

  lemma SameRecordFacts(s: Session, t: Session)
    requires SameRecord(s, t)
    ensures (SuccessEarned(t) <==> SuccessEarned(s)) && (Settled(t) <==> Settled(s)) && (Reported(t) <==> Reported(s))
  {
    hide Open, Complete;
  }

  lemma EndObserverKeepsInv(s: Session, k: nat)
    requires s.exec.task.InFlight? && SuccessEarned(s) && Settled(s) && Sane(s)
    requires Reported(s) && s.endTold == k <= EndReach(s.job) && s.job.endHook
    ensures Inv(NextEndObserver(s, k))
  {
    if k < s.job.observers && !Faults(s.job.endFault, k) {
      var t := s.(phase := EndNotify(k), endTold := k + 1);
      SameRecordFacts(s, t);
      hide PastRun, Deferred, InRun, Open, Complete, SuccessEarned, Settled, Reported;
      assert Inv(t);
    } else {
      EndLoopOver(s);
    }
  }

  lemma EndLoopOver(s: Session)
    requires s.exec.task.InFlight? && SuccessEarned(s) && Settled(s) && Sane(s)
    requires Reported(s) && s.endTold == EndReach(s.job) && s.job.endHook
    ensures Inv(Finish(s))
  {
    SameRecordFacts(s, Finish(s));
    hide PastRun, Deferred, InRun, Open, Complete, SuccessEarned, Settled, Reported;
  }

  /** Firing the deferred end turns "to be reported as a success" into "reported as a success". */
  lemma FiringDeferred(s: Session, error: Error)
    requires Deferred(s, error)
    ensures s.log != [] && (WentWell(s) <==> error.NoError?)
    ensures var t := Note(s.(finish := None), FinishRecorded(error));
            (WentWell(t) <==> error.NoError?) && Reported(t)
  {
    var t := Note(s.(finish := None), FinishRecorded(error));
    assert t.log[|t.log| - 1] == FinishRecorded(error) && t.log == Complete(error);
    assert Complete(NoError)[1] == FinishRecorded(NoError) && s.log[0] == StartRecorded;
    assert |s.log| > 1 ==> s.log[1] == FailureRecorded;
    assert |Complete(NoError)| == 2;
  }

  lemma EndHookKeepsInv(s: Session)
    requires s.exec.task.InFlight? && SuccessEarned(s) && Settled(s) && Sane(s)
    requires || (s.log == [] && s.finish.None? && s.endTold == 0 && !s.exec.status.Success?)
             || (Reported(s) && ToldAll(s) && !(s.job.defers && Held(s)))
             || (s.finish.Some? && Deferred(s, s.finish.value))
    ensures Inv(EnterEndHook(s))
  {
    hide NextEndObserver, Open, Complete;
    if s.job.endHook && s.finish.Some? {
      var t := Note(s.(finish := None), FinishRecorded(s.finish.value));
      FiringDeferred(s, s.finish.value);
      hide WentWell, Reported;
      EndObserverKeepsInv(t, 0);
    } else {
      SameRecordFacts(s, Finish(s));
      hide SuccessEarned, Settled, Reported;
    }
  }

  lemma TeardownKeepsInv(s: Session, k: nat)
    requires s.exec.task.InFlight? && Sane(s) && Unsettled(s)
    requires PastRun(s) && Held(s) && s.returned && s.shutdown
    ensures Inv(NextTeardown(s, k))
  {
    hide EnterEndHook;
    if k >= s.job.teardownAwaits {
      EndHookKeepsInv(s.(tornDown := true, exec := Settle(s.exec, Success)));
    }
  }

  lemma AfterEntrypointKeepsInv(s: Session, error: Error)
    requires s.exec.task.InFlight? && Sane(s) && Unsettled(s) && LeftRun(s, error)
    requires || Deferred(s, error)
             || (!(s.job.defers && Held(s)) && Reported(s) && ToldAll(s) && (error.NoError? ==> RecordedInline(s)))
             || (s.log == [] && s.finish.None? && s.endTold == 0 && error.Raised?)
    ensures Inv(AfterEntrypoint(s, error))
  {
    hide EnterEndHook, NextTeardown;
    if error != NoError {
      EndHookKeepsInv(s.(exec := Settle(s.exec, Failed)));
    } else {
      var r := s.(returned := true);
      if !Held(r) {
        EndHookKeepsInv(r.(exec := Settle(r.exec, Success)));
      } else if r.shutdown {
        TeardownKeepsInv(r, 0);
      }
    }
  }

  lemma RecordedWell(s: Session, error: Error)
    requires s.log == Complete(error)
    ensures WentWell(s) <==> error.NoError?
    ensures s.log != [] && s.log[|s.log| - 1] == FinishRecorded(error)
  {
    assert Complete(NoError)[1] == FinishRecorded(NoError) && |Complete(NoError)| == 2 && |Open(NoError)| == 1;
    assert |s.log| == 2 || s.log[1] == FailureRecorded;
  }

  lemma InlineKeepsInv(s: Session, k: nat, error: Error)
    requires s.exec.task.InFlight? && Sane(s) && Unsettled(s) && !s.returned
    requires s.endTold == k <= EndReach(s.job)
    requires s.log == Complete(error) && s.finish.None? && !(s.job.defers && Held(s)) && StartTold(s, error)
    ensures Inv(NextInlineObserver(s, k, error))
  {
    hide AfterEntrypoint, Open, Complete, WentWell;
    RecordedWell(s, error);
    if k >= s.job.observers {
      AfterEntrypointKeepsInv(s, error);
    } else if Faults(s.job.endFault, k) {
      AfterEntrypointKeepsInv(s, ErrorOf(s.job.endFault));
    }
  }

  lemma ExitRunKeepsInv(s: Session, error: Error)
    requires s.exec.task.InFlight? && Sane(s) && InRun(s) && StartTold(s, error)
    ensures Inv(ExitRun(s, error))
  {
    hide AfterEntrypoint, NextInlineObserver;
    var f := if error.Raised? then Note(s, FailureRecorded) else s;
    assert f.log == Open(error);
    if f.job.defers && Held(f) {
      FiringDeferred(f.(finish := Some(error)), error);
      AfterEntrypointKeepsInv(f.(finish := Some(error)), error);
    } else {
      InlineKeepsInv(Note(f, FinishRecorded(error)), 0, error);
    }
  }

  lemma StartObserverKeepsInv(s: Session, k: nat)
    requires s.exec.task.InFlight? && Sane(s) && InRun(s) && s.startTold == k
    ensures Inv(NextStartObserver(s, k))
  {
    hide ExitRun;
    if k < s.job.observers {
      if Faults(s.job.startFault, k) {
        ExitRunKeepsInv(s, ErrorOf(s.job.startFault));
      }
    } else if !s.job.greets {
      ExitRunKeepsInv(s, NoError);
    }
  }

  lemma LaunchKeepsSessionInv(job: Job)
    ensures Inv(Launched(job)) && Inv(RefusedLaunch(job))
  {
  }

  lemma BeginKeepsInv(s: Session, first: First)
    requires Inv(s) && CanBegin(s, first)
    ensures Inv(Begin(s, first))
  {
    hide AfterEntrypoint;
    if first.BuildRaises? {
      AfterEntrypointKeepsInv(s, Raised);
    }
  }

  lemma ContinueEarlyKeepsInv(s: Session, wake: Wake, primary: bool)
    requires Inv(s) && CanWake(s, wake)
        && (s.phase.Connecting? || s.phase.Starting? || s.phase.Greeting? || s.phase.StartNotify?)
    ensures Inv(Continue(s, wake, primary))
  {
    hide ExitRun, NextStartObserver, NextInlineObserver, NextTeardown, EnterEndHook, AfterEntrypoint, NextEndObserver;
    match s.phase
    case Connecting =>
      if !wake.Ok? { ExitRunKeepsInv(s, AsError(wake)); }
    case Starting =>
      var t := s.(primary := primary);
      if wake.Ok? { StartObserverKeepsInv(t, 0); } else { ExitRunKeepsInv(t, AsError(wake)); }
    case StartNotify(k) =>
      if Propagates(s, wake) { ExitRunKeepsInv(s, Cancelled); } else { StartObserverKeepsInv(s, k + 1); }
    case _ => ExitRunKeepsInv(s, AsError(wake));
  }

  lemma ContinueInlineKeepsInv(s: Session, wake: Wake, primary: bool)
    requires Inv(s) && CanWake(s, wake) && s.phase.InlineEnd?
    ensures Inv(Continue(s, wake, primary))
  {
    hide ExitRun, NextStartObserver, NextInlineObserver, NextTeardown, EnterEndHook, AfterEntrypoint, NextEndObserver;
    if Propagates(s, wake) {
      AfterEntrypointKeepsInv(s, Cancelled);
    } else {
      InlineKeepsInv(s, s.phase.k + 1, s.phase.error);
    }
  }

  lemma ContinueHeldKeepsInv(s: Session, wake: Wake, primary: bool)
    requires Inv(s) && CanWake(s, wake) && s.phase.HeldOpen?
    ensures Inv(Continue(s, wake, primary))
  {
    hide ExitRun, NextStartObserver, NextInlineObserver, NextTeardown, EnterEndHook, AfterEntrypoint, NextEndObserver;
    if wake.Ok? {
      TeardownKeepsInv(s, 0);
    } else {
      EndHookKeepsInv(s.(exec := Settle(s.exec, Failed)));
    }
  }

  lemma ContinueTeardownKeepsInv(s: Session, wake: Wake, primary: bool)
    requires Inv(s) && CanWake(s, wake) && s.phase.Teardown?
    ensures Inv(Continue(s, wake, primary))
  {
    hide ExitRun, NextStartObserver, NextInlineObserver, NextTeardown, EnterEndHook, AfterEntrypoint, NextEndObserver;
    if wake.Cancel? {
      EndHookKeepsInv(s);
    } else {
      TeardownKeepsInv(s, s.phase.k + 1);
    }
  }

  lemma ContinueEndKeepsInv(s: Session, wake: Wake, primary: bool)
    requires Inv(s) && CanWake(s, wake) && s.phase.EndNotify?
    ensures Inv(Continue(s, wake, primary))
  {
    hide ExitRun, NextStartObserver, NextInlineObserver, NextTeardown, EnterEndHook, AfterEntrypoint, NextEndObserver;
    if !wake.Timeout? && !Propagates(s, wake) {
      EndObserverKeepsInv(s, s.phase.k + 1);
    }
  }

  lemma ContinueKeepsInv(s: Session, wake: Wake, primary: bool)
    requires Inv(s) && CanWake(s, wake)
    ensures Inv(Continue(s, wake, primary))
  {
    hide Continue;
    match s.phase
    case InlineEnd(_, _) => ContinueInlineKeepsInv(s, wake, primary);
    case HeldOpen => ContinueHeldKeepsInv(s, wake, primary);
    case Teardown(_) => ContinueTeardownKeepsInv(s, wake, primary);
    case EndNotify(_) => ContinueEndKeepsInv(s, wake, primary);
    case _ => ContinueEarlyKeepsInv(s, wake, primary);
  }

  lemma EndObserverLater(s: Session, k: nat)
    ensures TaskLater(s, NextEndObserver(s, k))
  {
    if k < s.job.observers && !Faults(s.job.endFault, k) {
      assert NextEndObserver(s, k) == s.(phase := EndNotify(k), endTold := k + 1);
    }
  }

  lemma EndHookLater(s: Session)
    ensures TaskLater(s, EnterEndHook(s))
  {
    hide NextEndObserver;
    if s.job.endHook && s.finish.Some? {
      EndObserverLater(Note(s.(finish := None), FinishRecorded(s.finish.value)), 0);
    }
  }

  lemma TeardownLater(s: Session, k: nat)
    ensures TaskLater(s, NextTeardown(s, k))
  {
    hide EnterEndHook;
    EndHookLater(s.(tornDown := true, exec := Settle(s.exec, Success)));
  }

  lemma AfterLater(s: Session, error: Error)
    ensures TaskLater(s, AfterEntrypoint(s, error))
  {
    hide EnterEndHook, NextTeardown;
    if error != NoError {
      EndHookLater(s.(exec := Settle(s.exec, Failed)));
    } else {
      var r := s.(returned := true);
      EndHookLater(r.(exec := Settle(r.exec, Success)));
      TeardownLater(r, 0);
    }
  }

  lemma InlineLater(s: Session, k: nat, error: Error)
    ensures TaskLater(s, NextInlineObserver(s, k, error))
  {
    hide AfterEntrypoint;
    AfterLater(s, error);
    AfterLater(s, ErrorOf(s.job.endFault));
  }

  lemma ExitLater(s: Session, error: Error)
    ensures TaskLater(s, ExitRun(s, error))
  {
    hide AfterEntrypoint, NextInlineObserver;
    var f := if error.Raised? then Note(s, FailureRecorded) else s;
    AfterLater(f.(finish := Some(error)), error);
    InlineLater(Note(f, FinishRecorded(error)), 0, error);
  }

  lemma StartLater(s: Session, k: nat)
    ensures TaskLater(s, NextStartObserver(s, k))
  {
    hide ExitRun;
    ExitLater(s, NoError);
    ExitLater(s, ErrorOf(s.job.startFault));
  }

  lemma BeginLater(s: Session, first: First)
    requires CanBegin(s, first)
    ensures TaskLater(s, Begin(s, first))
  {
    hide AfterEntrypoint;
    if first.BuildRaises? {
      AfterLater(s, Raised);
    }
  }

  lemma ContinueEarlyLater(s: Session, wake: Wake, primary: bool)
    requires CanWake(s, wake)
        && (s.phase.Connecting? || s.phase.Starting? || s.phase.Greeting? || s.phase.StartNotify?)
    ensures TaskLater(s, Continue(s, wake, primary))
  {
    hide ExitRun, NextStartObserver, NextInlineObserver, NextTeardown, EnterEndHook, AfterEntrypoint, NextEndObserver;
    match s.phase
    case Starting =>
      if wake.Ok? { StartLater(s.(primary := primary), 0); } else { ExitLater(s.(primary := primary), AsError(wake)); }
    case StartNotify(k) =>
      if Propagates(s, wake) { ExitLater(s, Cancelled); } else { StartLater(s, k + 1); }
    case _ => ExitLater(s, AsError(wake));
  }

  lemma ContinueEndLater(s: Session, wake: Wake, primary: bool)
    requires CanWake(s, wake) && s.phase.EndNotify?
    ensures TaskLater(s, Continue(s, wake, primary))
  {
    hide NextEndObserver, ExitRun, NextStartObserver, NextInlineObserver, NextTeardown, EnterEndHook, AfterEntrypoint;
    EndObserverLater(s, s.phase.k + 1);
  }

  lemma ContinueLateLater(s: Session, wake: Wake, primary: bool)
    requires CanWake(s, wake) && (s.phase.InlineEnd? || s.phase.HeldOpen? || s.phase.Teardown?)
    ensures TaskLater(s, Continue(s, wake, primary))
  {
    hide ExitRun, NextStartObserver, NextInlineObserver, NextTeardown, EnterEndHook, AfterEntrypoint, NextEndObserver;
    match s.phase
    case InlineEnd(k, error) =>
      if Propagates(s, wake) { AfterLater(s, Cancelled); } else { InlineLater(s, k + 1, error); }
    case HeldOpen =>
      if wake.Ok? { TeardownLater(s, 0); } else { EndHookLater(s.(exec := Settle(s.exec, Failed))); }
    case Teardown(k) =>
      if wake.Cancel? { EndHookLater(s); } else { TeardownLater(s, k + 1); }
    case _ =>
  }

  lemma ContinueLater(s: Session, wake: Wake, primary: bool)
    requires CanWake(s, wake)
    ensures TaskLater(s, Continue(s, wake, primary))
  {
    hide Continue;
    if s.phase.InlineEnd? || s.phase.HeldOpen? || s.phase.Teardown? {
      ContinueLateLater(s, wake, primary);
    } else if s.phase.EndNotify? {
      ContinueEndLater(s, wake, primary);
    } else {
      ContinueEarlyLater(s, wake, primary);
    }
  }

  lemma EndObserverRank(s: Session, k: nat)
    ensures Rank(NextEndObserver(s, k)) <= 1 + Left(s.job.observers, k)
  {
    if k < s.job.observers && !Faults(s.job.endFault, k) {
      assert NextEndObserver(s, k).phase == EndNotify(k);
    } else {
      assert NextEndObserver(s, k) == Finish(s);
    }
  }

  lemma EndHookRank(s: Session)
    ensures Rank(EnterEndHook(s)) <= s.job.observers + 1
  {
    hide NextEndObserver;
    if s.job.endHook && s.finish.Some? {
      EndObserverRank(Note(s.(finish := None), FinishRecorded(s.finish.value)), 0);
    }
  }

  lemma TeardownRank(s: Session, k: nat)
    ensures Rank(NextTeardown(s, k)) <= s.job.observers + 2 + Left(s.job.teardownAwaits, k)
  {
    hide EnterEndHook;
    EndHookRank(s.(tornDown := true, exec := Settle(s.exec, Success)));
  }

  lemma AfterRank(s: Session, error: Error)
    ensures Rank(AfterEntrypoint(s, error)) <= s.job.observers + s.job.teardownAwaits + 3
  {
    hide EnterEndHook, NextTeardown;
    if error != NoError {
      EndHookRank(s.(exec := Settle(s.exec, Failed)));
    } else {
      var r := s.(returned := true);
      EndHookRank(r.(exec := Settle(r.exec, Success)));
      TeardownRank(r, 0);
    }
  }

  lemma InlineRank(s: Session, k: nat, error: Error)
    ensures Rank(NextInlineObserver(s, k, error)) <= s.job.observers + s.job.teardownAwaits + 3
        + Left(s.job.observers, k)
  {
    hide AfterEntrypoint;
    AfterRank(s, error);
    AfterRank(s, ErrorOf(s.job.endFault));
  }

  lemma ExitRank(s: Session, error: Error)
    ensures Rank(ExitRun(s, error)) <= 2 * s.job.observers + s.job.teardownAwaits + 3
  {
    hide AfterEntrypoint, NextInlineObserver;
    var f := if error.Raised? then Note(s, FailureRecorded) else s;
    AfterRank(f.(finish := Some(error)), error);
    InlineRank(Note(f, FinishRecorded(error)), 0, error);
  }

  lemma StartRank(s: Session, k: nat)
    ensures Rank(NextStartObserver(s, k)) <= 2 * s.job.observers + s.job.teardownAwaits + 4 + Left(s.job.observers, k)
  {
    hide ExitRun, ErrorOf;
    if k < s.job.observers && Faults(s.job.startFault, k) {
      ExitRank(s, ErrorOf(s.job.startFault));
    } else if k < s.job.observers {
      assert NextStartObserver(s, k).phase == StartNotify(k);
    } else {
      ExitRank(s, NoError);
    }
  }

  lemma BeginRank(s: Session, first: First)
    requires CanBegin(s, first)
    ensures Rank(Begin(s, first)) < Rank(s)
  {
    hide AfterEntrypoint;
    if first.BuildRaises? {
      AfterRank(s, Raised);
    }
  }

  lemma ContinueEarlyRank(s: Session, wake: Wake, primary: bool)
    requires Inv(s) && CanWake(s, wake)
        && (s.phase.Connecting? || s.phase.Starting? || s.phase.Greeting? || s.phase.StartNotify?)
    ensures Rank(Continue(s, wake, primary)) < Rank(s)
  {
    hide ExitRun, NextStartObserver, NextInlineObserver, NextTeardown, EnterEndHook, AfterEntrypoint, NextEndObserver;
    match s.phase
    case Starting =>
      if wake.Ok? { StartRank(s.(primary := primary), 0); } else { ExitRank(s.(primary := primary), AsError(wake)); }
    case StartNotify(k) =>
      if Propagates(s, wake) { ExitRank(s, Cancelled); } else { StartRank(s, k + 1); }
    case _ => ExitRank(s, AsError(wake));
  }

  lemma EndPhase(s: Session)
    requires Inv(s) && s.phase.EndNotify?
    ensures s.phase.k < s.job.observers
  {
  }

  lemma ContinueEndRank(s: Session, wake: Wake, primary: bool)
    requires Inv(s) && CanWake(s, wake) && s.phase.EndNotify?
    ensures Rank(Continue(s, wake, primary)) < Rank(s)
  {
    hide NextEndObserver, ExitRun, NextStartObserver, NextInlineObserver, NextTeardown, EnterEndHook, AfterEntrypoint,
      Inv;
    assert s.phase.k < s.job.observers by { EndPhase(s); }
    EndObserverRank(s, s.phase.k + 1);
    if wake.Timeout? || Propagates(s, wake) {
      assert Continue(s, wake, primary).phase == Done;
    } else {
      assert Continue(s, wake, primary) == NextEndObserver(s, s.phase.k + 1);
    }
  }

  lemma ContinueLateRank(s: Session, wake: Wake, primary: bool)
    requires Inv(s) && CanWake(s, wake) && (s.phase.InlineEnd? || s.phase.HeldOpen? || s.phase.Teardown?)
    ensures Rank(Continue(s, wake, primary)) < Rank(s)
  {
    hide ExitRun, NextStartObserver, NextInlineObserver, NextTeardown, EnterEndHook, AfterEntrypoint, NextEndObserver;
    match s.phase
    case InlineEnd(k, error) =>
      if Propagates(s, wake) { AfterRank(s, Cancelled); } else { InlineRank(s, k + 1, error); }
    case HeldOpen =>
      if wake.Ok? { TeardownRank(s, 0); } else { EndHookRank(s.(exec := Settle(s.exec, Failed))); }
    case Teardown(k) =>
      if wake.Cancel? { EndHookRank(s); } else { TeardownRank(s, k + 1); }
    case _ =>
  }

  lemma ContinueRank(s: Session, wake: Wake, primary: bool)
    requires Inv(s) && CanWake(s, wake)
    ensures Rank(Continue(s, wake, primary)) < Rank(s)
  {
    hide Continue;
    if s.phase.InlineEnd? || s.phase.HeldOpen? || s.phase.Teardown? {
      ContinueLateRank(s, wake, primary);
    } else if s.phase.EndNotify? {
      ContinueEndRank(s, wake, primary);
    } else {
      ContinueEarlyRank(s, wake, primary);
    }
  }

  // ---- a whole step: the pending cancellation delivered, then on to the next await ----

  lemma DeliveredKeepsInv(s: Session)
    requires Inv(s)
    ensures Inv(Delivered(s))
  {
    hide Open, Complete;
  }

  lemma DeliveredLater(s: Session, t: Session)
    requires TaskLater(Delivered(s), t)
    ensures TaskLater(s, t)
  {
  }

  lemma DeliveredRank(s: Session)
    ensures Rank(Delivered(s)) == Rank(s)
  {
    hide RankAt;
  }

  lemma DeliveredWakes(s: Session, wake: Wake)
    requires CanWake(s, wake)
    ensures CanWake(Delivered(s), wake)
  {
  }

  lemma ResumeKeepsInv(s: Session, wake: Wake, primary: bool)
    requires Inv(s) && CanResume(s, wake)
    ensures Inv(Resume(s, wake, primary))
  {
    DeliveredWakes(s, wake);
    hide Inv, Continue, CanWake;
    DeliveredKeepsInv(s);
    ContinueKeepsInv(Delivered(s), wake, primary);
  }

  /** No task step takes back what an earlier one recorded, settled or was told. */
  lemma ResumeLater(s: Session, wake: Wake, primary: bool)
    requires CanResume(s, wake)
    ensures TaskLater(s, Resume(s, wake, primary))
  {
    DeliveredWakes(s, wake);
    hide TaskLater, Continue, CanWake;
    ContinueLater(Delivered(s), wake, primary);
    DeliveredLater(s, Resume(s, wake, primary));
  }

  /** Every step of a task brings it nearer its end, however the awaited call came back. */
  lemma ResumeRank(s: Session, wake: Wake, primary: bool)
    requires Inv(s) && CanResume(s, wake)
    ensures Rank(Resume(s, wake, primary)) < Rank(s)
  {
    DeliveredWakes(s, wake);
    hide Inv, Continue, CanWake, Rank;
    DeliveredKeepsInv(s);
    DeliveredRank(s);
    ContinueRank(Delivered(s), wake, primary);
  }
}
