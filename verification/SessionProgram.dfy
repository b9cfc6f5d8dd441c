/**
 The session coroutine as it is written: `_run_entrypoint` around `run_session`, one statement
 after another, with an explicit await wherever it suspends. Proved to take, reply by reply,
 the same path as the state machine.
 */
module SessionProgram {
  import opened Basics
  import opened Executor
  import opened SessionFacts
  import opened SessionTask
  import opened WorkerRuns

  /** How an await comes back, and what outside callers did to the executor and the shutdown future meanwhile. */
  datatype Reply = Reply(exec: Exec, shutdown: bool, wake: Wake, primary: bool)

  /** The outside world: the reply to the n-th await, made in this state. */
  type World = (nat, Session) -> Reply

  function Meet(s: Session, r: Reply): Session {
    WithExec(s, r.exec).(shutdown := s.shutdown || r.shutdown)
  }

  lemma MeetFields(s: Session, r: Reply)
    ensures var met := Delivered(Meet(s, r));
            met == s.(exec := met.exec, killed := met.killed, shutdown := met.shutdown)
  {
  }

  /** Outside callers add cancellations and settle a running status to FAILED; the wake must be possible. */
  predicate Admissible(s: Session, r: Reply) {
    && r.exec.task == s.exec.task && r.exec.cancels >= s.exec.cancels
    && (r.exec.pending <==> s.exec.pending || r.exec.cancels > s.exec.cancels)
    && (r.exec.status == s.exec.status
        || (s.exec.status.Running? && r.exec.status.Failed? && r.exec.cancels > s.exec.cancels))
    && CanResume(Meet(s, r), r.wake)
  }

  predicate Suspended(phase: Phase) {
    !phase.Scheduled? && !phase.Done? && !phase.Closed?
  }

  ghost predicate Fair(world: World) {
    forall n: nat, s: Session :: Suspended(s.phase) ==> Admissible(s, world(n, s))
  }

  /** Every call comes back, and every room is hung up, unless the task was cancelled first. */
  function HangUp(s: Session): Reply {
    Reply(s.exec, true, if s.phase.HeldOpen? && s.exec.pending then Cancel else Ok, true)
  }

  /** That makes one fair world. */
  lemma HangingUpIsFair()
    ensures Fair((n: nat, s: Session) => HangUp(s))
  {
    var world: World := (n: nat, s: Session) => HangUp(s);
    forall n: nat, s: Session | Suspended(s.phase) ensures Admissible(s, world(n, s)) {
    }
  }

  function Answer(s: Session, r: Reply): Session {
    if Admissible(s, r) then Resume(Meet(s, r), r.wake, r.primary) else s
  }

  /** The state machine after the first step and these replies. */
  function Machine(job: Job, first: First, replies: seq<Reply>): Session {
    if replies == [] then Begin(Launched(job), if first.NeverRuns? then Routed else first)
    else Answer(Machine(job, first, replies[..|replies| - 1]), replies[|replies| - 1])
  }

  lemma AnswerAdmissible(s: Session, r: Reply)
    requires Admissible(s, r)
    ensures var woken := Delivered(Meet(s, r));
            CanWake(woken, r.wake) && Answer(s, r) == Continue(woken, r.wake, r.primary)
  {
    hide Continue;
  }

  lemma MachineStep(job: Job, first: First, replies: seq<Reply>, r: Reply)
    ensures Machine(job, first, replies + [r]) == Answer(Machine(job, first, replies), r)
  {
    assert (replies + [r])[..|replies|] == replies;
  }

  lemma AnswerKeepsInv(s: Session, r: Reply)
    requires Inv(s)
    ensures Inv(Answer(s, r))
  {
    hide Inv, Resume, CanResume;
    if Admissible(s, r) {
      ExecKeepsInv(s, r.exec);
      if r.shutdown {
        ShutdownKeepsInv(WithExec(s, r.exec));
      }
      ResumeKeepsInv(Meet(s, r), r.wake, r.primary);
    }
  }

  lemma {:induction false} MachineKeepsInv(job: Job, first: First, replies: seq<Reply>)
    ensures Inv(Machine(job, first, replies))
  {
    hide Inv, Answer, Begin;
    if replies == [] {
      LaunchKeepsSessionInv(job);
      BeginKeepsInv(Launched(job), if first.NeverRuns? then Routed else first);
    } else {
      MachineKeepsInv(job, first, replies[..|replies| - 1]);
      AnswerKeepsInv(Machine(job, first, replies[..|replies| - 1]), replies[|replies| - 1]);
    }
  }

  // ---- the machine's steps, one kind of await at a time ----

  lemma AfterConnect(s: Session, wake: Wake, primary: bool)
    requires s.phase.Connecting? && CanWake(s, wake)
    ensures Continue(s, wake, primary) == if wake.Ok? then s.(phase := Starting) else ExitRun(s, AsError(wake))
    ensures !wake.Timeout?
  {
  }

  lemma AfterStart(s: Session, wake: Wake, primary: bool)
    requires s.phase.Starting? && CanWake(s, wake)
    ensures Continue(s, wake, primary)
         == if wake.Ok? then NextStartObserver(s.(primary := primary), 0)
           else ExitRun(s.(primary := primary), AsError(wake))
    ensures !wake.Timeout?
  {
  }

  lemma AfterStartNotify(s: Session, wake: Wake, primary: bool)
    requires s.phase.StartNotify? && CanWake(s, wake)
    ensures Continue(s, wake, primary)
         == if Propagates(s, wake) then ExitRun(s, Cancelled) else NextStartObserver(s, s.phase.k + 1)
  {
  }

  lemma AfterGreeting(s: Session, wake: Wake, primary: bool)
    requires s.phase.Greeting? && CanWake(s, wake)
    ensures Continue(s, wake, primary) == ExitRun(s, AsError(wake))
  {
  }

  lemma AllStartObserversTold(s: Session)
    ensures NextStartObserver(s, s.job.observers) == if s.job.greets then s.(phase := Greeting) else ExitRun(s, NoError)
  {
  }

  lemma AfterTeardown(s: Session)
    ensures NextTeardown(s, s.job.teardownAwaits) == EnterEndHook(s.(tornDown := true, exec := Settle(s.exec, Success)))
  {
  }

  lemma AfterHold(s: Session, wake: Wake, primary: bool)
    requires s.phase.HeldOpen? && CanWake(s, wake)
    ensures Continue(s, wake, primary)
         == if wake.Ok? then NextTeardown(s, 0) else EnterEndHook(s.(exec := Settle(s.exec, Failed)))
    ensures wake.Ok? || wake.Cancel?
  {
  }

  lemma AfterEndNotify(s: Session, wake: Wake, primary: bool)
    requires s.phase.EndNotify? && CanWake(s, wake)
    ensures Continue(s, wake, primary)
         == if wake.Timeout? then Finish(s.(cutShort := true))
            else if Propagates(s, wake) then Finish(s) else NextEndObserver(s, s.phase.k + 1)
  {
  }

  lemma AfterInlineEnd(s: Session, wake: Wake, primary: bool)
    requires s.phase.InlineEnd? && CanWake(s, wake)
    ensures Continue(s, wake, primary)
         == if Propagates(s, wake) then AfterEntrypoint(s, Cancelled)
           else NextInlineObserver(s, s.phase.k + 1, s.phase.error)
  {
  }

  class SessionCoroutine {
    const job: Job
    const world: World
    const first: First
    var phase: Phase              // where it is, or was last, suspended
    var exec: Exec
    var primary: bool
    var finish: Option<Error>
    var shutdown: bool
    var log: seq<Effect>
    var startTold: nat
    var endTold: nat
    var cutShort: bool
    var returned: bool
    var tornDown: bool
    var killed: bool
    var replies: seq<Reply>

    function View(): Session
      reads this
    {
      Session(job, phase, exec, primary, finish, shutdown, log, startTold, endTold, cutShort, returned,
              tornDown, killed)
    }

    /** Where the state machine is after the same replies. */
    ghost function Reached(): Session
      reads this
    {
      Machine(job, first, replies)
    }

    constructor (job: Job, world: World, first: First)
      ensures this.job == job && this.world == world && this.first == first
      ensures View() == Launched(job) && replies == []
    {
      this.job, this.world, this.first := job, world, first;
      phase, exec, primary, finish, shutdown := Scheduled, FRESH.(task := InFlight), false, None, false;
      log, startTold, endTold, cutShort, returned, tornDown, killed := [], 0, 0, false, false, false, false;
      replies := [];
    }

    method Await(at: Phase) returns (wake: Wake, primary: bool)
      requires Fair(world) && Suspended(at) && Reached() == View().(phase := at)
      modifies this`phase, this`exec, this`shutdown, this`killed, this`replies
      ensures phase == at && CanWake(View(), wake)
      ensures Reached() == Continue(View(), wake, primary)
    {
      hide Continue, CanWake, Machine, Meet, Delivered, Admissible, Answer;
      var here := View().(phase := at);
      var r := world(|replies|, here);
      MachineStep(job, first, replies, r);
      AnswerAdmissible(here, r);
      MeetFields(here, r);
      var met := Delivered(Meet(here, r));
      phase, exec, killed, shutdown, replies := at, met.exec, met.killed, met.shutdown, replies + [r];
      assert View() == met;
      return r.wake, r.primary;
    }

    /** `_invoke_observer`: whether what comes out of an awaited hook leaves the notify loop. */
    predicate Leaves(wake: Wake)
      reads this
    {
      wake.Cancel? && exec.cancels > 0
    }

    method NotifyStart() returns (error: Error)
      requires Fair(world) && Reached() == NextStartObserver(View(), 0)
      modifies this
      ensures Reached() == if error.NoError? then NextStartObserver(View(), job.observers) else ExitRun(View(), error)
    {
      hide ExitRun, Machine, Continue, CanWake;
      for k := 0 to job.observers
        invariant Reached() == NextStartObserver(View(), k)
      {
        if Faults(job.startFault, k) {
          return ErrorOf(job.startFault);
        }
        startTold := k + 1;
        var wake, primary' := Await(StartNotify(k));
        AfterStartNotify(View(), wake, primary');
        if Leaves(wake) {
          return Cancelled;
        }
      }
      return NoError;
    }

    method Connect() returns (error: Error)
      requires Fair(world) && Reached() == View().(phase := Connecting)
      modifies this`phase, this`exec, this`shutdown, this`killed, this`replies
      ensures Reached() == if error.NoError? then View().(phase := Starting) else ExitRun(View(), error)
    {
      hide ExitRun, Machine, Continue, CanWake;
      var wake, primary' := Await(Connecting);
      AfterConnect(View(), wake, primary');
      return AsError(wake);
    }

    method StartSession() returns (error: Error)
      requires Fair(world) && Reached() == View().(phase := Starting)
      modifies this`phase, this`exec, this`shutdown, this`killed, this`replies, this`primary
      ensures Reached() == if error.NoError? then NextStartObserver(View(), 0) else ExitRun(View(), error)
    {
      hide ExitRun, Machine, Continue, CanWake, NextStartObserver;
      var wake, started := Await(Starting);
      AfterStart(View(), wake, started);
      primary := started;
      return AsError(wake);
    }

    method Greet() returns (error: Error)
      requires Fair(world) && Reached() == View().(phase := Phase.Greeting)
      modifies this`phase, this`exec, this`shutdown, this`killed, this`replies
      ensures Reached() == ExitRun(View(), error)
    {
      hide ExitRun, Machine, Continue, CanWake;
      var wake, primary' := Await(Phase.Greeting);
      AfterGreeting(View(), wake, primary');
      return AsError(wake);
    }

    /** The `try` block of `run_session`. */
    method RunBody() returns (error: Error)
      requires Fair(world) && Reached() == Note(View(), StartRecorded).(phase := Connecting)
      modifies this
      ensures Reached() == ExitRun(View(), error)
    {
      hide ExitRun, Machine, NextStartObserver;
      log := log + [StartRecorded];
      error := Connect();
      if error.NoError? {
        error := StartSession();
      } else {
        return;
      }
      if error.NoError? {
        error := NotifyStart();
      } else {
        return;
      }
      AllStartObserversTold(View());
      if error.NoError? && job.greets {
        error := Greet();
      }
    }

    /** `_finish_session`, inline: the error that leaves it, or the one it was called with. */
    method FinishInline(error: Error) returns (out: Error)
      requires Fair(world) && Reached() == NextInlineObserver(Note(View(), FinishRecorded(error)), 0, error)
      modifies this
      ensures Reached() == AfterEntrypoint(View(), out)
    {
      hide AfterEntrypoint, Machine, Continue, CanWake;
      log := log + [FinishRecorded(error)];
      for k := 0 to job.observers
        invariant Reached() == NextInlineObserver(View(), k, error)
      {
        if Faults(job.endFault, k) {
          return ErrorOf(job.endFault);
        }
        endTold := k + 1;
        var wake, primary' := Await(InlineEnd(k, error));
        AfterInlineEnd(View(), wake, primary');
        if Leaves(wake) {
          return Cancelled;
        }
      }
      return error;
    }

    method RunSession() returns (error: Error)
      requires Fair(world) && (first.BuildRaises? || first.Routed?)
      requires CanBegin(View(), first) && Reached() == Begin(View(), first)
      modifies this
      ensures Reached() == AfterEntrypoint(View(), error)
    {
      hide AfterEntrypoint, NextInlineObserver, Machine;
      if first.BuildRaises? {
        return Raised;
      }
      error := RunBody();
      if error.Raised? {
        log := log + [FailureRecorded];
      }
      if job.defers && Held(View()) {
        finish := Some(error);
      } else {
        error := FinishInline(error);
      }
    }

    /** `_teardown`; `false` when a cancellation cuts it off. */
    method TearDown() returns (whole: bool)
      requires Fair(world) && Reached() == NextTeardown(View(), 0)
      modifies this
      ensures Reached() == if whole then NextTeardown(View(), job.teardownAwaits) else EnterEndHook(View())
    {
      hide EnterEndHook, Machine;
      for k := 0 to job.teardownAwaits
        invariant Reached() == NextTeardown(View(), k)
      {
        var wake, _ := Await(Teardown(k));
        if wake.Cancel? {
          return false;
        }
      }
      return true;
    }

    method HoldOpen()
      requires Fair(world) && Held(View())
      requires Reached() == if shutdown then NextTeardown(View(), 0) else View().(phase := HeldOpen)
      modifies this
      ensures Reached() == EnterEndHook(View())
    {
      hide EnterEndHook, NextTeardown, Machine, Continue, CanWake;
      if !shutdown {
        var wake, primary' := Await(HeldOpen);
        AfterHold(View(), wake, primary');
        if wake.Cancel? {
          exec := Settle(exec, Failed);
          return;
        }
      }
      var whole := TearDown();
      AfterTeardown(View());
      if whole {
        tornDown := true;
        exec := Settle(exec, Success);
      }
    }

    /** `run_session_end` under the executor's optional `wait_for`. */
    method RunSessionEnd()
      requires Fair(world) && job.endHook && Reached() == EnterEndHook(View())
      modifies this
      ensures Reached() == Finish(View())
    {
      hide Machine, NextEndObserver;
      if finish.None? {
        return;
      }
      log := log + [FinishRecorded(finish.value)];
      finish := None;
      NotifyEnd();
    }

    method NotifyEnd()
      requires Fair(world) && Reached() == NextEndObserver(View(), 0)
      modifies this`phase, this`exec, this`shutdown, this`killed, this`replies, this`endTold, this`cutShort
      ensures Reached() == Finish(View())
    {
      hide Machine, Finish;
      for k := 0 to job.observers
        invariant Reached() == NextEndObserver(View(), k)
      {
        if Faults(job.endFault, k) {
          return;
        }
        endTold := k + 1;
        var goOn := AwaitEndHook(k);
        if !goOn {
          return;
        }
      }
    }

    /** Observer `k`'s end hook, awaited under the hook timeout; `false` leaves the loop. */
    method AwaitEndHook(k: nat) returns (goOn: bool)
      requires Fair(world) && Reached() == View().(phase := EndNotify(k))
      modifies this`phase, this`exec, this`shutdown, this`killed, this`replies, this`cutShort
      ensures Reached() == if goOn then NextEndObserver(View(), k + 1) else Finish(View())
    {
      hide Machine, Continue, CanWake, NextEndObserver, Finish;
      var wake, primary' := Await(EndNotify(k));
      AfterEndNotify(View(), wake, primary');
      if wake.Timeout? {
        cutShort := true;
        return false;
      }
      return !Leaves(wake);
    }

    /** The executor after its entrypoint ended with `error`, up to its `finally`. */
    method Settled(error: Error)
      requires Fair(world) && Reached() == AfterEntrypoint(View(), error)
      modifies this
      ensures Reached() == EnterEndHook(View())
    {
      hide EnterEndHook, NextTeardown, Machine;
      if !error.NoError? {
        exec := Settle(exec, Failed);
        return;
      }
      returned := true;
      if Held(View()) {
        HoldOpen();
      } else {
        exec := Settle(exec, Success);
      }
    }

    /**
     `_run_entrypoint`, from its first step to the end of its task: it passes through exactly
     the states of the machine.
     */
    method RunEntrypoint()
      requires Fair(world) && !first.NeverRuns? && View() == Launched(job) && replies == []
      modifies this
      ensures View() == Machine(job, first, replies) && phase.Done?
    {
      hide EnterEndHook, AfterEntrypoint, Machine;
      MachineBegins(job, first);
      if !first.SetupRaises? {
        var error := RunSession();
        Settled(error);
        if job.endHook {
          RunSessionEnd();
        } else {
          NoEndHook(View());
        }
      }
      phase, exec := Done, exec.(task := Finished);
    }
  }

  lemma MachineBegins(job: Job, first: First)
    requires !first.NeverRuns?
    ensures Machine(job, first, []) == Begin(Launched(job), first)
  {
  }

  lemma NoEndHook(s: Session)
    requires !s.job.endHook
    ensures EnterEndHook(s) == Finish(s)
  {
  }

  /** Only a routed first step records anything, and then the log stays nonempty. */
  lemma {:induction false} MachineStarts(job: Job, first: First, replies: seq<Reply>)
    requires !first.NeverRuns?
    ensures var s := Machine(job, first, replies);
            s.job == job && if first.Routed? then s.log != [] else s.log == [] && s.phase.Done?
  {
    if replies != [] {
      var init, r := replies[..|replies| - 1], replies[|replies| - 1];
      MachineStarts(job, first, init);
      var s := Machine(job, first, init);
      hide Resume;
      if Admissible(s, r) {
        ResumeLater(Meet(s, r), r.wake, r.primary);
      }
    }
  }

  /**
   What the program leaves behind when its task ends. A session that got as far as its start
   has recorded its finish exactly once, with every observer told of it unless cancelled, timed
   out or the call of an end hook raised, and of the start if the finish is a success; except
   where the finish was deferred to an end hook the pool lacks. Any other has recorded nothing.
   SUCCESS means exactly a normal return, for a held call a whole teardown, and no caller that
   settled the status first.
   */
  lemma ProgramEnds(job: Job, first: First, replies: seq<Reply>)
    requires !first.NeverRuns? && Machine(job, first, replies).phase.Done?
    ensures var s := Machine(job, first, replies);
            && (s.log != [] <==> first.Routed?)
            && (first.Routed? && (job.endHook || !(job.defers && Held(s))) ==>
                  s.log[|s.log| - 1].FinishRecorded? && s.log == Complete(s.log[|s.log| - 1].error)
                  && ToldAll(s) && StartTold(s, s.log[|s.log| - 1].error))
            && (s.exec.status.Success? ==> (Held(s) ==> s.shutdown))
            && (s.exec.status.Success? <==> s.returned && (Held(s) ==> s.tornDown) && !s.killed)
  {
    hide Machine;
    MachineKeepsInv(job, first, replies);
    MachineStarts(job, first, replies);
  }
}
