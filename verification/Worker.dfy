/**
 The whole coroutine worker: the pool, every session ever launched, and the shared metrics,
 stepped by the event loop and by outside calls in any order. A step that is not possible in
 the current state leaves it unchanged, so every sequence of steps is a run.
 */
module Worker {
  import opened Executor
  import opened Metrics
  import opened Pool
  import opened SessionFacts
  import opened SessionTask

  /** Sessions are named by their launch order; a refused launch keeps its place. */
  datatype WorkerState = WorkerState(pool: PoolState<nat>, sessions: seq<Session>, store: Store)

  datatype Step =
    | StartPool | BeginDrain | ClosePool
    | Launch(job: Job, refused: bool)
    | BeginTask(sid: nat, first: First)
    | ResumeTask(sid: nat, wake: Wake, primary: bool, message: string)
    | RequestShutdown(sid: nat)       // room disconnected, or ctx.shutdown()
    | AcloseCall(sid: nat) | AcloseReturn(sid: nat) | KillCall(sid: nat)
    | DoneCallback(sid: nat)

  function Fresh(): WorkerState {
    WorkerState(FreshPool(), [], EMPTY_STORE)
  }

  function ApplyEffect(store: Store, job: Job, effect: Effect, message: string): Store {
    match effect
    case StartRecorded => Metrics.Started(store, job.agent, job.tenant)
    case FailureRecorded => Metrics.Failed(store, job.agent, message, job.tenant)
    case FinishRecorded(_) => Metrics.Finished(store, job.agent, job.tenant)
  }

  function ApplyEffects(store: Store, job: Job, effects: seq<Effect>, message: string): Store
    decreases |effects|
  {
    if effects == [] then store
    else ApplyEffects(ApplyEffect(store, job, effects[0], message), job, effects[1..], message)
  }

  /** Session `sid` moves to `s`, and what it recorded on the way goes to the store. */
  function Advance(w: WorkerState, sid: nat, s: Session, message: string): WorkerState
    requires sid < |w.sessions| && w.sessions[sid].log <= s.log
  {
    w.(sessions := w.sessions[sid := s],
       store := ApplyEffects(w.store, s.job, s.log[|w.sessions[sid].log|..], message))
  }

  predicate Enabled(w: WorkerState, step: Step) {
    match step
    case StartPool => true
    case BeginDrain => true
    case ClosePool => w.pool.started
    case Launch(_, _) => w.pool.started && !w.pool.draining
    case BeginTask(sid, first) => sid < |w.sessions| && CanBegin(w.sessions[sid], first)
    case ResumeTask(sid, wake, _, _) => sid < |w.sessions| && CanResume(w.sessions[sid], wake)
    case RequestShutdown(sid) => sid < |w.sessions| && !w.sessions[sid].phase.Scheduled?
    case AcloseCall(sid) => sid < |w.sessions|
    case AcloseReturn(sid) => sid < |w.sessions| && w.sessions[sid].exec.acloses > 0
      && w.sessions[sid].exec.task.Finished?
    case KillCall(sid) => sid < |w.sessions|
    case DoneCallback(sid) => sid < |w.sessions| && w.sessions[sid].phase.Done?
  }

  /** Something outside the event loop asks a session's task to end. */
  predicate IsCall(step: Step) {
    step.RequestShutdown? || step.AcloseCall? || step.AcloseReturn? || step.KillCall?
  }

  /** The session a caller's request leaves behind. */
  function AfterCall(s: Session, step: Step): Session
    requires IsCall(step) && (step.AcloseReturn? ==> s.exec.acloses > 0)
  {
    match step
    case RequestShutdown(_) => s.(shutdown := true)
    case AcloseCall(_) => WithExec(s, AcloseBegin(s.exec))
    case AcloseReturn(_) => WithExec(s, AcloseEnd(s.exec))
    case _ => WithExec(s, Kill(s.exec))
  }

  function Put(w: WorkerState, sid: nat, s: Session): WorkerState
    requires sid < |w.sessions|
  {
    w.(sessions := w.sessions[sid := s])
  }

  function Apply(limit: nat, w: WorkerState, step: Step): WorkerState {
    if !Enabled(w, step) then w
    else
      match step
      case StartPool => w.(pool := w.pool.(started := true))
      case BeginDrain => w.(pool := w.pool.(draining := true))
      case ClosePool => w.(pool := w.pool.(started := false))
      case Launch(job, refused) =>
        var sid := |w.sessions|;
        var admitted := Admit(w.pool, sid);
        if refused then
          w.(pool := ExecutorDone(admitted, sid, JobStatus.Running, limit),
            sessions := w.sessions + [RefusedLaunch(job)])
        else
          w.(pool := Emit(admitted, sid, JobLaunched), sessions := w.sessions + [Launched(job)])
      case BeginTask(sid, first) =>
        BeginLater(w.sessions[sid], first);
        Advance(w, sid, Begin(w.sessions[sid], first), "")
      case ResumeTask(sid, wake, primary, message) =>
        ResumeLater(w.sessions[sid], wake, primary);
        Advance(w, sid, Resume(w.sessions[sid], wake, primary), message)
      case DoneCallback(sid) =>
        var s := w.sessions[sid];
        Put(w, sid, s.(phase := Closed)).(pool := ExecutorDone(w.pool, sid, s.exec.status, limit))
      case _ => Put(w, step.sid, AfterCall(w.sessions[step.sid], step))
  }

  function Run(limit: nat, w: WorkerState, steps: seq<Step>): WorkerState {
    if steps == [] then w
    else Apply(limit, Run(limit, w, steps[..|steps| - 1]), steps[|steps| - 1])
  }

  lemma RunThen(limit: nat, w: WorkerState, steps: seq<Step>, step: Step)
    ensures Run(limit, w, steps + [step]) == Apply(limit, Run(limit, w, steps), step)
  {
    assert (steps + [step])[..|steps|] == steps;
  }
}
