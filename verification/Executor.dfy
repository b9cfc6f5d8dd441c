/** The per-session executor: a status, a task handle, and the ways a caller can cancel it. */
module Executor {
  import opened Basics

  datatype JobStatus = Running | Failed | Success

  /** `self._task`: not created yet, created and not done, or done. */
  datatype TaskHandle = NoTask | InFlight | Finished

  /**
   What callers see of an executor. `cancels` is the task's `cancelling()` count, `pending` says
   a cancellation has not been delivered to it yet, and `acloses` is the number of `aclose()`
   calls suspended on `await task`.
   */
  datatype Exec = Exec(
    status: JobStatus, task: TaskHandle, started: bool, cancels: nat, pending: bool, acloses: nat)

  const FRESH := Exec(Running, NoTask, false, 0, false, 0)

  /** `task.cancel()`: counted, and delivered at the task's next step. */
  function Cancelling(e: Exec): Exec {
    e.(cancels := e.cancels + 1, pending := true)
  }

  /** Every status write in the executor is guarded by "only if still RUNNING". */
  function Settle(e: Exec, to: JobStatus): Exec {
    if e.status.Running? then e.(status := to) else e
  }

  function Kill(e: Exec): Exec {
    (if e.task.InFlight? then Settle(Cancelling(e), Failed) else e).(started := false)
  }

  /** `aclose()` up to its `await task` (or to its end when there is nothing to cancel). */
  function AcloseBegin(e: Exec): Exec {
    if e.task.InFlight? then Cancelling(e).(acloses := e.acloses + 1) else e.(started := false)
  }

  /** `aclose()` after its `await task` came back, in whatever way the task ended. */
  function AcloseEnd(e: Exec): Exec
    requires e.acloses > 0
  {
    Settle(e.(acloses := e.acloses - 1), Failed).(started := false)
  }

  datatype LaunchError = NoEntrypoint | NoContextFactory | AlreadyInFlight | FactoryRaised

  class CoroutineJobExecutor {
    var status: JobStatus
    var task: TaskHandle
    var started: bool
    var cancels: nat
    var pending: bool
    var acloses: nat
    const hasEntrypoint: bool
    const hasContextFactory: bool

    ghost function View(): Exec
      reads this
    {
      Exec(status, task, started, cancels, pending, acloses)
    }

    constructor (hasEntrypoint: bool, hasContextFactory: bool)
      ensures View() == FRESH
      ensures this.hasEntrypoint == hasEntrypoint && this.hasContextFactory == hasContextFactory
    {
      status, task, started, cancels, pending, acloses := Running, NoTask, false, 0, false, 0;
      this.hasEntrypoint, this.hasContextFactory := hasEntrypoint, hasContextFactory;
    }

    method Start()
      modifies this`started
      ensures View() == old(View()).(started := true)
    {
      started := true;
    }

    method SettleStatus(to: JobStatus)
      modifies this`status
      ensures View() == Settle(old(View()), to)
      ensures status == if old(status.Running?) then to else old(status)
    {
      if status == Running {
        status := to;
      }
    }

    method KillTask()
      modifies this
      ensures View() == Kill(old(View()))
      ensures old(task.InFlight?) ==> cancels == old(cancels) + 1 && pending && !status.Running?
      ensures status == if old(task.InFlight? && status.Running?) then Failed else old(status)
      ensures !old(task.InFlight?) ==> cancels == old(cancels) && pending == old(pending)
      ensures !started && task == old(task) && acloses == old(acloses)
    {
      if task == InFlight {
        cancels, pending := cancels + 1, true;
        SettleStatus(Failed);
      }
      started := false;
    }

    method AcloseUpToAwait() returns (waiting: bool)
      modifies this
      ensures View() == AcloseBegin(old(View())) && waiting == old(task.InFlight?)
      ensures waiting ==> cancels == old(cancels) + 1 && pending && acloses == old(acloses) + 1
      ensures waiting ==> started == old(started)
      ensures !waiting ==> !started && cancels == old(cancels) && acloses == old(acloses)
      ensures status == old(status) && task == old(task)
    {
      waiting := task == InFlight;
      if waiting {
        cancels, pending := cancels + 1, true;
        acloses := acloses + 1;
      } else {
        started := false;
      }
    }

    method AcloseAfterAwait()
      requires acloses > 0
      modifies this
      ensures View() == AcloseEnd(old(View()))
      ensures status == (if old(status.Running?) then Failed else old(status)) && !started
      ensures acloses == old(acloses) - 1 && task == old(task) && cancels == old(cancels)
    {
      acloses := acloses - 1;
      SettleStatus(Failed);
      started := false;
    }

    /**
     Schedules the entrypoint task. The refusals leave the executor as it was, except that
     a raising context factory is only reached once the status has been reset.
     */
    method LaunchJob(factoryRaises: bool) returns (error: Option<LaunchError>)
      modifies this
      ensures error == (if !hasEntrypoint then Some(NoEntrypoint)
                        else if !hasContextFactory then Some(NoContextFactory)
                        else if old(task.InFlight?) then Some(AlreadyInFlight)
                        else if factoryRaises then Some(FactoryRaised) else None)
      ensures match error
              case None => View() == old(View()).(status := Running, task := InFlight, cancels := 0, pending := false)
              case Some(FactoryRaised) => View() == old(View()).(status := Running)
              case Some(_) => View() == old(View())
    {
      if !hasEntrypoint {
        return Some(NoEntrypoint);
      }
      if !hasContextFactory {
        return Some(NoContextFactory);
      }
      if task == InFlight {
        return Some(AlreadyInFlight);
      }
      status := Running;
      if factoryRaises {
        return Some(FactoryRaised);
      }
      task, cancels, pending := InFlight, 0, false;
      return None;
    }
  }
}
