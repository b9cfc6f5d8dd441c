/**
 The pool around the executors: admission of launches, drain, done callbacks, lifecycle
 events, and the supervisor that watches for consecutive failures.
 */
module Pool {
  import opened Basics
  import opened Executor

  datatype PoolEvent = Created | ProcessStarted | Ready | JobLaunched | ProcessClosed

  /**
   `E` identifies an executor. `observed` is the status read at each done callback and
   `alarms` the argument of each supervisor call, both in order.
   */
  datatype PoolState<E> = PoolState(
    executors: seq<E>,
    started: bool,
    draining: bool,
    consecutive: nat,
    fired: bool,
    events: seq<(E, PoolEvent)>,
    observed: seq<JobStatus>,
    alarms: seq<nat>)

  function FreshPool<E>(): PoolState<E> {
    PoolState([], false, false, 0, false, [], [], [])
  }

  function IndexOf<E(==)>(xs: seq<E>, x: E): (i: nat)
    requires x in xs
    ensures i < |xs| && xs[i] == x && x !in xs[..i]
  {
    if xs[0] == x then 0 else 1 + IndexOf(xs[1..], x)
  }

  /** `list.remove`: the first occurrence goes. */
  function RemoveFirst<E(==)>(xs: seq<E>, x: E): seq<E>
    requires x in xs
  {
    xs[..IndexOf(xs, x)] + xs[IndexOf(xs, x) + 1..]
  }

  ghost predicate NoDuplicates<E>(xs: seq<E>) {
    forall i, j :: 0 <= i < j < |xs| ==> xs[i] != xs[j]
  }

  lemma RemoveFirstExact<E>(xs: seq<E>, x: E)
    requires x in xs && NoDuplicates(xs)
    ensures var r := RemoveFirst(xs, x);
            && NoDuplicates(r) && |r| == |xs| - 1
            && forall y :: y in r <==> y in xs && y != x
  {
    var i := IndexOf(xs, x);
    var r := RemoveFirst(xs, x);
    forall y ensures y in r <==> y in xs && y != x {
      if y in xs && y != x {
        var j :| 0 <= j < |xs| && xs[j] == y;
        assert r[if j < i then j else j - 1] == y;
      }
    }
  }

  function Emit<E>(p: PoolState<E>, e: E, event: PoolEvent): PoolState<E> {
    p.(events := p.events + [(e, event)])
  }

  /** A launch up to the call of the executor: slot taken, three events out. */
  function Admit<E>(p: PoolState<E>, e: E): PoolState<E> {
    Emit(Emit(Emit(p.(executors := p.executors + [e]), e, Created), e, ProcessStarted), e, Ready)
  }

  /** The supervisor step for one closed executor. */
  function Observe<E>(p: PoolState<E>, status: JobStatus, limit: nat): PoolState<E> {
    var q := p.(observed := p.observed + [status]);
    if status.Success? then q.(consecutive := 0, fired := false)
    else
      var n := p.consecutive + 1;
      if n >= limit && !p.fired then q.(consecutive := n, fired := true, alarms := p.alarms + [n])
      else q.(consecutive := n)
  }

  function ExecutorDone<E(==)>(p: PoolState<E>, e: E, status: JobStatus, limit: nat): PoolState<E> {
    if e !in p.executors then p
    else Observe(Emit(p.(executors := RemoveFirst(p.executors, e)), e, ProcessClosed), status, limit)
  }

  /** The events one executor has emitted, in order. */
  function EventsOf<E(==)>(events: seq<(E, PoolEvent)>, e: E): seq<PoolEvent> {
    if events == [] then []
    else
      var last := events[|events| - 1];
      EventsOf(events[..|events| - 1], e) + if last.0 == e then [last.1] else []
  }

  lemma EmitEvents<E>(p: PoolState<E>, e: E, event: PoolEvent)
    ensures forall x :: EventsOf(Emit(p, e, event).events, x) == EventsOf(p.events, x) + if x == e then [event] else []
  {
    forall x ensures EventsOf(Emit(p, e, event).events, x) == EventsOf(p.events, x) + if x == e then [event] else [] {
      assert Emit(p, e, event).events[..|p.events|] == p.events;
    }
  }

  /** The length of the trailing run of non-SUCCESS closures. */
  function TrailingFailures(observed: seq<JobStatus>): nat {
    if observed == [] || observed[|observed| - 1].Success? then 0
    else TrailingFailures(observed[..|observed| - 1]) + 1
  }

  /** How many maximal runs of non-SUCCESS closures reached `limit`: once per run, where it becomes `limit` long. */
  function RunsReaching(observed: seq<JobStatus>, limit: nat): nat {
    if observed == [] then 0
    else RunsReaching(observed[..|observed| - 1], limit) + if TrailingFailures(observed) == limit then 1 else 0
  }

  ghost predicate SupervisorExact<E>(p: PoolState<E>, limit: nat) {
    && p.consecutive == TrailingFailures(p.observed)
    && (p.fired <==> p.consecutive >= limit)
    && |p.alarms| == RunsReaching(p.observed, limit)
    && (forall n :: n in p.alarms ==> n == limit)
  }

  lemma ObserveKeepsSupervisorExact<E>(p: PoolState<E>, status: JobStatus, limit: nat)
    requires limit >= 1 && SupervisorExact(p, limit)
    ensures SupervisorExact(Observe(p, status, limit), limit)
  {
    var q := Observe(p, status, limit);
    assert q.observed[..|p.observed|] == p.observed && q.observed[|p.observed|] == status;
    assert TrailingFailures(q.observed) == if status.Success? then 0 else TrailingFailures(p.observed) + 1;
    assert RunsReaching(q.observed, limit)
        == RunsReaching(p.observed, limit) + if TrailingFailures(q.observed) == limit then 1 else 0;
  }

  datatype Refusal = NotStarted | Draining | ExecutorRefused(error: LaunchError)

  class CoroutinePool {
    var executors: seq<CoroutineJobExecutor>
    var started: bool
    var draining: bool
    var consecutiveFailures: nat
    var failureLimitFired: bool
    ghost var events: seq<(CoroutineJobExecutor, PoolEvent)>
    ghost var observed: seq<JobStatus>
    ghost var alarms: seq<nat>
    const consecutiveFailureLimit: nat
    const hasEntrypoint: bool

    ghost function View(): PoolState<CoroutineJobExecutor>
      reads this
    {
      PoolState(executors, started, draining, consecutiveFailures, failureLimitFired, events, observed, alarms)
    }

    /** The limit is checked positive on construction; the supervisor state is always exact. */
    ghost predicate Valid()
      reads this
    {
      && consecutiveFailureLimit >= 1
      && SupervisorExact(View(), consecutiveFailureLimit)
      && NoDuplicates(executors)
    }

    constructor (limit: nat, hasEntrypoint: bool)
      requires limit >= 1
      ensures Valid() && View() == FreshPool()
      ensures consecutiveFailureLimit == limit && this.hasEntrypoint == hasEntrypoint
    {
      executors, started, draining := [], false, false;
      consecutiveFailures, failureLimitFired := 0, false;
      events, observed, alarms := [], [], [];
      consecutiveFailureLimit := limit;
      this.hasEntrypoint := hasEntrypoint;
    }

    method BeginDrain()
      requires Valid()
      modifies this`draining
      ensures Valid() && View() == old(View()).(draining := true)
    {
      draining := true;
    }

    method ObserveExecutorStatus(executor: CoroutineJobExecutor)
      requires Valid()
      modifies this`consecutiveFailures, this`failureLimitFired, this`observed, this`alarms
      ensures Valid() && View() == Observe(old(View()), executor.status, consecutiveFailureLimit)
      ensures observed == old(observed) + [executor.status]
      ensures consecutiveFailures == if executor.status.Success? then 0 else old(consecutiveFailures) + 1
      ensures failureLimitFired <==> consecutiveFailures >= consecutiveFailureLimit
      ensures alarms == old(alarms) + if consecutiveFailures == consecutiveFailureLimit then [consecutiveFailureLimit]
          else []
    {
      ObserveKeepsSupervisorExact(View(), executor.status, consecutiveFailureLimit);
      observed := observed + [executor.status];
      if executor.status == Success {
        consecutiveFailures := 0;
        failureLimitFired := false;
        return;
      }
      consecutiveFailures := consecutiveFailures + 1;
      if consecutiveFailures >= consecutiveFailureLimit && !failureLimitFired {
        failureLimitFired := true;
        alarms := alarms + [consecutiveFailures];
      }
    }

    method RemoveExecutor(executor: CoroutineJobExecutor)
      requires executor in executors && NoDuplicates(executors)
      modifies this`executors
      ensures executors == RemoveFirst(old(executors), executor) && NoDuplicates(executors)
      ensures executor !in executors && |executors| == |old(executors)| - 1
    {
      RemoveFirstExact(executors, executor);
      var i := 0;
      while executors[i] != executor
        invariant 0 <= i <= IndexOf(executors, executor)
        decreases |executors| - i
      {
        i := i + 1;
      }
      executors := executors[..i] + executors[i + 1..];
    }

    method OnExecutorDone(executor: CoroutineJobExecutor)
      requires Valid()
      modifies this
      ensures Valid()
      ensures View() == ExecutorDone(old(View()), executor, executor.status, consecutiveFailureLimit)
      ensures executor !in old(executors) ==> View() == old(View())
      ensures executor in old(executors) ==> executor !in executors && |executors| == |old(executors)| - 1
      ensures executor in old(executors) ==> observed == old(observed) + [executor.status]
    {
      if executor !in executors {
        return;
      }
      RemoveExecutor(executor);
      events := events + [(executor, ProcessClosed)];
      ObserveExecutorStatus(executor);
    }

    /** Launches one job; on success the returned executor's task is in flight and tracked. */
    method LaunchJob(factoryRaises: bool) returns (executor: CoroutineJobExecutor?, refusal: Option<Refusal>)
      requires Valid()
      modifies this
      ensures Valid()
      ensures refusal == (if !old(started) then Some(NotStarted)
                          else if old(draining) then Some(Draining)
                          else if !hasEntrypoint then Some(ExecutorRefused(NoEntrypoint))
                          else if factoryRaises then Some(ExecutorRefused(FactoryRaised)) else None)
      ensures refusal == Some(NotStarted) || refusal == Some(Draining) ==> View() == old(View())
      ensures old(started) && !old(draining) ==>
                && executor != null && fresh(executor)
                && executor.status == Running && executor.cancels == 0
                && (refusal.None? <==> executor.task == InFlight)
                && View() == if refusal.None? then Emit(Admit(old(View()), executor), executor, JobLaunched)
                             else ExecutorDone(Admit(old(View()), executor), executor, Running, consecutiveFailureLimit)
    {
      if !started {
        return null, Some(NotStarted);
      }
      if draining {
        return null, Some(Draining);
      }
      var ex := new CoroutineJobExecutor(hasEntrypoint, true);
      executors := executors + [ex];
      events := events + [(ex, Created)];
      events := events + [(ex, ProcessStarted)];
      events := events + [(ex, Ready)];
      var error := ex.LaunchJob(factoryRaises);
      if error.Some? {
        OnExecutorDone(ex);
        return ex, Some(ExecutorRefused(error.value));
      }
      events := events + [(ex, JobLaunched)];
      return ex, None;
    }
  }
}
