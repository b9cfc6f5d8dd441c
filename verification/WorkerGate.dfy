/**
 From the worker to the admission gate: what the sessions of a run record is what the breaker and
 the gauges of the gate see, each session's end exactly once.
 */
module WorkerGate {
  import opened Basics
  import opened SessionFacts
  import opened SessionTask
  import opened Worker
  import opened WorkerGauges
  import opened WorkerRuns
  import CircuitBreaker
  import Metrics
  import Pool
  import Gate = TenantIsolation

  /** A worker step, or an admission query from outside, at some time. */
  datatype Happening = Stepped(step: Step, at: real) | Asked(tenant: string, at: real)

  function Tell(job: Job, effect: Effect, message: string, at: real): Gate.GateEvent {
    match effect
    case StartRecorded => Gate.SessionStart(job.agent, job.tenant)
    case FailureRecorded => Gate.SessionFail(job.agent, job.tenant, message)
    case FinishRecorded(error) => Gate.SessionEnd(job.agent, job.tenant, error.NoError?, at)
  }

  function TellAll(job: Job, effects: seq<Effect>, message: string, at: real): seq<Gate.GateEvent> {
    if effects == [] then []
    else TellAll(job, effects[..|effects| - 1], message, at) + [Tell(job, effects[|effects| - 1], message, at)]
  }

  /** What one step makes its session record, as the gate sees it. */
  function NewEvents(w: WorkerState, step: Step, at: real): seq<Gate.GateEvent> {
    if !Enabled(w, step) then []
    else
      match step
      case BeginTask(sid, first) =>
        BeginLater(w.sessions[sid], first);
        TellAll(w.sessions[sid].job, Begin(w.sessions[sid], first).log[|w.sessions[sid].log|..], "", at)
      case ResumeTask(sid, wake, primary, message) =>
        ResumeLater(w.sessions[sid], wake, primary);
        TellAll(w.sessions[sid].job, Resume(w.sessions[sid], wake, primary).log[|w.sessions[sid].log|..], message, at)
      case _ => []
  }

  /** The worker at the end of a run, queries left out. */
  function WorkerAfter(limit: nat, run: seq<Happening>): WorkerState {
    if run == [] then Fresh()
    else
      var w := WorkerAfter(limit, run[..|run| - 1]);
      match run[|run| - 1]
      case Stepped(step, _) => Apply(limit, w, step)
      case Asked(_, _) => w
  }

  /** The gate's side of the same run. */
  function GateEvents(limit: nat, run: seq<Happening>): seq<Gate.GateEvent> {
    if run == [] then []
    else
      var init := run[..|run| - 1];
      GateEvents(limit, init)
      + match run[|run| - 1]
        case Stepped(step, at) => NewEvents(WorkerAfter(limit, init), step, at)
        case Asked(tenant, at) => [Gate.Ask(tenant, at)]
  }

  lemma {:induction false} WorkerAfterInv(limit: nat, run: seq<Happening>)
    requires limit >= 1
    ensures WorkerInv(limit, WorkerAfter(limit, run))
  {
    hide WorkerInv, Apply;
    if run == [] {
      EveryRunKeepsInv(limit, []);
      NoStep(limit);
    } else {
      var init := run[..|run| - 1];
      WorkerAfterInv(limit, init);
      if run[|run| - 1].Stepped? {
        StepKeepsInv(limit, WorkerAfter(limit, init), run[|run| - 1].step);
      }
    }
  }

  lemma NoStep(limit: nat)
    ensures Run(limit, Fresh(), []) == Fresh()
  {
  }

  // ---- the gauges ----

  lemma GateThen(cfg: CircuitBreaker.Config, events: seq<Gate.GateEvent>, event: Gate.GateEvent)
    ensures Gate.Run(cfg, events + [event]) == Gate.Step(cfg, Gate.Run(cfg, events), event)
  {
    assert (events + [event])[..|events|] == events;
  }

  lemma {:induction false} ApplyLast(store: Metrics.Store, job: Job, effects: seq<Effect>, last: Effect,
      message: string)
    ensures ApplyEffects(store, job, effects + [last], message)
         == ApplyEffect(ApplyEffects(store, job, effects, message), job, last, message)
    decreases |effects|
  {
    hide ApplyEffect;
    var all := effects + [last];
    if effects == [] {
      assert all == [last] && all[1..] == [];
    } else {
      assert all[0] == effects[0] && all[1..] == effects[1..] + [last];
      ApplyLast(ApplyEffect(store, job, effects[0], message), job, effects[1..], last, message);
    }
  }

  lemma TellStep(cfg: CircuitBreaker.Config, gate: Gate.Gate, job: Job, effect: Effect, message: string, at: real)
    ensures Gate.Step(cfg, gate, Tell(job, effect, message, at)).store == ApplyEffect(gate.store, job, effect, message)
  {
  }

  lemma {:induction false} ToldStore(
    cfg: CircuitBreaker.Config, events: seq<Gate.GateEvent>, job: Job, effects: seq<Effect>, message: string, at: real)
    ensures Gate.Run(cfg, events + TellAll(job, effects, message, at)).store
         == ApplyEffects(Gate.Run(cfg, events).store, job, effects, message)
  {
    hide Gate.Step, ApplyEffect, Gate.Run, Tell;
    if effects == [] {
      assert events + TellAll(job, effects, message, at) == events;
    } else {
      var init, last := effects[..|effects| - 1], effects[|effects| - 1];
      var before := events + TellAll(job, init, message, at);
      ToldStore(cfg, events, job, init, message, at);
      assert effects == init + [last];
      ApplyLast(Gate.Run(cfg, events).store, job, init, last, message);
      assert events + TellAll(job, effects, message, at) == before + [Tell(job, last, message, at)];
      GateThen(cfg, before, Tell(job, last, message, at));
      TellStep(cfg, Gate.Run(cfg, before), job, last, message, at);
    }
  }

  lemma StepStore(cfg: CircuitBreaker.Config, limit: nat, w: WorkerState, step: Step, at: real,
      events: seq<Gate.GateEvent>)
    requires Gate.Run(cfg, events).store == w.store
    ensures Gate.Run(cfg, events + NewEvents(w, step, at)).store == Apply(limit, w, step).store
  {
    hide Gate.Run, ApplyEffects, Resume, Begin, CanBegin, CanResume, Pool.Admit, Pool.ExecutorDone, AfterCall, TellAll;
    assert events + [] == events;
    if Enabled(w, step) {
      match step
      case BeginTask(sid, first) =>
        BeginLater(w.sessions[sid], first);
        var s := Begin(w.sessions[sid], first);
        ToldStore(cfg, events, s.job, s.log[|w.sessions[sid].log|..], "", at);
      case ResumeTask(sid, wake, primary, message) =>
        ResumeLater(w.sessions[sid], wake, primary);
        var s := Resume(w.sessions[sid], wake, primary);
        ToldStore(cfg, events, s.job, s.log[|w.sessions[sid].log|..], message, at);
      case _ =>
    }
  }

  lemma AskKeepsStore(cfg: CircuitBreaker.Config, gate: Gate.Gate, tenant: string, at: real)
    ensures Gate.Step(cfg, gate, Gate.Ask(tenant, at)).store == gate.store
  {
  }

  /** The gate's metrics are the worker's, after any run. */
  lemma {:induction false} OneStore(cfg: CircuitBreaker.Config, limit: nat, run: seq<Happening>)
    ensures Gate.Run(cfg, GateEvents(limit, run)).store == WorkerAfter(limit, run).store
  {
    if run != [] {
      var init, last := run[..|run| - 1], run[|run| - 1];
      OneStore(cfg, limit, init);
      var events := GateEvents(limit, init);
      hide Apply, NewEvents, Gate.Run, Gate.Step;
      match last
      case Stepped(step, at) => StepStore(cfg, limit, WorkerAfter(limit, init), step, at, events);
      case Asked(tenant, at) =>
        GateThen(cfg, events, Gate.Ask(tenant, at));
        AskKeepsStore(cfg, Gate.Run(cfg, events), tenant, at);
    } else {
      assert Gate.Run(cfg, []).store == Fresh().store;
    }
  }

  // ---- the ends ----

  predicate IsEnd(effect: Effect, success: bool) {
    effect.FinishRecorded? && (effect.error.NoError? <==> success)
  }

  /** How many ends of this kind a log holds. */
  function EndsIn(log: seq<Effect>, success: bool): nat {
    if log == [] then 0 else EndsIn(log[..|log| - 1], success) + One(IsEnd(log[|log| - 1], success))
  }

  /** How many ends of this kind the sessions of a tenant hold. */
  function EndsOf(sessions: seq<Session>, tenant: string, success: bool): nat {
    if sessions == [] then 0
    else
      var last := sessions[|sessions| - 1];
      EndsOf(sessions[..|sessions| - 1], tenant, success)
      + if last.job.tenant == tenant then EndsIn(last.log, success) else 0
  }

  function Records(history: seq<CircuitBreaker.Event>, success: bool): nat {
    if history == [] then 0
    else
      var last := history[|history| - 1];
      Records(history[..|history| - 1], success) + One(last.Recorded? && last.success == success)
  }

  lemma {:induction false} EndsInConcat(a: seq<Effect>, b: seq<Effect>, success: bool)
    ensures EndsIn(a + b, success) == EndsIn(a, success) + EndsIn(b, success)
  {
    if b == [] {
      assert a + b == a;
    } else {
      EndsInConcat(a, b[..|b| - 1], success);
      assert (a + b)[..|a + b| - 1] == a + b[..|b| - 1];
    }
  }

  lemma {:induction false} EndsOfUpdate(sessions: seq<Session>, sid: nat, s: Session, tenant: string, success: bool)
    requires sid < |sessions| && s.job == sessions[sid].job && sessions[sid].log <= s.log
    ensures EndsOf(sessions[sid := s], tenant, success)
         == EndsOf(sessions, tenant, success)
            + if s.job.tenant == tenant then EndsIn(s.log[|sessions[sid].log|..], success) else 0
  {
    var n := |sessions| - 1;
    if sid == n {
      var old_, new_ := sessions[sid].log, s.log[|sessions[sid].log|..];
      assert sessions[sid := s][..n] == sessions[..n] && s.log == old_ + new_;
      EndsInConcat(old_, new_, success);
    } else {
      assert sessions[sid := s][..n] == sessions[..n][sid := s];
      EndsOfUpdate(sessions[..n], sid, s, tenant, success);
    }
  }

  lemma HistoryThen(events: seq<Gate.GateEvent>, event: Gate.GateEvent, tenant: string, success: bool)
    ensures Records(Gate.BreakerHistory(events + [event], tenant), success)
         == Records(Gate.BreakerHistory(events, tenant), success)
            + One(event.SessionEnd? && event.tenant == tenant && event.success == success)
  {
    assert (events + [event])[..|events|] == events;
    var h := Gate.BreakerHistory(events, tenant);
    var h' := Gate.BreakerHistory(events + [event], tenant);
    if h' != h {
      assert h'[..|h|] == h && |h'| == |h| + 1;
    }
  }

  lemma {:induction false} ToldEnds(
    events: seq<Gate.GateEvent>, job: Job, effects: seq<Effect>, message: string, at: real, tenant: string,
      success: bool)
    ensures Records(Gate.BreakerHistory(events + TellAll(job, effects, message, at), tenant), success)
         == Records(Gate.BreakerHistory(events, tenant), success)
            + if job.tenant == tenant then EndsIn(effects, success) else 0
  {
    hide Gate.BreakerHistory, Records;
    if effects == [] {
      assert events + TellAll(job, effects, message, at) == events;
    } else {
      var init, last := effects[..|effects| - 1], effects[|effects| - 1];
      ToldEnds(events, job, init, message, at, tenant, success);
      var before := events + TellAll(job, init, message, at);
      assert events + TellAll(job, effects, message, at) == before + [Tell(job, last, message, at)];
      HistoryThen(before, Tell(job, last, message, at), tenant, success);
    }
  }

  lemma StepEnds(
    limit: nat, w: WorkerState, step: Step, at: real, events: seq<Gate.GateEvent>, tenant: string, success: bool)
    requires Records(Gate.BreakerHistory(events, tenant), success) == EndsOf(w.sessions, tenant, success)
    ensures Records(Gate.BreakerHistory(events + NewEvents(w, step, at), tenant), success)
         == EndsOf(Apply(limit, w, step).sessions, tenant, success)
  {
    hide Gate.BreakerHistory, Records, EndsOf, EndsIn, ApplyEffects, Resume, Begin, CanBegin, CanResume, Pool.Admit,
      Pool.ExecutorDone, TellAll;
    assert events + [] == events;
    if Enabled(w, step) {
      match step
      case BeginTask(sid, first) =>
        BeginLater(w.sessions[sid], first);
        var s := Begin(w.sessions[sid], first);
        ToldEnds(events, s.job, s.log[|w.sessions[sid].log|..], "", at, tenant, success);
        EndsOfUpdate(w.sessions, sid, s, tenant, success);
      case ResumeTask(sid, wake, primary, message) =>
        ResumeLater(w.sessions[sid], wake, primary);
        var s := Resume(w.sessions[sid], wake, primary);
        ToldEnds(events, s.job, s.log[|w.sessions[sid].log|..], message, at, tenant, success);
        EndsOfUpdate(w.sessions, sid, s, tenant, success);
      case Launch(job, refused) =>
        LaunchAddsNoEnd(w.sessions, if refused then RefusedLaunch(job) else Launched(job), tenant, success);
      case DoneCallback(sid) =>
        SameLogSameEnds(w.sessions, sid, w.sessions[sid].(phase := Closed), tenant, success);
      case StartPool =>
      case BeginDrain =>
      case ClosePool =>
      case _ => SameLogSameEnds(w.sessions, step.sid, AfterCall(w.sessions[step.sid], step), tenant, success);
    }
  }

  lemma LaunchAddsNoEnd(sessions: seq<Session>, s: Session, tenant: string, success: bool)
    requires s.log == []
    ensures EndsOf(sessions + [s], tenant, success) == EndsOf(sessions, tenant, success)
  {
    assert (sessions + [s])[..|sessions|] == sessions;
  }

  lemma SameLogSameEnds(sessions: seq<Session>, sid: nat, s: Session, tenant: string, success: bool)
    requires sid < |sessions| && s.job == sessions[sid].job && s.log == sessions[sid].log
    ensures EndsOf(sessions[sid := s], tenant, success) == EndsOf(sessions, tenant, success)
  {
    EndsOfUpdate(sessions, sid, s, tenant, success);
    assert s.log[|s.log|..] == [];
  }

  lemma {:induction false} RecordsAreEnds(limit: nat, run: seq<Happening>, tenant: string, success: bool)
    ensures Records(Gate.BreakerHistory(GateEvents(limit, run), tenant), success)
         == EndsOf(WorkerAfter(limit, run).sessions, tenant, success)
  {
    if run != [] {
      var init, last := run[..|run| - 1], run[|run| - 1];
      RecordsAreEnds(limit, init, tenant, success);
      hide Apply, NewEvents, Gate.BreakerHistory, Records, EndsOf;
      var events := GateEvents(limit, init);
      match last
      case Stepped(step, at) => StepEnds(limit, WorkerAfter(limit, init), step, at, events, tenant, success);
      case Asked(who, at) => HistoryThen(events, Gate.Ask(who, at), tenant, success);
    }
  }

  /** A session of this tenant that has reported an end of this kind. */
  ghost function Ended(tenant: string, success: bool): Session -> bool {
    (s: Session) => s.job.tenant == tenant
                    && if success then s.log == Complete(NoError)
                       else s.log == Complete(Raised) || s.log == Complete(Cancelled)
  }

  lemma ShapeEnds(s: Session, tenant: string, success: bool)
    requires Shape(s.log)
    ensures (if s.job.tenant == tenant then EndsIn(s.log, success) else 0) == One(Ended(tenant, success)(s))
  {
    assert Complete(NoError) == [StartRecorded, FinishRecorded(NoError)];
    assert Complete(Cancelled) == [StartRecorded, FinishRecorded(Cancelled)];
    assert Complete(Raised) == [StartRecorded, FailureRecorded, FinishRecorded(Raised)];
    if s.log != [] {
      EndsInShort(s.log, success);
    }
  }

  lemma EndsInShort(log: seq<Effect>, success: bool)
    requires 1 <= |log| <= 3
    ensures EndsIn(log, success)
         == One(IsEnd(log[0], success)) + (if |log| > 1 then One(IsEnd(log[1], success)) else 0)
            + (if |log| > 2 then One(IsEnd(log[2], success)) else 0)
  {
    EndsInConcat(log[..1], log[1..], success);
    assert log == log[..1] + log[1..];
    EndsInOne(log[0], success);
    assert log[..1] == [log[0]];
    if |log| > 1 {
      assert log[1..] == [log[1]] + log[2..];
      EndsInConcat([log[1]], log[2..], success);
      EndsInOne(log[1], success);
      if |log| > 2 {
        assert log[2..] == [log[2]];
        EndsInOne(log[2], success);
      }
    }
  }

  lemma EndsInOne(effect: Effect, success: bool)
    ensures EndsIn([effect], success) == One(IsEnd(effect, success))
  {
    assert [effect][..0] == [];
  }

  lemma {:induction false} EndsAreSessions(sessions: seq<Session>, tenant: string, success: bool)
    requires forall i :: 0 <= i < |sessions| ==> Shape(sessions[i].log)
    ensures EndsOf(sessions, tenant, success) == Count(sessions, Ended(tenant, success))
  {
    hide Shape, EndsIn;
    if sessions != [] {
      var n := |sessions| - 1;
      assert forall i :: 0 <= i < n ==> sessions[..n][i] == sessions[i];
      EndsAreSessions(sessions[..n], tenant, success);
      ShapeEnds(sessions[n], tenant, success);
    }
  }

  /**
   After any run, with queries at any time, the breaker holds for a tenant exactly what its own
   history makes of it, and that history records, success by success and failure by failure, the
   end of each session of the tenant that has ended, once.
   */
  lemma BreakerSeesEachEnd(cfg: CircuitBreaker.Config, limit: nat, run: seq<Happening>, tenant: string, success: bool)
    requires limit >= 1
    ensures var history := Gate.BreakerHistory(GateEvents(limit, run), tenant);
            && Gate.SlotAt(Gate.Run(cfg, GateEvents(limit, run)), tenant)
               == CircuitBreaker.Replay(cfg, CircuitBreaker.CLOSED, history)
            && Records(history, success) == Count(WorkerAfter(limit, run).sessions, Ended(tenant, success))
  {
    hide WorkerAfter, GateEvents, EndsOf, Records, Gate.BreakerHistory;
    Gate.SlotIsOwnReplay(cfg, GateEvents(limit, run), tenant);
    RecordsAreEnds(limit, run, tenant, success);
    WorkerAfterInv(limit, run);
    var w := WorkerAfter(limit, run);
    forall i | 0 <= i < |w.sessions| ensures Shape(w.sessions[i].log) {
      SessionOf(limit, w, i);
      InvShape(w.sessions[i]);
    }
    EndsAreSessions(w.sessions, tenant, success);
  }

  lemma SessionOf(limit: nat, w: WorkerState, sid: nat)
    requires WorkerInv(limit, w) && sid < |w.sessions|
    ensures Inv(w.sessions[sid])
  {
  }
}
