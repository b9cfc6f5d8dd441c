/** The shared metrics of a worker, tied to its sessions over every run. */
module WorkerGauges {
  import opened Basics
  import opened Metrics
  import opened SessionTask
  import opened Worker

  ghost function LiveOfAgent(agent: string): Session -> bool {
    s => Live(s) && s.job.agent == agent
  }

  ghost function LiveOfTenant(tenant: string): Session -> bool {
    s => Live(s) && s.job.tenant == tenant
  }

  ghost const IS_LIVE: Session -> bool := (s: Session) => Live(s)
  ghost const HAS_STARTED: Session -> bool := (s: Session) => StartRecorded in s.log
  ghost const HAS_FAILED: Session -> bool := (s: Session) => FailureRecorded in s.log
  ghost const HAS_FINISHED: Session -> bool := (s: Session) => s.log != [] && !Live(s)

  /**
   Each gauge key counts exactly the sessions between their start and finish under that key,
   no key is kept at zero, both gauges sum to started minus finished, and the lifetime totals
   count the sessions that started and that failed.
   */
  ghost predicate GaugesExact(sessions: seq<Session>, store: Store) {
    && AllPositive(store.byAgent) && AllPositive(store.byTenant)
    && (forall a :: Get(store.byAgent, a) == Count(sessions, LiveOfAgent(a)))
    && (forall t :: Get(store.byTenant, t) == Count(sessions, LiveOfTenant(t)))
    && Total(store.byAgent) == Total(store.byTenant) == Count(sessions, IS_LIVE)
    && store.started == Count(sessions, HAS_STARTED)
    && store.started == Count(sessions, IS_LIVE) + Count(sessions, HAS_FINISHED)
    && store.failures == Count(sessions, HAS_FAILED)
  }

  /** The logs a session can have at any moment. */
  ghost predicate Shape(log: seq<Effect>) {
    || log == [] || log == Open(NoError) || log == Open(Raised)
    || log == Complete(NoError) || log == Complete(Raised) || log == Complete(Cancelled)
  }

  lemma InvShape(s: Session)
    requires Inv(s)
    ensures Shape(s.log)
  {
  }

  function One(b: bool): nat {
    if b then 1 else 0
  }

  /** How the count of `p` moves when one session changes from `s` to `t`. */
  ghost predicate Shift(before: seq<Session>, after: seq<Session>, p: Session -> bool, s: Session, t: Session) {
    Count(after, p) + One(p(s)) == Count(before, p) + One(p(t))
  }

  ghost predicate Moved(before: seq<Session>, after: seq<Session>, s: Session, t: Session) {
    && (forall a :: Shift(before, after, LiveOfAgent(a), s, t))
    && (forall b :: Shift(before, after, LiveOfTenant(b), s, t))
    && Shift(before, after, IS_LIVE, s, t) && Shift(before, after, HAS_STARTED, s, t)
    && Shift(before, after, HAS_FAILED, s, t) && Shift(before, after, HAS_FINISHED, s, t)
  }

  lemma ShiftOne(sessions: seq<Session>, i: nat, t: Session, p: Session -> bool)
    requires i < |sessions|
    ensures Shift(sessions, sessions[i := t], p, sessions[i], t)
  {
    CountUpdate(sessions, p, i, t);
  }

  lemma Move(sessions: seq<Session>, i: nat, t: Session)
    requires i < |sessions|
    ensures Moved(sessions, sessions[i := t], sessions[i], t)
  {
    forall a ensures Shift(sessions, sessions[i := t], LiveOfAgent(a), sessions[i], t) {
      ShiftOne(sessions, i, t, LiveOfAgent(a));
    }
    forall b ensures Shift(sessions, sessions[i := t], LiveOfTenant(b), sessions[i], t) {
      ShiftOne(sessions, i, t, LiveOfTenant(b));
    }
    ShiftOne(sessions, i, t, IS_LIVE);
    ShiftOne(sessions, i, t, HAS_STARTED);
    ShiftOne(sessions, i, t, HAS_FAILED);
    ShiftOne(sessions, i, t, HAS_FINISHED);
  }

  lemma SameCounts(sessions: seq<Session>, store: Store, i: nat, s: Session)
    requires i < |sessions| && s.job == sessions[i].job && s.log == sessions[i].log
    requires GaugesExact(sessions, store)
    ensures GaugesExact(sessions[i := s], store)
  {
    hide Count;
    Move(sessions, i, s);
  }

  /** What adding one effect means, given the logs a session can have. */
  lemma LogStep(s: Session, effect: Effect)
    requires Shape(s.log) && Shape(s.log + [effect])
    ensures var t := Note(s, effect);
            match effect
            case StartRecorded => s.log == [] && Live(t) && StartRecorded in t.log && FailureRecorded !in t.log
            case FailureRecorded => Live(s) && Live(t) && StartRecorded in s.log && FailureRecorded !in s.log
            case FinishRecorded(_) => Live(s) && !Live(t) && StartRecorded in s.log
    ensures forall e :: e in Note(s, effect).log <==> e in s.log || e == effect
  {
    var t := Note(s, effect);
    assert t.log[|s.log|] == effect && t.log[..|s.log|] == s.log;
  }

  /** One effect of session `i`: its log and the store move together, and a decrement never meets the floor. */
  lemma EffectKeepsGauges(sessions: seq<Session>, store: Store, i: nat, effect: Effect, message: string)
    requires i < |sessions| && GaugesExact(sessions, store)
    requires Shape(sessions[i].log) && Shape(sessions[i].log + [effect])
    ensures var s := sessions[i];
            GaugesExact(sessions[i := Note(s, effect)], ApplyEffect(store, s.job, effect, message))
    ensures effect.FinishRecorded?
        ==> sessions[i].job.agent in store.byAgent && sessions[i].job.tenant in store.byTenant
  {
    hide Count, Total, Append, Shape;
    var s := sessions[i];
    LogStep(s, effect);
    Move(sessions, i, Note(s, effect));
    match effect
    case StartRecorded =>
      IncrementGauge(store.byAgent, s.job.agent);
      IncrementGauge(store.byTenant, s.job.tenant);
    case FailureRecorded =>
    case FinishRecorded(_) =>
      CountPositive(sessions, LiveOfAgent(s.job.agent), i);
      CountPositive(sessions, LiveOfTenant(s.job.tenant), i);
      DecrementGauge(store.byAgent, s.job.agent);
      DecrementGauge(store.byTenant, s.job.tenant);
  }

  lemma {:induction false} CountPositive<T>(xs: seq<T>, p: T -> bool, i: nat)
    requires i < |xs| && p(xs[i])
    ensures Count(xs, p) > 0
  {
    if i < |xs| - 1 {
      CountPositive(xs[..|xs| - 1], p, i);
    }
  }

  lemma {:induction false} CountMonotone<T>(xs: seq<T>, p: T -> bool, q: T -> bool)
    requires forall i :: 0 <= i < |xs| && p(xs[i]) ==> q(xs[i])
    ensures Count(xs, p) <= Count(xs, q)
  {
    if xs != [] {
      CountMonotone(xs[..|xs| - 1], p, q);
    }
  }

  /** Where session `i` has recorded `log` and everything after its old log has gone to the store. */
  ghost predicate Caught(sessions: seq<Session>, store: Store, i: nat, log: seq<Effect>, message: string)
    requires i < |sessions| && sessions[i].log <= log
  {
    var s := sessions[i];
    GaugesExact(sessions[i := s.(log := log)], ApplyEffects(store, s.job, log[|s.log|..], message))
  }

  lemma CaughtUp(sessions: seq<Session>, store: Store, i: nat, log: seq<Effect>, message: string)
    requires i < |sessions| && sessions[i].log == log && GaugesExact(sessions, store)
    ensures Caught(sessions, store, i, log, message)
  {
    assert log[|log|..] == [];
    assert sessions[i := sessions[i].(log := log)] == sessions;
  }

  lemma CatchUpStep(sessions: seq<Session>, store: Store, i: nat, log: seq<Effect>, message: string)
    requires i < |sessions| && sessions[i].log < log
    requires var s, effect := sessions[i], log[|sessions[i].log|];
             Note(s, effect).log <= log
             && Caught(sessions[i := Note(s, effect)], ApplyEffect(store, s.job, effect, message), i, log, message)
    ensures Caught(sessions, store, i, log, message)
  {
    hide GaugesExact, ApplyEffect;
    var s, rest := sessions[i], log[|sessions[i].log|..];
    var t := Note(s, rest[0]);
    assert rest[1..] == log[|t.log|..];
    assert sessions[i := t][i := t.(log := log)] == sessions[i := s.(log := log)];
  }

  lemma {:induction false} EffectsKeepGauges(sessions: seq<Session>, store: Store, i: nat, log: seq<Effect>,
      message: string)
    requires i < |sessions| && GaugesExact(sessions, store)
    requires sessions[i].log <= log && Shape(sessions[i].log) && Shape(log)
    ensures Caught(sessions, store, i, log, message)
    decreases |log| - |sessions[i].log|
  {
    var s := sessions[i];
    if s.log == log {
      CaughtUp(sessions, store, i, log, message);
    } else {
      var effect := log[|s.log|];
      NextShape(s.log, log);
      EffectKeepsGauges(sessions, store, i, effect, message);
      EffectsKeepGauges(sessions[i := Note(s, effect)], ApplyEffect(store, s.job, effect, message), i, log, message);
      CatchUpStep(sessions, store, i, log, message);
    }
  }

  lemma NextShape(done: seq<Effect>, log: seq<Effect>)
    requires done < log && Shape(log)
    ensures Shape(done + [log[|done|]]) && done + [log[|done|]] <= log
  {
    assert done + [log[|done|]] == log[..|done| + 1];
    ShapePrefix(log, |done| + 1);
  }

  lemma ShapePrefix(log: seq<Effect>, n: nat)
    requires Shape(log) && n <= |log|
    ensures Shape(log[..n])
  {
    assert n == |log| ==> log[..n] == log;
    assert log != [] ==> log[0] == StartRecorded;
    assert n == 1 ==> log[..n] == Open(NoError);
    assert n == 2 < |log| ==> log[..n] == Open(Raised);
  }

  lemma AdvanceKeepsGauges(w: WorkerState, sid: nat, s: Session, message: string)
    requires sid < |w.sessions| && Later(w.sessions[sid], s) && Inv(w.sessions[sid]) && Inv(s)
    requires GaugesExact(w.sessions, w.store)
    ensures GaugesExact(Advance(w, sid, s, message).sessions, Advance(w, sid, s, message).store)
  {
    hide GaugesExact, Shape, Inv;
    var was := w.sessions[sid];
    InvShape(was);
    InvShape(s);
    EffectsKeepGauges(w.sessions, w.store, sid, s.log, message);
    var logged := w.sessions[sid := was.(log := s.log)];
    SameCounts(logged, Advance(w, sid, s, message).store, sid, s);
    assert logged[sid := s] == w.sessions[sid := s];
  }

  lemma LaunchKeepsGauges(sessions: seq<Session>, store: Store, s: Session)
    requires GaugesExact(sessions, store) && s.log == []
    ensures GaugesExact(sessions + [s], store)
  {
    forall a ensures Count(sessions + [s], LiveOfAgent(a)) == Count(sessions, LiveOfAgent(a)) {
      CountAppend(sessions, LiveOfAgent(a), s);
    }
    forall t ensures Count(sessions + [s], LiveOfTenant(t)) == Count(sessions, LiveOfTenant(t)) {
      CountAppend(sessions, LiveOfTenant(t), s);
    }
    CountAppend(sessions, IS_LIVE, s);
    CountAppend(sessions, HAS_STARTED, s);
    CountAppend(sessions, HAS_FAILED, s);
    CountAppend(sessions, HAS_FINISHED, s);
  }
}
