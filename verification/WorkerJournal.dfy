/**
 What a whole run of the worker writes to its metrics, row by row: the effects of its sessions, in
 the order they happened.
 */
module WorkerJournal {
  import opened Basics
  import opened Metrics
  import opened SessionFacts
  import opened SessionTask
  import opened Worker
  import Pool

  /** One effect of one session; the message is the text of the exception a failure is recorded with. */
  datatype Entry = Entry(sid: nat, job: Job, effect: Effect, message: string)

  function Entries(sid: nat, job: Job, effects: seq<Effect>, message: string): seq<Entry> {
    if effects == [] then []
    else [Entry(sid, job, effects[0], message)] + Entries(sid, job, effects[1..], message)
  }

  /** What a session records on its way from `before` to `after`. */
  function Stretch(sid: nat, before: Session, after: Session, message: string): seq<Entry>
    requires before.log <= after.log
  {
    Entries(sid, after.job, after.log[|before.log|..], message)
  }

  function NewEntries(w: WorkerState, step: Step): seq<Entry> {
    if !Enabled(w, step) then []
    else
      match step
      case BeginTask(sid, first) =>
        BeginLater(w.sessions[sid], first);
        Stretch(sid, w.sessions[sid], Begin(w.sessions[sid], first), "")
      case ResumeTask(sid, wake, primary, message) =>
        ResumeLater(w.sessions[sid], wake, primary);
        Stretch(sid, w.sessions[sid], Resume(w.sessions[sid], wake, primary), message)
      case _ => []
  }

  /** Every effect of a run, oldest first. */
  function Journal(limit: nat, steps: seq<Step>): seq<Entry> {
    if steps == [] then []
    else
      var init := steps[..|steps| - 1];
      Journal(limit, init) + NewEntries(Run(limit, Fresh(), init), steps[|steps| - 1])
  }

  function RowFor(entry: Entry): Row {
    match entry.effect
    case StartRecorded => SessionStarted(entry.job.agent, entry.job.tenant)
    case FailureRecorded =>
      SessionFailed(entry.job.agent, entry.job.tenant,
                    if |entry.message| <= 500 then entry.message else entry.message[..500])
    case FinishRecorded(_) => SessionFinished(entry.job.agent, entry.job.tenant)
  }

  /** The agent of the newest start or failure. */
  function LastRouted(journal: seq<Entry>): Option<string> {
    if journal == [] then None
    else
      var last := journal[|journal| - 1];
      if last.effect.FinishRecorded? then LastRouted(journal[..|journal| - 1]) else Some(last.job.agent)
  }

  function LastFailure(journal: seq<Entry>): Option<string> {
    if journal == [] then None
    else
      var last := journal[|journal| - 1];
      if last.effect.FailureRecorded? then Some(last.message) else LastFailure(journal[..|journal| - 1])
  }

  /** One row an entry: the first 256 wait to be drained, the others are only counted. */
  ghost predicate Told(store: Store, journal: seq<Entry>) {
    && store.lastAgent == LastRouted(journal) && store.lastError == LastFailure(journal)
    && |store.stream.pending| == (if |journal| <= 256 then |journal| else 256)
    && |store.stream.pending| + store.stream.overflow == |journal|
    && forall i :: 0 <= i < |store.stream.pending| ==> store.stream.pending[i] == RowFor(journal[i])
  }

  lemma TellOne(store: Store, journal: seq<Entry>, entry: Entry)
    requires Told(store, journal)
    ensures Told(ApplyEffect(store, entry.job, entry.effect, entry.message), journal + [entry])
  {
    assert (journal + [entry])[..|journal|] == journal;
  }

  lemma {:induction false} TellMore(
    store: Store, journal: seq<Entry>, sid: nat, job: Job, effects: seq<Effect>, message: string)
    requires Told(store, journal)
    ensures Told(ApplyEffects(store, job, effects, message), journal + Entries(sid, job, effects, message))
    decreases |effects|
  {
    hide Told, ApplyEffect;
    if effects == [] {
      assert journal + [] == journal;
    } else {
      var entry := Entry(sid, job, effects[0], message);
      TellOne(store, journal, entry);
      TellMore(ApplyEffect(store, job, effects[0], message), journal + [entry], sid, job, effects[1..], message);
      assert journal + Entries(sid, job, effects, message)
          == journal + [entry] + Entries(sid, job, effects[1..], message);
    }
  }

  // ---- whose effects they are ----

  function EffectsOf(journal: seq<Entry>, sid: nat): seq<Effect> {
    if journal == [] then []
    else
      var last := journal[|journal| - 1];
      EffectsOf(journal[..|journal| - 1], sid) + if last.sid == sid then [last.effect] else []
  }

  ghost predicate Attributed(sessions: seq<Session>, journal: seq<Entry>) {
    && (forall entry :: entry in journal ==> entry.sid < |sessions| && entry.job == sessions[entry.sid].job)
    && forall sid :: 0 <= sid < |sessions| ==> EffectsOf(journal, sid) == sessions[sid].log
  }

  lemma {:induction false} EffectsOfEntries(
    journal: seq<Entry>, sid: nat, job: Job, effects: seq<Effect>, message: string, other: nat)
    ensures EffectsOf(journal + Entries(sid, job, effects, message), other)
         == EffectsOf(journal, other) + if other == sid then effects else []
    decreases |effects|
  {
    var all := journal + Entries(sid, job, effects, message);
    if effects == [] {
      assert all == journal;
    } else {
      var entry := Entry(sid, job, effects[0], message);
      assert (journal + [entry])[..|journal|] == journal;
      EffectsOfEntries(journal + [entry], sid, job, effects[1..], message, other);
      assert all == journal + [entry] + Entries(sid, job, effects[1..], message);
      assert effects == [effects[0]] + effects[1..];
    }
  }

  lemma {:induction false} EntriesAreOf(sid: nat, job: Job, effects: seq<Effect>, message: string)
    ensures forall entry :: entry in Entries(sid, job, effects, message) ==> entry.sid == sid && entry.job == job
  {
    if effects != [] {
      EntriesAreOf(sid, job, effects[1..], message);
    }
  }

  /** No session has recorded anything before it was launched. */
  lemma {:induction false} NothingOf(journal: seq<Entry>, sid: nat)
    requires forall entry :: entry in journal ==> entry.sid != sid
    ensures EffectsOf(journal, sid) == []
  {
    if journal != [] {
      NothingOf(journal[..|journal| - 1], sid);
    }
  }

  lemma AttributeStretch(sessions: seq<Session>, journal: seq<Entry>, sid: nat, after: Session, message: string)
    requires sid < |sessions| && after.job == sessions[sid].job && sessions[sid].log <= after.log
    requires Attributed(sessions, journal)
    ensures Attributed(sessions[sid := after], journal + Stretch(sid, sessions[sid], after, message))
  {
    hide EffectsOf, Entries;
    var added := after.log[|sessions[sid].log|..];
    EntriesAreOf(sid, after.job, added, message);
    forall other | 0 <= other < |sessions|
      ensures EffectsOf(journal + Entries(sid, after.job, added, message), other)
           == sessions[sid := after][other].log
    {
      EffectsOfEntries(journal, sid, after.job, added, message, other);
    }
  }

  lemma AttributeSame(sessions: seq<Session>, journal: seq<Entry>, sid: nat, after: Session)
    requires sid < |sessions| && after.job == sessions[sid].job && sessions[sid].log == after.log
    requires Attributed(sessions, journal)
    ensures Attributed(sessions[sid := after], journal)
  {
    hide EffectsOf;
  }

  lemma AttributeLaunch(sessions: seq<Session>, journal: seq<Entry>, s: Session)
    requires s.log == [] && Attributed(sessions, journal)
    ensures Attributed(sessions + [s], journal)
  {
    hide EffectsOf;
    var more := sessions + [s];
    NothingOf(journal, |sessions|);
    forall sid | 0 <= sid < |more| ensures EffectsOf(journal, sid) == more[sid].log {
      assert sid < |sessions| ==> more[sid] == sessions[sid];
    }
  }

  lemma StepTold(limit: nat, w: WorkerState, step: Step, journal: seq<Entry>)
    requires Told(w.store, journal) && Attributed(w.sessions, journal)
    ensures Told(Apply(limit, w, step).store, journal + NewEntries(w, step))
    ensures Attributed(Apply(limit, w, step).sessions, journal + NewEntries(w, step))
  {
    hide Told, Attributed, Entries, ApplyEffects, Resume, Begin, CanBegin, CanResume, Pool.Admit, Pool.ExecutorDone;
    assert journal + [] == journal;
    if Enabled(w, step) {
      match step
      case BeginTask(sid, first) =>
        BeginLater(w.sessions[sid], first);
        var s := Begin(w.sessions[sid], first);
        TellMore(w.store, journal, sid, s.job, s.log[|w.sessions[sid].log|..], "");
        AttributeStretch(w.sessions, journal, sid, s, "");
      case ResumeTask(sid, wake, primary, message) =>
        ResumeLater(w.sessions[sid], wake, primary);
        var s := Resume(w.sessions[sid], wake, primary);
        TellMore(w.store, journal, sid, s.job, s.log[|w.sessions[sid].log|..], message);
        AttributeStretch(w.sessions, journal, sid, s, message);
      case Launch(job, refused) =>
        AttributeLaunch(w.sessions, journal, if refused then RefusedLaunch(job) else Launched(job));
      case DoneCallback(sid) =>
        AttributeSame(w.sessions, journal, sid, w.sessions[sid].(phase := Closed));
      case StartPool =>
      case BeginDrain =>
      case ClosePool =>
      case _ => AttributeSame(w.sessions, journal, step.sid, AfterCall(w.sessions[step.sid], step));
    }
  }

  /**
   After any run the rows written to the metrics stream, waiting or dropped, are the effects of the
   sessions in the order they happened, each with its session's agent and tenant, and a failure
   with its message cut at 500 characters; each session's own, in order, are its log; and the last
   routed agent and last error are those of the newest rows that set them.
   */
  lemma {:induction false} RowsAreTheEffects(limit: nat, steps: seq<Step>)
    ensures Told(Run(limit, Fresh(), steps).store, Journal(limit, steps))
    ensures Attributed(Run(limit, Fresh(), steps).sessions, Journal(limit, steps))
  {
    hide Apply, NewEntries;
    if steps != [] {
      var init := steps[..|steps| - 1];
      RowsAreTheEffects(limit, init);
      StepTold(limit, Run(limit, Fresh(), init), steps[|steps| - 1], Journal(limit, init));
    }
  }
}
