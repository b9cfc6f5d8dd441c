/**
 The per-tenant circuit breaker, and the specification it refines: everything it holds can be
 recomputed from the history of one tenant's events. Times and ratios are reals.
 */
module CircuitBreaker {
  import opened Basics

  datatype Config = Config(failureRatio: real, minSamples: int, window: real, cooldown: real)

  datatype Outcome = Outcome(at: real, success: bool)

  datatype Event = Recorded(at: real, success: bool) | Queried(at: real)

  /** One tenant's deque and open-until time; `notes` are its state-change calls, `true` for "open". */
  datatype Slot = Slot(outcomes: seq<Outcome>, openUntil: Option<real>, notes: seq<bool>)

  const CLOSED := Slot([], None, [])

  function Failures(outcomes: seq<Outcome>): nat {
    if outcomes == [] then 0
    else Failures(outcomes[..|outcomes| - 1]) + if outcomes[|outcomes| - 1].success then 0 else 1
  }

  /** Enough samples, and strictly over the ratio. */
  predicate Trips(cfg: Config, outcomes: seq<Outcome>) {
    |outcomes| > 0 && |outcomes| >= cfg.minSamples
    && Failures(outcomes) as real / |outcomes| as real > cfg.failureRatio
  }

  /** `_prune`: pop from the left while the oldest outcome is before the cutoff. */
  function Prune(outcomes: seq<Outcome>, cutoff: real): seq<Outcome> {
    if outcomes != [] && outcomes[0].at < cutoff then Prune(outcomes[1..], cutoff) else outcomes
  }

  function Record(cfg: Config, slot: Slot, now: real, success: bool): Slot {
    var outcomes := Prune(slot.outcomes + [Outcome(now, success)], now - cfg.window);
    if slot.openUntil.None? && Trips(cfg, outcomes) then Slot([], Some(now + cfg.cooldown), slot.notes + [true])
    else slot.(outcomes := outcomes)
  }

  predicate Rejects(slot: Slot, now: real) {
    slot.openUntil.Some? && now < slot.openUntil.value
  }

  function Query(slot: Slot, now: real): Slot {
    if slot.openUntil.Some? && now >= slot.openUntil.value then slot.(openUntil := None, notes := slot.notes + [false])
    else slot
  }

  function Apply(cfg: Config, slot: Slot, event: Event): Slot {
    match event
    case Recorded(at, success) => Record(cfg, slot, at, success)
    case Queried(at) => Query(slot, at)
  }

  function Replay(cfg: Config, slot: Slot, history: seq<Event>): Slot {
    if history == [] then slot
    else Apply(cfg, Replay(cfg, slot, history[..|history| - 1]), history[|history| - 1])
  }

  lemma ReplayThen(cfg: Config, slot: Slot, history: seq<Event>, event: Event)
    ensures Replay(cfg, slot, history + [event]) == Apply(cfg, Replay(cfg, slot, history), event)
  {
    assert (history + [event])[..|history|] == history;
  }

  // ---- the specification: recompute from the whole history ----

  /** The outcomes recorded in `history` at or after `cutoff`. */
  function Recent(history: seq<Event>, cutoff: real): seq<Outcome> {
    if history == [] then []
    else
      var last := history[|history| - 1];
      Recent(history[..|history| - 1], cutoff)
      + if last.Recorded? && last.at >= cutoff then [Outcome(last.at, last.success)] else []
  }

  /** The events after the last opening. */
  ghost function Since(cfg: Config, history: seq<Event>): seq<Event>
    decreases |history|, 1
  {
    if history == [] || Opens(cfg, history) then []
    else Since(cfg, history[..|history| - 1]) + [history[|history| - 1]]
  }

  /** When it last opened, if it ever did. */
  ghost function OpenedAt(cfg: Config, history: seq<Event>): Option<real>
    decreases |history|, 1
  {
    if history == [] then None
    else if Opens(cfg, history) then Some(history[|history| - 1].at)
    else OpenedAt(cfg, history[..|history| - 1])
  }

  /**
   The last event of `history` opens the breaker: it is a record, the breaker was closed, and
   the outcomes since the previous opening that are within the window of this record trip it.
   */
  ghost predicate Opens(cfg: Config, history: seq<Event>)
    requires history != []
    decreases |history|, 0
  {
    var before, last := history[..|history| - 1], history[|history| - 1];
    last.Recorded? && !IsOpen(cfg, before)
    && Trips(cfg, Recent(Since(cfg, before) + [last], last.at - cfg.window))
  }

  /** It opened, and no query since then came as late as the end of the cooldown. */
  ghost predicate IsOpen(cfg: Config, history: seq<Event>)
    decreases |history|, 2
  {
    var opened_ := OpenedAt(cfg, history);
    opened_.Some? && forall e :: e in Since(cfg, history) && e.Queried? ==> e.at < opened_.value + cfg.cooldown
  }

  /** The time of the last record, if there is one. */
  function LastRecord(history: seq<Event>): Option<real> {
    if history == [] then None
    else if history[|history| - 1].Recorded? then Some(history[|history| - 1].at)
    else LastRecord(history[..|history| - 1])
  }

  /** The window of the last record since the last opening. */
  function WindowOf(cfg: Config, since: seq<Event>): seq<Outcome> {
    match LastRecord(since)
    case None => []
    case Some(at) => Recent(since, at - cfg.window)
  }

  ghost predicate Refines(cfg: Config, slot: Slot, history: seq<Event>) {
    && slot.outcomes == WindowOf(cfg, Since(cfg, history))
    && slot.openUntil == if IsOpen(cfg, history) then Some(OpenedAt(cfg, history).value + cfg.cooldown) else None
  }

  ghost predicate ClockNeverGoesBack(history: seq<Event>) {
    history != [] ==>
      ClockNeverGoesBack(history[..|history| - 1])
      && forall e :: e in history[..|history| - 1] ==> e.at <= history[|history| - 1].at
  }

  // ---- the deque is the window ----

  function Within(outcomes: seq<Outcome>, cutoff: real): seq<Outcome> {
    if outcomes == [] then []
    else Within(outcomes[..|outcomes| - 1], cutoff)
         + if outcomes[|outcomes| - 1].at >= cutoff then [outcomes[|outcomes| - 1]] else []
  }

  ghost predicate Sorted(outcomes: seq<Outcome>) {
    forall i, j :: 0 <= i <= j < |outcomes| ==> outcomes[i].at <= outcomes[j].at
  }

  lemma {:induction false} WithinAll(outcomes: seq<Outcome>, cutoff: real)
    requires forall i :: 0 <= i < |outcomes| ==> outcomes[i].at >= cutoff
    ensures Within(outcomes, cutoff) == outcomes
  {
    if outcomes != [] {
      WithinAll(outcomes[..|outcomes| - 1], cutoff);
    }
  }

  lemma {:induction false} WithinSkipsOldHead(outcomes: seq<Outcome>, cutoff: real)
    requires outcomes != [] && outcomes[0].at < cutoff
    ensures Within(outcomes, cutoff) == Within(outcomes[1..], cutoff)
  {
    var n := |outcomes| - 1;
    if n > 0 {
      WithinSkipsOldHead(outcomes[..n], cutoff);
      assert outcomes[..n][1..] == outcomes[1..][..n - 1];
    }
  }

  /** On a sorted deque, popping from the left leaves exactly what is within the window. */
  lemma {:induction false} PruneIsWithin(outcomes: seq<Outcome>, cutoff: real)
    requires Sorted(outcomes)
    ensures Prune(outcomes, cutoff) == Within(outcomes, cutoff)
  {
    if outcomes != [] && outcomes[0].at < cutoff {
      PruneIsWithin(outcomes[1..], cutoff);
      WithinSkipsOldHead(outcomes, cutoff);
    } else {
      WithinAll(outcomes, cutoff);
    }
  }

  /** A later cutoff can be applied to an earlier window as well as to the whole history. */
  lemma {:induction false} RecentNarrows(history: seq<Event>, early: real, late: real)
    requires early <= late
    ensures Within(Recent(history, early), late) == Recent(history, late)
  {
    if history != [] {
      var init, last := history[..|history| - 1], history[|history| - 1];
      RecentNarrows(init, early, late);
      if last.Recorded? && last.at >= early {
        WithinAppend(Recent(init, early), Outcome(last.at, last.success), late);
      } else {
        assert Recent(history, early) == Recent(init, early);
        assert Recent(history, late) == Recent(init, late);
      }
    }
  }

  lemma {:induction false} RecentSorted(history: seq<Event>, cutoff: real)
    requires ClockNeverGoesBack(history)
    ensures Sorted(Recent(history, cutoff))
    ensures forall o :: o in Recent(history, cutoff) ==> exists e :: e in history && e.at == o.at
  {
    if history != [] {
      var init, last := history[..|history| - 1], history[|history| - 1];
      RecentSorted(init, cutoff);
      assert history == init + [last];
    }
  }

  lemma {:induction false} NoRecords(history: seq<Event>, cutoff: real)
    requires LastRecord(history).None?
    ensures Recent(history, cutoff) == []
  {
    if history != [] {
      NoRecords(history[..|history| - 1], cutoff);
    }
  }

  lemma {:induction false} LastRecordSeen(history: seq<Event>)
    requires LastRecord(history).Some?
    ensures exists e :: e in history && e.at == LastRecord(history).value
  {
    if history[|history| - 1].Queried? {
      LastRecordSeen(history[..|history| - 1]);
      assert forall e :: e in history[..|history| - 1] ==> e in history;
    }
  }

  lemma RecentAppend(history: seq<Event>, event: Event, cutoff: real)
    ensures Recent(history + [event], cutoff)
         == Recent(history, cutoff)
            + if event.Recorded? && event.at >= cutoff then [Outcome(event.at, event.success)] else []
  {
    assert (history + [event])[..|history|] == history;
  }

  lemma WithinAppend(outcomes: seq<Outcome>, o: Outcome, cutoff: real)
    ensures Within(outcomes + [o], cutoff) == Within(outcomes, cutoff) + if o.at >= cutoff then [o] else []
  {
    assert (outcomes + [o])[..|outcomes|] == outcomes;
  }

  /** The deque after a record: the old window with the new outcome, pruned, is the new window. */
  lemma PruneStep(cfg: Config, since: seq<Event>, now: real, success: bool)
    requires ClockNeverGoesBack(since)
    requires forall e :: e in since ==> e.at <= now
    ensures Prune(WindowOf(cfg, since) + [Outcome(now, success)], now - cfg.window)
         == Recent(since + [Recorded(now, success)], now - cfg.window)
  {
    hide Recent, Within, Prune;
    var o, late := Outcome(now, success), now - cfg.window;
    var window := WindowOf(cfg, since);
    RecentAppend(since, Recorded(now, success), late);
    WithinAppend(window, o, late);
    match LastRecord(since) {
      case None =>
        NoRecords(since, late);
        NoRecords(since, 0.0);
        PruneIsWithin([] + [o], late);
        NoRecords([], late);
        WithinAll([], late);
      case Some(at) =>
        LastRecordSeen(since);
        RecentSorted(since, at - cfg.window);
        PruneIsWithin(window + [o], late);
        RecentNarrows(since, at - cfg.window, late);
    }
  }

  // ---- refinement ----

  /** How the specification moves when the history grows by one event. */
  lemma SpecStep(cfg: Config, before: seq<Event>, event: Event)
    ensures var h := before + [event];
            && (Opens(cfg, h) <==> event.Recorded? && !IsOpen(cfg, before)
                                   && Trips(cfg, Recent(Since(cfg, before) + [event], event.at - cfg.window)))
            && Since(cfg, h) == (if Opens(cfg, h) then [] else Since(cfg, before) + [event])
            && OpenedAt(cfg, h) == (if Opens(cfg, h) then Some(event.at) else OpenedAt(cfg, before))
  {
    assert (before + [event])[..|before|] == before;
  }

  lemma {:induction false} SinceFromHistory(cfg: Config, history: seq<Event>)
    requires ClockNeverGoesBack(history)
    ensures ClockNeverGoesBack(Since(cfg, history))
    ensures forall e :: e in Since(cfg, history) ==> e in history
  {
    if history != [] && !Opens(cfg, history) {
      var init, last := history[..|history| - 1], history[|history| - 1];
      SinceFromHistory(cfg, init);
      assert history == init + [last];
      var since := Since(cfg, init);
      assert (since + [last])[..|since|] == since;
    }
  }

  lemma QueryRefines(cfg: Config, before: seq<Event>, slot: Slot, now: real)
    requires Refines(cfg, slot, before)
    ensures Refines(cfg, Query(slot, now), before + [Queried(now)])
    ensures Rejects(slot, now) <==> IsOpen(cfg, before + [Queried(now)])
  {
    hide Since, OpenedAt, Opens, Recent;
    var h, since := before + [Queried(now)], Since(cfg, before);
    SpecStep(cfg, before, Queried(now));
    assert Since(cfg, h) == since + [Queried(now)];
    assert (since + [Queried(now)])[..|since|] == since;
    if LastRecord(since).Some? {
      RecentAppend(since, Queried(now), LastRecord(since).value - cfg.window);
    }
  }

  lemma RecordRefines(cfg: Config, before: seq<Event>, slot: Slot, now: real, success: bool)
    requires Refines(cfg, slot, before)
    requires ClockNeverGoesBack(before) && forall e :: e in before ==> e.at <= now
    ensures Refines(cfg, Record(cfg, slot, now, success), before + [Recorded(now, success)])
    ensures (slot.openUntil.None? && Record(cfg, slot, now, success).openUntil.Some?)
        <==> Opens(cfg, before + [Recorded(now, success)])
  {
    hide Since, OpenedAt, Opens, Recent, Trips, Prune, ClockNeverGoesBack;
    var event, since := Recorded(now, success), Since(cfg, before);
    SpecStep(cfg, before, event);
    SinceFromHistory(cfg, before);
    PruneStep(cfg, since, now, success);
    assert (since + [event])[..|since|] == since && LastRecord(since + [event]) == Some(now);
  }

  /**
   With a clock that never goes back, the deque and the open-until time after any history are
   exactly what the specification recomputes from it; a query rejects exactly when the breaker
   is then open.
   */
  lemma {:induction false} ReplayRefinesSpec(cfg: Config, history: seq<Event>)
    requires ClockNeverGoesBack(history)
    ensures Refines(cfg, Replay(cfg, CLOSED, history), history)
  {
    if history != [] {
      hide Refines, Record, Query;
      var init, last := history[..|history| - 1], history[|history| - 1];
      ReplayRefinesSpec(cfg, init);
      assert init + [last] == history;
      match last
      case Recorded(at, success) => RecordRefines(cfg, init, Replay(cfg, CLOSED, init), at, success);
      case Queried(at) => QueryRefines(cfg, init, Replay(cfg, CLOSED, init), at);
    }
  }

  // ---- what trips it ----

  /** The positions of the outcomes that are not a success. */
  function FailedAt(outcomes: seq<Outcome>): set<nat> {
    set i: nat | i < |outcomes| && !outcomes[i].success
  }

  lemma {:induction false} FailuresAreCounted(outcomes: seq<Outcome>)
    ensures Failures(outcomes) == |FailedAt(outcomes)| <= |outcomes|
  {
    if outcomes != [] {
      var n := |outcomes| - 1;
      FailuresAreCounted(outcomes[..n]);
      var fewer := FailedAt(outcomes[..n]);
      assert FailedAt(outcomes) == if outcomes[n].success then fewer else fewer + {n};
    }
  }

  /** Some outcomes, enough of them, and of these strictly more failed than the ratio allows. */
  predicate TooManyFailed(cfg: Config, outcomes: seq<Outcome>) {
    && |outcomes| > 0 && |outcomes| >= cfg.minSamples
    && |FailedAt(outcomes)| as real > cfg.failureRatio * |outcomes| as real
  }

  lemma TripsExactly(cfg: Config, outcomes: seq<Outcome>)
    ensures Trips(cfg, outcomes) <==> TooManyFailed(cfg, outcomes)
  {
    FailuresAreCounted(outcomes);
    if |outcomes| > 0 {
      OverRatio(Failures(outcomes) as real, |outcomes| as real, cfg.failureRatio);
    }
  }

  lemma OverRatio(failures: real, total: real, ratio: real)
    requires total > 0.0
    ensures failures / total > ratio <==> failures > ratio * total
  {
    var q := failures / total;
    assert q * total == failures;
    if q > ratio {
      assert (q - ratio) * total > 0.0;
    } else {
      assert (ratio - q) * total >= 0.0;
    }
  }

  /**
   After any history on a clock that never goes back, a closed breaker opens on a record exactly
   when the outcomes recorded since it last opened, within the window of this record, are not
   fewer than the minimum and not none, and those of them that failed are strictly more than the
   ratio allows; it then stays open until the cooldown is over, with an empty deque.
   */
  lemma OpensExactly(cfg: Config, history: seq<Event>, now: real, success: bool)
    requires ClockNeverGoesBack(history) && forall e :: e in history ==> e.at <= now
    requires Replay(cfg, CLOSED, history).openUntil.None?
    ensures var window := Recent(Since(cfg, history) + [Recorded(now, success)], now - cfg.window);
            var after := Record(cfg, Replay(cfg, CLOSED, history), now, success);
            if TooManyFailed(cfg, window) then after.openUntil == Some(now + cfg.cooldown) && after.outcomes == []
            else after.openUntil.None? && after.outcomes == window
  {
    hide Since, OpenedAt, IsOpen, Recent, Trips, TooManyFailed, Prune, ClockNeverGoesBack, Replay, WindowOf, Refines,
      Record;
    var since, slot := Since(cfg, history), Replay(cfg, CLOSED, history);
    var window := Recent(since + [Recorded(now, success)], now - cfg.window);
    ReplayRefinesSpec(cfg, history);
    SinceFromHistory(cfg, history);
    PruneStep(cfg, since, now, success);
    RefinedDeque(cfg, slot, history);
    TripsExactly(cfg, window);
    RecordClosed(cfg, slot, now, success, window);
  }

  lemma RefinedDeque(cfg: Config, slot: Slot, history: seq<Event>)
    requires Refines(cfg, slot, history)
    ensures slot.outcomes == WindowOf(cfg, Since(cfg, history))
  {
    hide Since, IsOpen, OpenedAt, WindowOf;
  }

  lemma RecordClosed(cfg: Config, slot: Slot, now: real, success: bool, window: seq<Outcome>)
    requires slot.openUntil.None? && Prune(slot.outcomes + [Outcome(now, success)], now - cfg.window) == window
    ensures var after := Record(cfg, slot, now, success);
            if Trips(cfg, window) then after.openUntil == Some(now + cfg.cooldown) && after.outcomes == []
            else after.openUntil.None? && after.outcomes == window
  {
    hide Trips, Prune;
  }

  /** Successes alone never open it, whatever the minimum. */
  lemma AllSuccessesNeverOpen(cfg: Config, outcomes: seq<Outcome>)
    requires cfg.failureRatio >= 0.0 && forall i :: 0 <= i < |outcomes| ==> outcomes[i].success
    ensures !Trips(cfg, outcomes)
  {
    TripsExactly(cfg, outcomes);
    assert FailedAt(outcomes) == {};
  }

  /** Exactly at the ratio does not open it. */
  lemma AtTheRatioStaysClosed(cfg: Config, outcomes: seq<Outcome>)
    requires |FailedAt(outcomes)| as real == cfg.failureRatio * |outcomes| as real
    ensures !Trips(cfg, outcomes)
  {
    TripsExactly(cfg, outcomes);
  }

  // ---- notifications and cooldown ----

  /** Open, closed, open, closed, ...: starting with open. */
  ghost predicate Alternating(notes: seq<bool>) {
    forall i :: 0 <= i < |notes| ==> (notes[i] <==> i % 2 == 0)
  }

  /** On any history, with any clock, notifications alternate, and the breaker is open exactly after an "open". */
  lemma {:induction false} NotesAlternate(cfg: Config, history: seq<Event>)
    ensures var s := Replay(cfg, CLOSED, history);
            Alternating(s.notes) && (s.openUntil.Some? <==> |s.notes| % 2 == 1)
  {
    if history != [] {
      NotesAlternate(cfg, history[..|history| - 1]);
    }
  }

  /** However outcomes arrive, an open breaker keeps its deadline, and rejects, until a query reaches the deadline. */
  lemma {:induction false} RejectsThroughCooldown(cfg: Config, slot: Slot, history: seq<Event>, now: real)
    requires slot.openUntil.Some? && now < slot.openUntil.value
    requires forall i :: 0 <= i < |history| && history[i].Queried? ==> history[i].at < slot.openUntil.value
    ensures Replay(cfg, slot, history).openUntil == slot.openUntil
    ensures Rejects(Replay(cfg, slot, history), now)
  {
    if history != [] {
      RejectsThroughCooldown(cfg, slot, history[..|history| - 1], now);
    }
  }

  /** The first query at or after the deadline is accepted and closes the breaker. */
  lemma FirstLateQueryRecovers(cfg: Config, slot: Slot, history: seq<Event>, now: real)
    requires slot.openUntil.Some? && now >= slot.openUntil.value
    requires forall i :: 0 <= i < |history| && history[i].Queried? ==> history[i].at < slot.openUntil.value
    ensures var s := Replay(cfg, slot, history);
            !Rejects(s, now) && Query(s, now).openUntil.None? && Query(s, now).notes == s.notes + [false]
  {
    RejectsThroughCooldown(cfg, slot, history, slot.openUntil.value - 1.0);
  }

  // ---- the class ----

  /** All tenants at once, as the source keeps them: one map of deques, one map of deadlines. */
  datatype Tenants = Tenants(
    outcomes: map<string, seq<Outcome>>, openUntil: map<string, real>, notes: map<string, seq<bool>>)

  function SlotOf(all: Tenants, tenant: string): Slot {
    Slot(if tenant in all.outcomes then all.outcomes[tenant] else [],
         if tenant in all.openUntil then Some(all.openUntil[tenant]) else None,
         if tenant in all.notes then all.notes[tenant] else [])
  }

  class TenantCircuitBreaker {
    const cfg: Config
    var outcomes: map<string, seq<Outcome>>
    var openUntil: map<string, real>
    ghost var notes: map<string, seq<bool>>

    ghost function View(): Tenants
      reads this
    {
      Tenants(outcomes, openUntil, notes)
    }

    constructor (cfg: Config)
      ensures this.cfg == cfg && forall t :: SlotOf(View(), t) == CLOSED
    {
      this.cfg := cfg;
      outcomes, openUntil, notes := map[], map[], map[];
    }

    ghost method Notify(tenant: string, opened_: bool)
      modifies this`notes
      ensures notes == old(notes)[tenant := SlotOf(old(View()), tenant).notes + [opened_]]
    {
      notes := notes[tenant := (if tenant in notes then notes[tenant] else []) + [opened_]];
    }

    method PruneOutcomes(deque: seq<Outcome>, now: real) returns (kept: seq<Outcome>)
      ensures kept == Prune(deque, now - cfg.window)
    {
      var cutoff := now - cfg.window;
      kept := deque;
      while kept != [] && kept[0].at < cutoff
        invariant Prune(kept, cutoff) == Prune(deque, cutoff)
        decreases |kept|
      {
        kept := kept[1..];
      }
    }

    method CountFailures(deque: seq<Outcome>) returns (failures: nat)
      ensures failures == Failures(deque) == |FailedAt(deque)|
    {
      failures := 0;
      for i := 0 to |deque|
        invariant failures == Failures(deque[..i])
      {
        assert deque[..i + 1][..i] == deque[..i];
        if !deque[i].success {
          failures := failures + 1;
        }
      }
      assert deque[..|deque|] == deque;
      FailuresAreCounted(deque);
    }

    /** Whether strictly more of these failed than the ratio allows. */
    method ExceedsRatio(deque: seq<Outcome>) returns (over: bool)
      requires deque != []
      ensures over <==> Failures(deque) as real / |deque| as real > cfg.failureRatio
      ensures over <==> |FailedAt(deque)| as real > cfg.failureRatio * |deque| as real
    {
      var failures := CountFailures(deque);
      OverRatio(failures as real, |deque| as real, cfg.failureRatio);
      return failures as real / |deque| as real > cfg.failureRatio;
    }

    method Open(tenant: string, now: real)
      modifies this
      ensures outcomes == old(outcomes)[tenant := []] && openUntil == old(openUntil)[tenant := now + cfg.cooldown]
      ensures notes == old(notes)[tenant := SlotOf(old(View()), tenant).notes + [true]]
    {
      openUntil := openUntil[tenant := now + cfg.cooldown];
      outcomes := outcomes[tenant := []];
      Notify(tenant, true);
    }

    /**
     Only this tenant's slot moves. `raised` is the division by zero of a closed breaker that
     pruned every outcome away, which takes a negative window, and asks for no minimum.
     */
    method RecordOutcome(tenant: string, success: bool, now: real) returns (raised: bool)
      modifies this
      ensures SlotOf(View(), tenant) == Record(cfg, SlotOf(old(View()), tenant), now, success)
      ensures forall t :: t != tenant ==> SlotOf(View(), t) == SlotOf(old(View()), t)
      ensures raised <==> SlotOf(old(View()), tenant).openUntil.None? && cfg.minSamples <= 0
                          && SlotOf(View(), tenant).outcomes == [] && SlotOf(View(), tenant).openUntil.None?
    {
      hide Prune, Failures, FailedAt;
      var deque := if tenant in outcomes then outcomes[tenant] else [];
      deque := PruneOutcomes(deque + [Outcome(now, success)], now);
      outcomes := outcomes[tenant := deque];
      if tenant in openUntil {
        return false;
      }
      var total := |deque|;
      if total < cfg.minSamples {
        return false;
      }
      if total == 0 {
        return true;
      }
      var over := ExceedsRatio(deque);
      if over {
        Open(tenant, now);
      }
      return false;
    }

    method ShouldReject(tenant: string, now: real) returns (reject: bool)
      modifies this
      ensures reject == Rejects(SlotOf(old(View()), tenant), now)
      ensures SlotOf(View(), tenant) == Query(SlotOf(old(View()), tenant), now)
      ensures forall t :: t != tenant ==> SlotOf(View(), t) == SlotOf(old(View()), t)
    {
      if tenant !in openUntil {
        return false;
      }
      if now >= openUntil[tenant] {
        openUntil := openUntil - {tenant};
        Notify(tenant, false);
        return false;
      }
      return true;
    }
  }

  /**
   With a window that is not negative the newest outcome survives its own pruning, so recording
   never divides by zero.
   */
  lemma RecordNeverRaises(cfg: Config, slot: Slot, now: real, success: bool)
    requires cfg.window >= 0.0
    ensures var after := Record(cfg, slot, now, success);
            after.outcomes != [] || after.openUntil.Some?
  {
    KeepsNewest(slot.outcomes, Outcome(now, success), now - cfg.window);
  }

  lemma {:induction false} KeepsNewest(deque: seq<Outcome>, newest: Outcome, cutoff: real)
    requires newest.at >= cutoff
    ensures Prune(deque + [newest], cutoff) != []
  {
    if deque != [] {
      assert (deque + [newest])[1..] == deque[1..] + [newest];
      KeepsNewest(deque[1..], newest, cutoff);
    }
  }
}
