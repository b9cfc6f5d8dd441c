/**
 The debounced file watcher: batches are buffered, a trailing timer flushes them, and each
 flush hands the change callback one collapsed list.
 */
module FileWatcher {
  type Path = string

  datatype ChangeType = Created | Modified | Deleted

  datatype FileChange = FileChange(path: Path, changeType: ChangeType)

  // ---- collapse ----

  /** The paths of `changes` in first-seen order, each once: the keys of the dict the collapse fills. */
  function PathsOf(changes: seq<FileChange>): (paths: seq<Path>)
    ensures forall p :: p in paths <==> exists c :: c in changes && c.path == p
    ensures forall i, j :: 0 <= i < j < |paths| ==> paths[i] != paths[j]
  {
    if changes == [] then []
    else
      var init, last := changes[..|changes| - 1], changes[|changes| - 1];
      assert changes == init + [last];
      var paths := PathsOf(init);
      if last.path in paths then paths else paths + [last.path]
  }

  /** Deleted wins over created, created over modified. */
  function Chosen(changes: seq<FileChange>, path: Path): ChangeType {
    if FileChange(path, Deleted) in changes then Deleted
    else if FileChange(path, Created) in changes then Created
    else Modified
  }

  function Entries(changes: seq<FileChange>, paths: seq<Path>): (entries: seq<FileChange>)
    ensures |entries| == |paths|
    ensures forall i :: 0 <= i < |paths| ==> entries[i] == FileChange(paths[i], Chosen(changes, paths[i]))
  {
    seq(|paths|, i requires 0 <= i < |paths| => FileChange(paths[i], Chosen(changes, paths[i])))
  }

  /** One entry per path, in first-seen order. */
  function Collapse(changes: seq<FileChange>): seq<FileChange> {
    Entries(changes, PathsOf(changes))
  }

  /** What `types` recorded for a path comes down to. */
  function ChosenType(types: seq<ChangeType>): ChangeType {
    if Deleted in types then Deleted else if Created in types then Created else Modified
  }

  function TypesOf(changes: seq<FileChange>, path: Path): seq<ChangeType> {
    if changes == [] then []
    else
      var last := changes[|changes| - 1];
      TypesOf(changes[..|changes| - 1], path) + if last.path == path then [last.changeType] else []
  }

  lemma {:induction false} TypesOfMembers(changes: seq<FileChange>, path: Path)
    ensures forall t :: t in TypesOf(changes, path) <==> FileChange(path, t) in changes
  {
    if changes != [] {
      var init, last := changes[..|changes| - 1], changes[|changes| - 1];
      TypesOfMembers(init, path);
      assert changes == init + [last];
    }
  }

  lemma GroupStep(changes: seq<FileChange>, i: nat)
    requires i < |changes|
    ensures var c := changes[i];
            && PathsOf(changes[..i + 1])
                 == PathsOf(changes[..i]) + (if c.path in PathsOf(changes[..i]) then [] else [c.path])
            && forall p :: TypesOf(changes[..i + 1], p)
                 == TypesOf(changes[..i], p) + (if p == c.path then [c.changeType] else [])
  {
    assert changes[..i + 1][..i] == changes[..i];
  }

  /** The first pass: `setdefault(path, []).append(type)` on an insertion-ordered dict. */
  method GroupByPath(changes: seq<FileChange>) returns (keys: seq<Path>, byPath: map<Path, seq<ChangeType>>)
    ensures keys == PathsOf(changes)
    ensures forall p :: p in keys ==> p in byPath && byPath[p] == TypesOf(changes, p)
  {
    hide PathsOf, TypesOf;
    keys, byPath := [], map[];
    assert PathsOf(changes[..0]) == [] by { EmptyGroup(); assert changes[..0] == []; }
    for i := 0 to |changes|
      invariant keys == PathsOf(changes[..i])
      invariant forall p :: p in byPath <==> p in keys
      invariant forall p :: p in byPath ==> byPath[p] == TypesOf(changes[..i], p)
    {
      var change := changes[i];
      GroupStep(changes, i);
      if change.path !in byPath {
        NoTypes(changes[..i], change.path);
        keys := keys + [change.path];
        byPath := byPath[change.path := []];
      }
      byPath := byPath[change.path := byPath[change.path] + [change.changeType]];
    }
    assert changes[..|changes|] == changes;
  }

  lemma EmptyGroup()
    ensures PathsOf([]) == []
  {
  }

  /** `_collapse_changes`: a dict of type lists filled in one pass, then read in key order. */
  method CollapseChanges(changes: seq<FileChange>) returns (collapsed: seq<FileChange>)
    ensures collapsed == Collapse(changes)
  {
    hide PathsOf, TypesOf;
    var keys, byPath := GroupByPath(changes);
    collapsed := [];
    for i := 0 to |keys|
      invariant collapsed == Collapse(changes)[..i]
    {
      TypesOfMembers(changes, keys[i]);
      collapsed := collapsed + [FileChange(keys[i], ChosenType(byPath[keys[i]]))];
    }
  }

  lemma {:induction false} NoTypes(changes: seq<FileChange>, path: Path)
    requires path !in PathsOf(changes)
    ensures TypesOf(changes, path) == []
  {
    if changes != [] {
      NoTypes(changes[..|changes| - 1], path);
    }
  }

  lemma CollapseMembers(changes: seq<FileChange>)
    ensures forall c ::
              c in Collapse(changes) <==> c.path in PathsOf(changes) && c.changeType == Chosen(changes, c.path)
  {
    forall c ensures c in Collapse(changes) <==> c.path in PathsOf(changes) && c.changeType == Chosen(changes, c.path) {
      if c.path in PathsOf(changes) && c.changeType == Chosen(changes, c.path) {
        var i :| 0 <= i < |PathsOf(changes)| && PathsOf(changes)[i] == c.path;
        assert Collapse(changes)[i] == c;
      }
    }
  }

  /**
   A path is delivered once if it changed at all: as deleted if it was ever deleted, otherwise as
   created if it was ever created, otherwise as modified.
   */
  lemma CollapseExactly(changes: seq<FileChange>, path: Path)
    ensures FileChange(path, Deleted) in Collapse(changes) <==> FileChange(path, Deleted) in changes
    ensures FileChange(path, Created) in Collapse(changes)
       <==> FileChange(path, Created) in changes && FileChange(path, Deleted) !in changes
    ensures FileChange(path, Modified) in Collapse(changes)
       <==> FileChange(path, Modified) in changes && FileChange(path, Created) !in changes
            && FileChange(path, Deleted) !in changes
  {
    CollapseMembers(changes);
    hide Collapse, PathsOf;
    assert path in PathsOf(changes) <==> exists c :: c in changes && c.path == path;
  }

  function FirstIndex(changes: seq<FileChange>, path: Path): nat {
    if changes == [] || changes[0].path == path then 0 else 1 + FirstIndex(changes[1..], path)
  }

  lemma {:induction false} FirstIndexPrefix(changes: seq<FileChange>, more: FileChange, path: Path)
    ensures FirstIndex(changes, path) <= |changes|
    ensures (exists c :: c in changes && c.path == path) <==> FirstIndex(changes, path) < |changes|
    ensures FirstIndex(changes, path) < |changes| ==> FirstIndex(changes + [more], path) == FirstIndex(changes, path)
    ensures FirstIndex(changes, path) == |changes| && more.path == path
        ==> FirstIndex(changes + [more], path) == |changes|
  {
    if changes == [] {
      assert changes + [more] == [more];
    } else {
      var head, rest := changes[0], changes[1..];
      assert changes == [head] + rest && (changes + [more])[1..] == rest + [more];
      FirstIndexPrefix(rest, more, path);
    }
  }

  /** Paths are delivered in the order in which they were first seen. */
  lemma {:induction false} FirstSeenOrder(changes: seq<FileChange>)
    ensures forall i, j :: 0 <= i < j < |PathsOf(changes)| ==>
              FirstIndex(changes, PathsOf(changes)[i]) < FirstIndex(changes, PathsOf(changes)[j])
    ensures forall i :: 0 <= i < |PathsOf(changes)| ==> FirstIndex(changes, PathsOf(changes)[i]) < |changes|
  {
    if changes != [] {
      var n := |changes| - 1;
      var init, last := changes[..n], changes[n];
      assert changes == init + [last];
      FirstSeenOrder(init);
      var paths := PathsOf(init);
      forall i | 0 <= i < |paths|
        ensures FirstIndex(changes, paths[i]) == FirstIndex(init, paths[i]) < n
      {
        FirstIndexPrefix(init, last, paths[i]);
      }
      FirstIndexPrefix(init, last, last.path);
      hide FirstIndex;
    }
  }

  /** Collapsing loses no path and changes no order. */
  lemma {:induction false} PathsOfEntries(changes: seq<FileChange>, paths: seq<Path>)
    requires forall i, j :: 0 <= i < j < |paths| ==> paths[i] != paths[j]
    ensures PathsOf(Entries(changes, paths)) == paths
  {
    if paths != [] {
      var n := |paths| - 1;
      PathsOfEntries(changes, paths[..n]);
      assert Entries(changes, paths)[..n] == Entries(changes, paths[..n]);
      assert paths[n] !in paths[..n];
    }
  }

  lemma {:induction false} PathsOfAppend(a: seq<FileChange>, a': seq<FileChange>, b: seq<FileChange>)
    requires PathsOf(a) == PathsOf(a')
    ensures PathsOf(a + b) == PathsOf(a' + b)
  {
    if b == [] {
      assert a + b == a && a' + b == a';
    } else {
      var init, last := b[..|b| - 1], b[|b| - 1];
      PathsOfAppend(a, a', init);
      assert (a + b)[..|a + b| - 1] == a + init && (a' + b)[..|a' + b| - 1] == a' + init;
    }
  }

  lemma ChosenOfCollapse(a: seq<FileChange>, b: seq<FileChange>, path: Path)
    ensures Chosen(Collapse(a) + b, path) == Chosen(a + b, path)
  {
    CollapseMembers(a);
    forall t ensures FileChange(path, t) in a ==> path in PathsOf(a) {
    }
    forall t ensures FileChange(path, t) in Collapse(a) <==> path in PathsOf(a) && t == Chosen(a, path) {
    }
  }

  /** Collapsing early changes nothing: a collapsed prefix stands for the prefix itself. */
  lemma CollapseOfCollapse(a: seq<FileChange>, b: seq<FileChange>)
    ensures Collapse(Collapse(a) + b) == Collapse(a + b)
  {
    PathsOfEntries(a, PathsOf(a));
    PathsOfAppend(Collapse(a), a, b);
    forall p ensures Chosen(Collapse(a) + b, p) == Chosen(a + b, p) {
      ChosenOfCollapse(a, b, p);
    }
  }

  // ---- the watcher ----

  /**
   The first call of `stop()` goes through `FlushCancelled`, awaiting the flush it has cancelled
   while the watch loop still runs, if a flush was scheduled; then `LoopCancelled`, awaiting the
   watch loop; and returns `Stopped`.
   */
  datatype WatcherState = New | Running | FlushCancelled | LoopCancelled | Stopped

  /** `armed` says a flush task is scheduled; `delivered` are the change callback's arguments. */
  datatype Watcher = Watcher(
    state: WatcherState, pending: seq<FileChange>, armed: bool, delivered: seq<seq<FileChange>>)

  const FRESH := Watcher(New, [], false, [])

  /** `FlushGone` and `LoopGone` are the returns of the two awaits of `stop()`. */
  datatype Event = Start | Batch(changes: seq<FileChange>) | TimerFires | StopCalled | FlushGone | LoopGone

  function Handle(w: Watcher, changes: seq<FileChange>): Watcher {
    w.(pending := w.pending + changes, armed := true)
  }

  function Flush(w: Watcher): Watcher {
    var after := w.(pending := [], armed := false);
    if w.pending == [] then after else after.(delivered := w.delivered + [Collapse(w.pending)])
  }

  predicate LoopRuns(state: WatcherState) {
    state.Running? || state.FlushCancelled?
  }

  /** `stop()` up to its first await; from `New` there is none, and any later call returns at once. */
  function BeginStop(w: Watcher): Watcher {
    match w.state
    case New => w.(state := Stopped, pending := [])
    case Running => w.(state := if w.armed then FlushCancelled else LoopCancelled, armed := false)
    case _ => w
  }

  /** `stop()` once the watch loop is over: the buffer is dropped. */
  function EndStop(w: Watcher): Watcher {
    w.(state := Stopped, pending := [])
  }

  /** A batch reaches the buffer only while the watch loop runs; a timer fires only if armed. */
  function Next(w: Watcher, event: Event): Watcher {
    match event
    case Start => if w.state.New? then w.(state := Running) else w
    case Batch(changes) => if LoopRuns(w.state) && changes != [] then Handle(w, changes) else w
    case TimerFires => if w.armed then Flush(w) else w
    case StopCalled => BeginStop(w)
    case FlushGone => if w.state.FlushCancelled? then w.(state := LoopCancelled) else w
    case LoopGone => if w.state.LoopCancelled? then EndStop(w) else w
  }

  function Run(events: seq<Event>): Watcher {
    if events == [] then FRESH else Next(Run(events[..|events| - 1]), events[|events| - 1])
  }

  /** The changes that arrived while the watch loop ran. */
  function Arrived(events: seq<Event>): seq<FileChange> {
    if events == [] then []
    else
      var init, last := events[..|events| - 1], events[|events| - 1];
      Arrived(init)
      + if last.Batch? && LoopRuns(Run(init).state) then last.changes else []
  }

  function Flatten(segments: seq<seq<FileChange>>): seq<FileChange> {
    if segments == [] then [] else Flatten(segments[..|segments| - 1]) + segments[|segments| - 1]
  }

  lemma FlattenAppend(segments: seq<seq<FileChange>>, segment: seq<FileChange>)
    ensures Flatten(segments + [segment]) == Flatten(segments) + segment
  {
    assert (segments + [segment])[..|segments|] == segments;
  }

  ghost predicate DeliversExactly(delivered: seq<seq<FileChange>>, segments: seq<seq<FileChange>>) {
    |delivered| == |segments|
    && forall i :: 0 <= i < |segments| ==> segments[i] != [] && delivered[i] == Collapse(segments[i])
  }

  /** `arrived` is what was delivered, segment by segment, then the buffer. */
  ghost predicate Segmented(arrived: seq<FileChange>, w: Watcher, segments: seq<seq<FileChange>>) {
    arrived == Flatten(segments) + w.pending && DeliversExactly(w.delivered, segments)
  }

  lemma HandleKeepsSegments(
    arrived: seq<FileChange>, w: Watcher, segments: seq<seq<FileChange>>, changes: seq<FileChange>)
    requires Segmented(arrived, w, segments)
    ensures Segmented(arrived + changes, Handle(w, changes), segments)
  {
    hide Collapse, Flatten;
    assert Flatten(segments) + (w.pending + changes) == Flatten(segments) + w.pending + changes;
  }

  lemma FlushEndsSegment(arrived: seq<FileChange>, w: Watcher, segments: seq<seq<FileChange>>)
    requires Segmented(arrived, w, segments)
    ensures Segmented(arrived, Flush(w), if w.pending == [] then segments else segments + [w.pending])
  {
    hide Collapse;
    FlattenAppend(segments, w.pending);
  }

  lemma BatchKeepsSegments(
    arrived: seq<FileChange>, w: Watcher, segments: seq<seq<FileChange>>, changes: seq<FileChange>)
    requires Segmented(arrived, w, segments) && LoopRuns(w.state)
    ensures Segmented(arrived + changes, Next(w, Batch(changes)), segments)
  {
    if changes == [] {
      assert arrived + changes == arrived;
    } else {
      HandleKeepsSegments(arrived, w, segments, changes);
    }
  }

  /**
   Until stop returns, the stream of arrived changes is cut into consecutive nonempty segments,
   each delivered exactly once, in order, as its collapse, with the buffer as the undelivered
   tail.
   */
  lemma {:induction false} DeliveredInSegments(events: seq<Event>) returns (segments: seq<seq<FileChange>>)
    requires LoopGone !in events
    ensures Segmented(Arrived(events), Run(events), segments)
  {
    segments := [];
    if events != [] {
      hide Segmented, Collapse, Next;
      var init, last := events[..|events| - 1], events[|events| - 1];
      assert events == init + [last];
      segments := DeliveredInSegments(init);
      var before := Run(init);
      assert Arrived(init) + [] == Arrived(init);
      if last.Batch? && LoopRuns(before.state) {
        BatchKeepsSegments(Arrived(init), before, segments, last.changes);
      } else {
        NewIsEmpty(init);
        segments := OtherKeepsSegments(Arrived(init), before, segments, last);
      }
    }
  }

  lemma OtherKeepsSegments(
    arrived: seq<FileChange>, w: Watcher, segments: seq<seq<FileChange>>, event: Event)
    returns (longer: seq<seq<FileChange>>)
    requires Segmented(arrived, w, segments) && !event.LoopGone? && (w.state.New? ==> w.pending == [])
    requires event.Batch? ==> !LoopRuns(w.state)
    ensures Segmented(arrived, Next(w, event), longer)
  {
    longer := segments;
    if event.TimerFires? && w.armed {
      FlushEndsSegment(arrived, w, segments);
      longer := if w.pending == [] then segments else segments + [w.pending];
    } else if event.Start? || event.StopCalled? || event.FlushGone? {
      StateKeepsSegments(arrived, w, segments, event);
    }
  }

  /** Until stop is called, a flush is scheduled while anything is buffered. */
  lemma {:induction false} FlushScheduled(events: seq<Event>)
    requires StopCalled !in events
    ensures Run(events).pending != [] ==> Run(events).armed
    ensures Run(events).state.New? || Run(events).state.Running?
  {
    if events != [] {
      var init, last := events[..|events| - 1], events[|events| - 1];
      assert events == init + [last];
      FlushScheduled(init);
    }
  }

  lemma {:induction false} NewIsEmpty(events: seq<Event>)
    ensures Run(events).state.New? ==> Run(events).pending == [] && !Run(events).armed
  {
    if events != [] {
      NewIsEmpty(events[..|events| - 1]);
    }
  }

  lemma StateKeepsSegments(arrived: seq<FileChange>, w: Watcher, segments: seq<seq<FileChange>>, event: Event)
    requires Segmented(arrived, w, segments) && (event.Start? || event.StopCalled? || event.FlushGone?)
    requires w.state.New? ==> w.pending == []
    ensures Segmented(arrived, Next(w, event), segments)
  {
    hide Collapse, Flatten;
  }

  /**
   Once the first call of stop has returned, nothing is delivered, kept or watched any more; a
   flush left over finds nothing to deliver. A second call may return long before that.
   */
  lemma {:induction false} StopIsFinal(before: seq<Event>, after: seq<Event>)
    requires Run(before).state.Stopped?
    ensures var w := Run(before + after);
            w.state.Stopped? && w.pending == [] && w.delivered == Run(before).delivered
  {
    var all := before + after;
    if after == [] {
      StoppedIsEmpty(before);
      assert all == before;
    } else {
      StopIsFinal(before, after[..|after| - 1]);
      assert all[..|all| - 1] == before + after[..|after| - 1];
    }
  }

  lemma {:induction false} StoppedIsEmpty(events: seq<Event>)
    ensures Run(events).state.Stopped? ==> Run(events).pending == []
  {
    if events != [] {
      StoppedIsEmpty(events[..|events| - 1]);
    }
  }

  /** A batch with anything in it came before the cancelled flush was gone. */
  predicate BatchCame(during: seq<Event>) {
    during != []
    && var init, last := during[..|during| - 1], during[|during| - 1];
       BatchCame(init) || (last.Batch? && last.changes != [] && FlushGone !in init)
  }

  /** And its timer fired. */
  predicate FiredLate(during: seq<Event>) {
    during != []
    && var init, last := during[..|during| - 1], during[|during| - 1];
       FiredLate(init) || (last.TimerFires? && BatchCame(init))
  }

  /**
   Between the call of stop and its return something is delivered exactly when a flush was
   scheduled at the call, the watch loop handed over one more batch while that flush was being
   awaited, and the timer of that batch, which nobody cancels, fired.
   */
  lemma DeliveredDuringStop(before: seq<Event>, during: seq<Event>)
    requires Run(before).state.Running? && LoopGone !in during
    ensures Run(before + [StopCalled] + during).delivered != Run(before).delivered
       <==> Run(before).armed && FiredLate(during)
  {
    StoppingState(before, during);
  }

  lemma {:induction false} StoppingState(before: seq<Event>, during: seq<Event>)
    requires Run(before).state.Running? && LoopGone !in during
    ensures var was, w := Run(before), Run(before + [StopCalled] + during);
            && w.state == (if was.armed && FlushGone !in during then FlushCancelled else LoopCancelled)
            && (w.armed ==> w.pending != [])
            && (if was.armed && FiredLate(during) then |w.delivered| > |was.delivered|
                else w.delivered == was.delivered && (w.armed <==> was.armed && BatchCame(during)))
  {
    hide Collapse, Run;
    RunStep(before, StopCalled);
    if during == [] {
      assert before + [StopCalled] + during == before + [StopCalled];
    } else {
      var init, last := during[..|during| - 1], during[|during| - 1];
      assert during == init + [last];
      StoppingState(before, init);
      assert before + [StopCalled] + during == before + [StopCalled] + init + [last];
      RunStep(before + [StopCalled] + init, last);
    }
  }

  /** One batch scheduled before the call, one handed over during it: both reach the callback before stop returns. */
  lemma DeliveredDuringStopExample() returns (before: seq<Event>, during: seq<Event>)
    ensures Run(before).state.Running? && LoopGone !in during && Run(before).delivered == []
    ensures Run(before + [StopCalled] + during).delivered == [[FileChange("a.py", Modified)]]
  {
    var change := FileChange("a.py", Modified);
    var e0, e1: seq<Event> := [], [Start];
    hide Run, Collapse, Next;
    FreshRun();
    before, during := [Start, Batch([change])], [Batch([change]), TimerFires];
    var e3 := before + [StopCalled];
    var e4 := e3 + [Batch([change])];
    assert e1 == e0 + [Start] && before == e1 + [Batch([change])] && e3 + during == e4 + [TimerFires];
    RunStep(e0, Start);
    RunStep(e1, Batch([change]));
    RunStep(before, StopCalled);
    RunStep(e3, Batch([change]));
    RunStep(e4, TimerFires);
    TwoBatches(change);
    CollapseTwice(change);
  }

  lemma TwoBatches(change: FileChange)
    ensures Next(Next(FRESH, Start), Batch([change])) == Watcher(Running, [change], true, [])
    ensures var stopping := Watcher(FlushCancelled, [change], false, []);
            && Next(Watcher(Running, [change], true, []), StopCalled) == stopping
            && Next(Next(stopping, Batch([change])), TimerFires)
               == Watcher(FlushCancelled, [], false, [Collapse([change, change])])
  {
    hide Collapse;
    assert [] + [change] == [change] && [change] + [change] == [change, change];
    assert [] + [Collapse([change, change])] == [Collapse([change, change])];
  }

  lemma FreshRun()
    ensures Run([]) == FRESH
  {
  }

  lemma RunStep(events: seq<Event>, event: Event)
    ensures Run(events + [event]) == Next(Run(events), event)
  {
    assert (events + [event])[..|events|] == events;
  }

  lemma CollapseTwice(change: FileChange)
    ensures Collapse([change, change]) == [change]
  {
    var one, two := [change], [change, change];
    assert two[..1] == one && two[1] == change && one[..0] == [] && one[0] == change;
    assert PathsOf(one) == [change.path];
    assert PathsOf(two) == PathsOf(one);
    assert change == FileChange(change.path, change.changeType) && change in two;
    forall t ensures FileChange(change.path, t) in two <==> t == change.changeType {
    }
    assert Chosen(two, change.path) == change.changeType;
    assert Collapse(two)[0] == FileChange(change.path, Chosen(two, change.path));
  }

  class DebouncedWatcher {
    var state: WatcherState
    var pending: seq<FileChange>
    var flushScheduled: bool
    ghost var delivered: seq<seq<FileChange>>

    ghost function View(): Watcher
      reads this
    {
      Watcher(state, pending, flushScheduled, delivered)
    }

    constructor ()
      ensures View() == FRESH
    {
      state, pending, flushScheduled, delivered := New, [], false, [];
    }

    /** `false` is the `RuntimeError` of starting a stopped watcher. */
    method StartWatching() returns (ok: bool)
      modifies this
      ensures View() == Next(old(View()), Start) && ok == (old(state).New? || old(state).Running?)
    {
      if state == Running {
        return true;
      }
      if state != New {
        return false;
      }
      state := Running;
      return true;
    }

    /** An earlier flush still sleeping is cancelled, so at most one is scheduled. */
    method HandleChangeBatch(batch: seq<FileChange>)
      modifies this
      ensures View() == Handle(old(View()), batch)
    {
      pending := pending + batch;
      flushScheduled := true;
    }

    /** The scheduled flush, once its sleep is over; the callback is one atomic call. */
    method FlushAfterDelay()
      requires flushScheduled
      modifies this
      ensures View() == Flush(old(View()))
    {
      flushScheduled := false;
      var collapsed := CollapseChanges(pending);
      CollapseEmpty(pending);
      pending := [];
      if collapsed == [] {
        return;
      }
      delivered := delivered + [collapsed];
    }

    /** `stop()` up to its first await; `false` when it returns without one. */
    method StopUpToAwait() returns (waits: bool)
      modifies this
      ensures View() == BeginStop(old(View())) && waits == old(state).Running?
    {
      if state == New {
        state := Stopped;
        pending := [];
        return false;
      }
      if state != Running {
        return false;
      }
      state := if flushScheduled then FlushCancelled else LoopCancelled;
      flushScheduled := false;
      return true;
    }

    /** The cancelled flush is gone; the watch loop is cancelled. */
    method StopAfterFlush()
      requires state == FlushCancelled
      modifies this
      ensures View() == Next(old(View()), FlushGone)
    {
      state := LoopCancelled;
    }

    /** The watch loop is over. */
    method StopAfterLoop()
      requires state == LoopCancelled
      modifies this
      ensures View() == EndStop(old(View()))
    {
      state := Stopped;
      pending := [];
    }
  }

  lemma CollapseEmpty(changes: seq<FileChange>)
    ensures Collapse(changes) == [] <==> changes == []
  {
    if changes != [] {
      assert changes[0].path in PathsOf(changes);
    }
  }
}
