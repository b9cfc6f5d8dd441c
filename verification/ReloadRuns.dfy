/**
 Hot reload over whole runs: sessions being built, registered and ended, pins coming and going,
 and reload batches, in any order. A step that is not possible leaves the state unchanged.
 */
module ReloadRuns {
  import opened Reload

  /**
   The worker's reload state and its history: `owner` says which agent a session was built
   for, `loaded` which classes an agent has ever had (its current one last), `missed` which
   sessions the last class change of their agent did not reach, `bound` the class each session
   was last built with or swapped to, and `handed` which sessions have switched to an agent class
   of their own choice since.
   */
  datatype World = World(
    host: Host, entries: seq<Entry>, pinned: set<Sid>,
    owner: map<Sid, string>, loaded: map<string, seq<Class>>, missed: set<Sid>,
    bound: map<Sid, Class>, handed: set<Sid>)

  /**
   A session's agent is built from the registered class before `session.start()`; the registry
   learns of the session only in the start notification, after it. A session's own code can
   hand it off to an agent of any class.
   */
  datatype Event =
    | Build(session: Sid, agent: string)
    | Register(job: string, session: Sid)
    | End(job: string)
    | HandOff(session: Sid, cls: Class)
    | Pin(session: Sid)
    | Unpin(session: Sid)
    | Reload(agent: string, path: string, attempt: Attempt)

  ghost function Fresh(classOf: map<string, Class>): World {
    World(Host(classOf, map[], map[], []), [], {}, map[], map a | a in classOf :: [classOf[a]], {}, map[], {})
  }

  ghost predicate Possible(w: World, event: Event) {
    match event
    case Build(s, agent) => s !in w.owner && agent in w.host.classOf
    case Register(_, s) => s in w.owner
    case HandOff(s, _) => s in w.owner && s in w.host.running
    case Reload(agent, _, _) => agent in w.host.classOf
    case _ => true
  }

  /** The sessions of `agent` a swap leaves out: not registered, pinned, or raising. */
  ghost function LeftOut(w: World, agent: string, broken: set<Sid>): set<Sid> {
    set s | s in w.owner && w.owner[s] == agent
            && (s in w.pinned || s in broken || forall e :: e in w.entries && e.session == s ==> e.agent != agent)
  }

  ghost predicate ChangesClass(w: World, event: Event)
  {
    event.Reload? && event.agent in w.host.classOf && event.attempt.how.Loads?
      && w.host.classOf[event.agent] != event.attempt.how.cls
  }

  ghost function Next(w: World, event: Event): World {
    if !Possible(w, event) then w
    else
      match event
      case Build(s, agent) =>
        w.(host := w.host.(running := w.host.running[s := w.host.classOf[agent]]), owner := w.owner[s := agent],
            missed := w.missed - {s}, bound := w.bound[s := w.host.classOf[agent]], handed := w.handed - {s})
      case Register(job, s) => w.(entries := PutEntry(w.entries, Entry(job, w.owner[s], s)))
      case End(job) => w.(entries := DropEntry(w.entries, job))
      case HandOff(s, cls) => w.(host := w.host.(running := w.host.running[s := cls]), handed := w.handed + {s})
      case Pin(s) => w.(pinned := w.pinned + {s})
      case Unpin(s) => w.(pinned := w.pinned - {s})
      case Reload(agent, path, attempt) =>
        var reloaded := w.(host := ReloadedOne(w.host, w.entries, w.pinned, agent, path, attempt));
        if !ChangesClass(w, event) then reloaded
        else
          var others := set s | s in w.missed && (s !in w.owner || w.owner[s] != agent);
          var cls := attempt.how.cls;
          reloaded.(
            loaded := if agent in w.loaded then w.loaded[agent := w.loaded[agent] + [cls]] else w.loaded,
            missed := others + LeftOut(w, agent, attempt.broken),
            bound := Bound(w.bound, Targets(w.host.running, w.entries, w.pinned, attempt.broken, agent, cls), cls),
            handed := w.handed - Targets(w.host.running, w.entries, w.pinned, attempt.broken, agent, cls))
  }

  ghost function Run(classOf: map<string, Class>, events: seq<Event>): World {
    if events == [] then Fresh(classOf)
    else Next(Run(classOf, events[..|events| - 1]), events[|events| - 1])
  }

  /**
   A session that has not handed itself off runs what it was last bound to: the current class,
   unless it was missed.
   */
  ghost predicate SessionInv(w: World, s: Sid)
    requires s in w.owner && s in w.host.running && s in w.bound
    requires w.owner[s] in w.loaded && w.owner[s] in w.host.classOf
  {
    && w.bound[s] in w.loaded[w.owner[s]]
    && (s !in w.handed ==> w.host.running[s] == w.bound[s])
    && (s !in w.missed && s !in w.handed ==> w.bound[s] == w.host.classOf[w.owner[s]])
  }

  ghost predicate Inv(w: World) {
    && UniqueJobs(w.entries)
    && w.owner.Keys == w.host.running.Keys == w.bound.Keys
    && w.loaded.Keys == w.host.classOf.Keys
    && (forall s :: s in w.owner ==> w.owner[s] in w.host.classOf)
    && (forall e :: e in w.entries ==> e.session in w.owner && e.agent == w.owner[e.session])
    && (forall a :: a in w.loaded ==> w.loaded[a] != [] && w.loaded[a][|w.loaded[a]| - 1] == w.host.classOf[a])
    && (forall s :: s in w.owner ==> SessionInv(w, s))
  }

  /** What a reload touches. */
  lemma ReloadShape(w: World, agent: string, path: string, attempt: Attempt)
    requires agent in w.host.classOf
    ensures var event := Reload(agent, path, attempt);
            var after := Next(w, event);
            && after.owner == w.owner && after.entries == w.entries && after.pinned == w.pinned
            && (!ChangesClass(w, event) ==>
                  after.host.classOf == w.host.classOf && after.host.running == w.host.running
                  && after.loaded == w.loaded && after.missed == w.missed
                  && after.bound == w.bound && after.handed == w.handed)
            && (ChangesClass(w, event) ==>
                  var cls := attempt.how.cls;
                  var targets := Targets(w.host.running, w.entries, w.pinned, attempt.broken, agent, cls);
                  && after.host.running == Bound(w.host.running, targets, cls)
                  && after.bound == Bound(w.bound, targets, cls) && after.handed == w.handed - targets
                  && after.host.classOf == w.host.classOf[agent := cls]
                  && after.loaded
                     == (if agent in w.loaded then w.loaded[agent := w.loaded[agent] + [cls]] else w.loaded))
  {
    hide Targets, Bound, LeftOut;
  }

  lemma ReloadKeepsInv(w: World, agent: string, path: string, attempt: Attempt)
    requires Inv(w) && agent in w.host.classOf
    ensures Inv(Next(w, Reload(agent, path, attempt)))
  {
    hide Inv, Next;
    if ChangesClass(w, Reload(agent, path, attempt)) {
      SwapKeepsInv(w, agent, path, attempt);
    } else {
      NoSwapKeepsInv(w, agent, path, attempt);
    }
  }

  lemma NoSwapKeepsInv(w: World, agent: string, path: string, attempt: Attempt)
    requires Inv(w) && agent in w.host.classOf && !ChangesClass(w, Reload(agent, path, attempt))
    ensures Inv(Next(w, Reload(agent, path, attempt)))
  {
    ReloadShape(w, agent, path, attempt);
    hide Next, UniqueJobs, ChangesClass;
  }

  lemma BoundKeys(running: map<Sid, Class>, targets: set<Sid>, cls: Class)
    ensures Bound(running, targets, cls).Keys == running.Keys
  {
  }

  lemma SwapKeepsInv(w: World, agent: string, path: string, attempt: Attempt)
    requires Inv(w) && ChangesClass(w, Reload(agent, path, attempt))
    ensures Inv(Next(w, Reload(agent, path, attempt)))
  {
    ReloadShape(w, agent, path, attempt);
    var after := Next(w, Reload(agent, path, attempt));
    var targets := Targets(w.host.running, w.entries, w.pinned, attempt.broken, agent, attempt.how.cls);
    BoundKeys(w.host.running, targets, attempt.how.cls);
    BoundKeys(w.bound, targets, attempt.how.cls);
    hide Next, UniqueJobs, Targets, Bound, SessionInv;
    forall s | s in after.owner
      ensures s in after.host.running && s in after.bound
      ensures after.owner[s] in after.loaded && after.owner[s] in after.host.classOf && SessionInv(after, s)
    {
      SessionAfterSwap(w, agent, path, attempt, s);
    }
  }

  /** One session across a class-changing swap. */
  lemma SessionAfterSwap(w: World, agent: string, path: string, attempt: Attempt, s: Sid)
    requires Inv(w) && s in w.owner && ChangesClass(w, Reload(agent, path, attempt))
    ensures var after := Next(w, Reload(agent, path, attempt));
            && s in after.host.running && s in after.bound
            && after.owner[s] in after.loaded && after.owner[s] in after.host.classOf && SessionInv(after, s)
  {
    hide UniqueJobs, ReloadedOne;
    ReloadShape(w, agent, path, attempt);
    var cls := attempt.how.cls;
    var targets := Targets(w.host.running, w.entries, w.pinned, attempt.broken, agent, cls);
    var after := Next(w, Reload(agent, path, attempt));
    if s in targets {
      var e :| e in w.entries && e.agent == agent && e.session == s;
      assert w.owner[s] == agent;
      var all := after.loaded[agent];
      assert all[|all| - 1] == cls;
    } else if w.owner[s] == agent {
      var i :| 0 <= i < |w.loaded[agent]| && w.loaded[agent][i] == w.bound[s];
      assert after.loaded[agent][i] == w.bound[s];
      if s !in after.missed {
        var e :| e in w.entries && e.session == s && e.agent == agent;
        assert w.host.running[s] == cls;
      }
    }
  }

  lemma BuildKeepsInv(w: World, s: Sid, agent: string)
    requires Inv(w) && Possible(w, Build(s, agent))
    ensures Inv(Next(w, Build(s, agent)))
  {
    hide UniqueJobs;
    assert w.loaded[agent][|w.loaded[agent]| - 1] == w.host.classOf[agent];
  }

  lemma RegistryKeepsInv(w: World, event: Event)
    requires Inv(w) && Possible(w, event) && (event.Register? || event.End?)
    ensures Inv(Next(w, event))
  {
    hide PutEntry, DropEntry;
    match event
    case Register(job, s) => PutEntryExact(w.entries, Entry(job, w.owner[s], s));
    case End(job) => DropEntryExact(w.entries, job);
  }

  lemma NextKeepsInv(w: World, event: Event)
    requires Inv(w)
    ensures Inv(Next(w, event))
  {
    if Possible(w, event) {
      match event
      case Reload(agent, path, attempt) => hide Inv, Next; ReloadKeepsInv(w, agent, path, attempt);
      case Build(s, agent) => hide Inv, Next; BuildKeepsInv(w, s, agent);
      case Register(_, _) => hide Inv, Next; RegistryKeepsInv(w, event);
      case End(_) => hide Inv, Next; RegistryKeepsInv(w, event);
      case _ => hide UniqueJobs;
    }
  }

  lemma {:induction false} EveryRunKeepsInv(classOf: map<string, Class>, events: seq<Event>)
    ensures Inv(Run(classOf, events))
  {
    if events != [] {
      hide Inv, Next;
      EveryRunKeepsInv(classOf, events[..|events| - 1]);
      NextKeepsInv(Run(classOf, events[..|events| - 1]), events[|events| - 1]);
    } else {
      assert Fresh(classOf).owner.Keys == {};
    }
  }

  /**
   In every run a session was last bound to a class its own agent was registered with or
   successfully reloaded to, and runs that class unless it has handed itself off since. So it
   runs the agent's current class if and only if the last class change reached it, or left it out
   (unregistered, pinned, or raising) on what is the current class again.
   */
  lemma SessionsRunLoadedClasses(classOf: map<string, Class>, events: seq<Event>, s: Sid)
    requires s in Run(classOf, events).owner
    ensures var w := Run(classOf, events);
            && s in w.host.running && s in w.bound && w.owner[s] in w.host.classOf && w.owner[s] in w.loaded
            && w.bound[s] in w.loaded[w.owner[s]]
            && (s !in w.handed ==>
                  && w.host.running[s] == w.bound[s]
                  && (w.host.running[s] == w.host.classOf[w.owner[s]]
                      <==> s !in w.missed || w.bound[s] == w.host.classOf[w.owner[s]]))
  {
    EveryRunKeepsInv(classOf, events);
  }

  /**
   A session that was never pinned and whose swaps never raised can still end up on an old
   class: a reload between the building of its agent and its registration passes it by.
   */
  lemma ReloadDuringStartIsMissed() returns (events: seq<Event>)
    ensures var w := Run(map["a" := 0], events);
            && w.pinned == {} && w.entries == [Entry("j", "a", 7)]
            && w.host.classOf == map["a" := 1] && 7 in w.host.running && w.host.running[7] == 0
  {
    var classOf := map["a" := 0];
    var attempt := Attempt(Loads(1), 5, map[], {});
    events := [];
    var w := Fresh(classOf);
    events, w := Extend(classOf, events, w, Build(7, "a"));
    assert w.host.running == map[7 := 0] && w.owner == map[7 := "a"];
    assert Targets(w.host.running, [], {}, {}, "a", 1) == {};
    assert Bound(map[7 := 0], {}, 1) == map[7 := 0];
    ReloadShape(w, "a", "a.py", attempt);
    events, w := Extend(classOf, events, w, Reload("a", "a.py", attempt));
    assert w.host.running == map[7 := 0] && w.host.classOf == map["a" := 1];
    assert w.owner == map[7 := "a"] && w.entries == [] && w.pinned == {};
    events, w := Extend(classOf, events, w, Register("j", 7));
  }

  lemma Extend(classOf: map<string, Class>, events: seq<Event>, w: World, event: Event)
    returns (longer: seq<Event>, w': World)
    requires w == Run(classOf, events)
    ensures longer == events + [event] && w' == Next(w, event) == Run(classOf, longer)
  {
    longer, w' := events + [event], Next(w, event);
    assert longer[..|events|] == events;
  }
}
