/**
 Hot reload: the registry of live sessions, the rollback-safe module import, the re-bind of
 live sessions to a new class, and the coordinator that runs them for a batch of changes.
 Classes, module objects and sessions are named by their identity.
 */
module Reload {
  import opened Basics
  import opened FileWatcher

  type Class = nat
  type ModuleId = nat

  /** A value of `sys.modules`; `None` is Python's own, which blocks an import. */
  type Loaded = Option<ModuleId>

  type Sid = nat

  // ---- live sessions, an insertion-ordered dict keyed by job id ----

  datatype Entry = Entry(job: string, agent: string, session: Sid)

  ghost predicate UniqueJobs(entries: seq<Entry>) {
    forall i, j :: 0 <= i < j < |entries| ==> entries[i].job != entries[j].job
  }

  /** `d[job] = entry`: an existing key keeps its place. */
  function PutEntry(entries: seq<Entry>, entry: Entry): seq<Entry> {
    if entries == [] then [entry]
    else if entries[0].job == entry.job then [entry] + entries[1..]
    else [entries[0]] + PutEntry(entries[1..], entry)
  }

  function DropEntry(entries: seq<Entry>, job: string): seq<Entry> {
    if entries == [] then []
    else if entries[0].job == job then entries[1..]
    else [entries[0]] + DropEntry(entries[1..], job)
  }

  lemma UniqueCons(x: Entry, rest: seq<Entry>)
    ensures UniqueJobs([x] + rest) <==> UniqueJobs(rest) && forall e :: e in rest ==> e.job != x.job
  {
    var all := [x] + rest;
    if UniqueJobs(all) {
      forall i, j | 0 <= i < j < |rest| ensures rest[i].job != rest[j].job {
        assert all[i + 1].job != all[j + 1].job;
      }
      forall e | e in rest ensures e.job != x.job {
        var i :| 0 <= i < |rest| && rest[i] == e;
        assert all[0].job != all[i + 1].job;
      }
    }
  }

  /** Keyed by job id: a start replaces that job's entry and no other. */
  lemma {:induction false} PutEntryExact(entries: seq<Entry>, entry: Entry)
    requires UniqueJobs(entries)
    ensures UniqueJobs(PutEntry(entries, entry))
    ensures forall e :: e in PutEntry(entries, entry) <==> e == entry || (e in entries && e.job != entry.job)
  {
    if entries != [] {
      hide UniqueJobs;
      var head, rest := entries[0], entries[1..];
      assert entries == [head] + rest;
      UniqueCons(head, rest);
      PutEntryExact(rest, entry);
      UniqueCons(entry, rest);
      UniqueCons(head, PutEntry(rest, entry));
    }
  }

  /** An end removes that job's entry and no other, and tolerates an absent one. */
  lemma {:induction false} DropEntryExact(entries: seq<Entry>, job: string)
    requires UniqueJobs(entries)
    ensures UniqueJobs(DropEntry(entries, job))
    ensures forall e :: e in DropEntry(entries, job) <==> e in entries && e.job != job
  {
    if entries != [] {
      hide UniqueJobs;
      var head, rest := entries[0], entries[1..];
      assert entries == [head] + rest;
      UniqueCons(head, rest);
      DropEntryExact(rest, job);
      UniqueCons(head, DropEntry(rest, job));
    }
  }

  /** A job that is already listed keeps its place; a new one goes last. */
  lemma {:induction false} PutKeepsPlace(entries: seq<Entry>, entry: Entry)
    requires UniqueJobs(entries)
    ensures (forall e :: e in entries ==> e.job != entry.job) ==> PutEntry(entries, entry) == entries + [entry]
    ensures forall i :: 0 <= i < |entries| && entries[i].job == entry.job ==>
              PutEntry(entries, entry) == entries[i := entry]
  {
    if entries != [] {
      var head, rest := entries[0], entries[1..];
      assert entries == [head] + rest;
      UniqueCons(head, rest);
      PutKeepsPlace(rest, entry);
      forall i | 0 < i < |entries|
        && entries[i].job == entry.job ensures PutEntry(entries, entry) == entries[i := entry] {
        assert rest[i - 1] == entries[i] && rest[i - 1] in rest;
        assert entries[i := entry] == [head] + rest[i - 1 := entry];
      }
      if forall e :: e in entries ==> e.job != entry.job {
        assert head in entries;
      }
    } else {
      assert entries + [entry] == [entry];
    }
  }

  function SessionsOf(entries: seq<Entry>, agent: string): seq<Sid> {
    if entries == [] then []
    else SessionsOf(entries[..|entries| - 1], agent)
         + if entries[|entries| - 1].agent == agent then [entries[|entries| - 1].session] else []
  }

  lemma {:induction false} SessionsOfMembers(entries: seq<Entry>, agent: string)
    ensures forall s ::
              s in SessionsOf(entries, agent) <==> exists e :: e in entries && e.agent == agent && e.session == s
  {
    if entries != [] {
      var init, last := entries[..|entries| - 1], entries[|entries| - 1];
      SessionsOfMembers(init, agent);
      assert entries == init + [last];
    }
  }

  class LiveSessionRegistry {
    var byJob: seq<Entry>

    ghost predicate Valid()
      reads this
    {
      UniqueJobs(byJob)
    }

    constructor ()
      ensures Valid() && byJob == []
    {
      byJob := [];
    }

    method OnSessionStart(job: string, agent: string, session: Sid)
      requires Valid()
      modifies this
      ensures Valid() && byJob == PutEntry(old(byJob), Entry(job, agent, session))
    {
      PutEntryExact(byJob, Entry(job, agent, session));
      byJob := PutEntry(byJob, Entry(job, agent, session));
    }

    method OnSessionEnd(job: string)
      requires Valid()
      modifies this
      ensures Valid() && byJob == DropEntry(old(byJob), job)
    {
      DropEntryExact(byJob, job);
      byJob := DropEntry(byJob, job);
    }

    method SessionsFor(agent: string) returns (sessions: seq<Sid>)
      ensures sessions == SessionsOf(byJob, agent)
    {
      sessions := [];
      for i := 0 to |byJob|
        invariant sessions == SessionsOf(byJob[..i], agent)
      {
        assert byJob[..i + 1][..i] == byJob[..i];
        if byJob[i].agent == agent {
          sessions := sessions + [byJob[i].session];
        }
      }
      assert byJob[..|byJob|] == byJob;
    }
  }

  // ---- re-importing one module ----

  /**
   How a re-import goes. `Undecodable` is a decoding error of `read_text`, which is not an
   `OSError`; `ExecExits` is module code raising something that is not an `Exception`.
   */
  datatype Import =
    | Unreadable | Undecodable | BadSyntax | NoSpec
    | ExecRaises | NoAgentClass | ExecExits
    | Loads(cls: Class)

  /**
   One reload attempt: how the import goes, under which module object, what its code puts into
   `sys.modules` when run, and whose swaps raise.
   */
  datatype Attempt = Attempt(how: Import, fresh_: ModuleId, imports: map<string, Loaded>, broken: set<Sid>)

  datatype ReloadResult = Swapped(cls: Class) | NotLoaded | Escapes

  function ResultOf(how: Import): ReloadResult {
    match how
    case Loads(cls) => Swapped(cls)
    case Undecodable => Escapes
    case ExecExits => Escapes
    case _ => NotLoaded
  }

  /** The module's code was run. */
  predicate Executed(how: Import) {
    how.Loads? || how.ExecExits? || how.ExecRaises? || how.NoAgentClass?
  }

  /** `sys.modules` with the new module entered and its code run, which may import, or replace, any modules. */
  function Ran(modules: map<string, Loaded>, name: string, fresh_: ModuleId, imports: map<string, Loaded>)
    : map<string, Loaded>
  {
    modules[name := Some(fresh_)] + imports
  }

  /** `sys.modules` after a re-import of `name` as module object `fresh_`. */
  function ModulesAfter(modules: map<string, Loaded>, name: string, a: Attempt): map<string, Loaded> {
    var ran := Ran(modules, name, a.fresh_, a.imports);
    if !Executed(a.how) then modules
    else if a.how.Loads? || a.how.ExecExits? then ran
    else if name in modules && modules[name].Some? then ran[name := modules[name]]
    else ran - {name}
  }

  /** `reload_agent_module`: the entry is replaced before the code runs, and put back (or popped) on an `Exception`. */
  method ReloadAgentModule(modules: map<string, Loaded>, name: string, a: Attempt)
    returns (after: map<string, Loaded>, result: ReloadResult)
    ensures after == ModulesAfter(modules, name, a) && result == ResultOf(a.how)
    ensures match result
            case Swapped(cls) => a.how == Loads(cls)
            case Escapes => a.how.Undecodable? || a.how.ExecExits?
            case NotLoaded => !a.how.Loads? && !a.how.Undecodable? && !a.how.ExecExits?
  {
    after := modules;
    if a.how.Unreadable? || a.how.BadSyntax? || a.how.NoSpec? {
      return after, NotLoaded;
    }
    if a.how.Undecodable? {
      return after, Escapes;
    }
    var oldModule := if name in after then after[name] else None;
    after := after[name := Some(a.fresh_)];
    after := after + a.imports;
    if a.how.ExecRaises? || a.how.NoAgentClass? {
      if oldModule.Some? {
        after := after[name := oldModule];
      } else {
        after := after - {name};
      }
      return after, NotLoaded;
    }
    if a.how.ExecExits? {
      return after, Escapes;
    }
    return after, Swapped(a.how.cls);
  }

  ghost predicate SameEntry(before: map<string, Loaded>, after: map<string, Loaded>, key: string) {
    (key in after <==> key in before) && (key in before ==> after[key] == before[key])
  }

  /** Nothing blocks the module: it is not entered as Python's `None`. */
  predicate NotBlocked(modules: map<string, Loaded>, name: string) {
    name in modules ==> modules[name].Some?
  }

  /** When the module's own entry is as it was before. */
  predicate EntryKept(modules: map<string, Loaded>, name: string, a: Attempt) {
    if !Executed(a.how) then true
    else if a.how.ExecExits? then name in a.imports && name in modules && a.imports[name] == modules[name]
    else NotBlocked(modules, name)
  }

  /**
   A re-import that does not swap leaves the module's own entry as it was exactly when its code
   was not run, or raised an `Exception` with the name not blocked before, or, raising anything
   else, had put the old entry back itself. Any other entry is as it was exactly unless that code
   put something else there.
   */
  lemma RollbackExact(modules: map<string, Loaded>, name: string, a: Attempt)
    requires !a.how.Loads?
    requires name in modules ==> modules[name] != Some(a.fresh_)
    ensures SameEntry(modules, ModulesAfter(modules, name, a), name) <==> EntryKept(modules, name, a)
    ensures forall key :: key != name ==>
              (SameEntry(modules, ModulesAfter(modules, name, a), key)
               <==> !Executed(a.how) || key !in a.imports || (key in modules && modules[key] == a.imports[key]))
  {
    var after := ModulesAfter(modules, name, a);
    if a.how.ExecExits? {
      assert after[name] == if name in a.imports then a.imports[name] else Some(a.fresh_);
    }
    forall key | key != name && Executed(a.how)
      ensures key in after <==> key in modules || key in a.imports
      ensures key in after ==> after[key] == if key in a.imports then a.imports[key] else modules[key]
    {
    }
  }

  /**
   A re-import that swaps leaves the new module entered, unless its own code entered something
   else, and keeps its imports.
   */
  lemma LoadedIsEntered(modules: map<string, Loaded>, name: string, a: Attempt)
    requires a.how.Loads?
    ensures var after := ModulesAfter(modules, name, a);
            && name in after && after[name] == (if name in a.imports then a.imports[name] else Some(a.fresh_))
            && (forall key :: key in a.imports ==> key in after && after[key] == a.imports[key])
            && (forall key :: key !in a.imports && key != name ==> SameEntry(modules, after, key))
  {
  }

  /** Module code that exits leaves its half-run module behind. */
  lemma ExitKeepsHalfRun(imports: map<string, Loaded>)
    requires "agents.a" !in imports
    ensures var before := map["agents.a" := Some(1)];
            ModulesAfter(before, "agents.a", Attempt(ExecExits, 2, imports, {}))["agents.a"] == Some(2)
  {
  }

  /** A blocked name is no longer blocked after a failed run: its entry is popped, not restored. */
  lemma BlockedIsPopped()
    ensures ModulesAfter(map["agents.a" := None], "agents.a", Attempt(ExecRaises, 2, map[], {})) == map[]
  {
  }

  /**
   Even code that replaces its own entry is rolled back when it raises an `Exception`, unless
   the name was blocked.
   */
  lemma OwnEntryRolledBack(modules: map<string, Loaded>, name: string, a: Attempt)
    requires ResultOf(a.how).NotLoaded?
    ensures SameEntry(modules, ModulesAfter(modules, name, a), name)
       <==> !Executed(a.how) || NotBlocked(modules, name)
  {
  }

  // ---- re-binding live sessions ----

  datatype Report = Report(agent: string, swapped: bool, sessions: nat)

  /** `classOf` is each agent's registered class, `running` each session's current agent class. */
  datatype Host = Host(
    classOf: map<string, Class>, running: map<Sid, Class>, modules: map<string, Loaded>, reports: seq<Report>)

  /** Registered sessions of the agent that a swap to `cls` changes: unpinned, on another class, and not raising. */
  ghost function Targets(running: map<Sid, Class>, entries: seq<Entry>, pinned: set<Sid>, broken: set<Sid>,
      agent: string, cls: Class): set<Sid> {
    set e | e in entries && e.agent == agent && e.session in running && running[e.session] != cls
            && e.session !in pinned && e.session !in broken :: e.session
  }

  ghost function Swappable(sessions: seq<Sid>, running: map<Sid, Class>, cls: Class, pinned: set<Sid>,
      broken: set<Sid>): set<Sid> {
    set s | s in sessions && s in running && running[s] != cls && s !in pinned && s !in broken
  }

  ghost function Bound(running: map<Sid, Class>, targets: set<Sid>, cls: Class): map<Sid, Class> {
    map s | s in running :: if s in targets then cls else running[s]
  }

  ghost function Rebound(h: Host, entries: seq<Entry>, pinned: set<Sid>, broken: set<Sid>, agent: string,
      cls: Class): Host
    requires agent in h.classOf
  {
    if h.classOf[agent] == cls then h
    else h.(classOf := h.classOf[agent := cls],
            running := Bound(h.running, Targets(h.running, entries, pinned, broken, agent, cls), cls))
  }

  ghost function SwapCount(h: Host, entries: seq<Entry>, pinned: set<Sid>, broken: set<Sid>, agent: string,
      cls: Class): nat
    requires agent in h.classOf
  {
    if h.classOf[agent] == cls then 0 else |Targets(h.running, entries, pinned, broken, agent, cls)|
  }

  /** The session is registered, if at all, for other agents. */
  ghost predicate OthersOnly(entries: seq<Entry>, agent: string, s: Sid) {
    forall e :: e in entries && e.session == s ==> e.agent != agent
  }

  /**
   A class-changing swap: every registered unpinned session of the agent whose swap does not
   raise ends on the new class; everyone else keeps theirs; and the count is the number of
   sessions whose class changed.
   */
  lemma SwapExact(h: Host, entries: seq<Entry>, pinned: set<Sid>, broken: set<Sid>, agent: string, cls: Class)
    requires agent in h.classOf && h.classOf[agent] != cls
    requires forall e :: e in entries ==> e.session in h.running
    ensures var after := Rebound(h, entries, pinned, broken, agent, cls);
            && after.classOf == h.classOf[agent := cls] && after.running.Keys == h.running.Keys
            && (forall e :: e in entries && e.agent == agent && e.session !in pinned && e.session !in broken ==>
                  after.running[e.session] == cls)
            && (forall s :: s in h.running && (s in pinned || s in broken || OthersOnly(entries, agent, s)) ==>
                  after.running[s] == h.running[s])
            && SwapCount(h, entries, pinned, broken, agent, cls)
               == |set s | s in h.running && after.running[s] != h.running[s]|
  {
    var targets := Targets(h.running, entries, pinned, broken, agent, cls);
    var after := Rebound(h, entries, pinned, broken, agent, cls);
    assert targets == set s | s in h.running && after.running[s] != h.running[s];
  }

  /**
   A reload that returns the class already registered changes nothing at all. So after any
   reload the agent's registered, unpinned, non-raising sessions are all on its class if and
   only if the class was new, or none of them lagged behind.
   */
  lemma AllCurrentIffNewOrNoneLagged(h: Host, entries: seq<Entry>, pinned: set<Sid>, broken: set<Sid>, agent: string,
      cls: Class)
    requires agent in h.classOf && forall e :: e in entries ==> e.session in h.running
    ensures h.classOf[agent] == cls ==> Rebound(h, entries, pinned, broken, agent, cls) == h
    ensures (forall e :: e in entries && e.agent == agent && e.session !in pinned && e.session !in broken
                  ==> Rebound(h, entries, pinned, broken, agent, cls).running[e.session] == cls)
       <==> h.classOf[agent] != cls || Targets(h.running, entries, pinned, broken, agent, cls) == {}
  {
    if h.classOf[agent] != cls {
      SwapExact(h, entries, pinned, broken, agent, cls);
    } else {
      assert forall e ::
          e in entries && e.agent == agent && e.session !in pinned && e.session !in broken ==>
            h.running[e.session] == cls || e.session in Targets(h.running, entries, pinned, broken, agent, cls);
    }
  }

  /** A session pinned through a swap and then unpinned does not catch up when the same class is reloaded. */
  lemma LaggardStaysBehind()
    ensures var h := Host(map["a" := 1], map[7 := 0], map[], []);
            Rebound(h, [Entry("j", "a", 7)], {}, {}, "a", 1).running[7] == 0
  {
  }

  // ---- the coordinator ----

  datatype Config = Config(name: string, sourcePath: Option<Path>)

  ghost function ReloadedOne(h: Host, entries: seq<Entry>, pinned: set<Sid>, agent: string, path: Path,
      a: Attempt): Host
    requires agent in h.classOf
  {
    var imported := h.(modules := ModulesAfter(h.modules, path, a));
    match ResultOf(a.how)
    case Escapes => imported
    case NotLoaded => imported.(reports := h.reports + [Report(agent, false, 0)])
    case Swapped(cls) =>
      var rebound := Rebound(imported, entries, pinned, a.broken, agent, cls);
      rebound.(reports := h.reports + [Report(agent, true, SwapCount(imported, entries, pinned, a.broken, agent, cls))])
  }

  /** A failed reload changes neither class, nor any session, nor the module's entry; it is reported. */
  lemma FailedReloadChangesNothing(
    h: Host, entries: seq<Entry>, pinned: set<Sid>, agent: string, path: Path, a: Attempt)
    requires agent in h.classOf && ResultOf(a.how).NotLoaded?
    ensures var after := ReloadedOne(h, entries, pinned, agent, path, a);
            && after == h.(modules := after.modules, reports := h.reports + [Report(agent, false, 0)])
            && (SameEntry(h.modules, after.modules, path) <==> !Executed(a.how) || NotBlocked(h.modules, path))
            && (!Executed(a.how) ==> after.modules == h.modules)
  {
    OwnEntryRolledBack(h.modules, path, a);
  }

  /**
   A successful one is reported with the number of sessions that changed class, after the class
   and the sessions have.
   */
  lemma SwapIsReported(h: Host, entries: seq<Entry>, pinned: set<Sid>, agent: string, path: Path, a: Attempt)
    requires agent in h.classOf && a.how.Loads? && forall e :: e in entries ==> e.session in h.running
    ensures var after := ReloadedOne(h, entries, pinned, agent, path, a);
            && after.classOf == h.classOf[agent := a.how.cls] && after.running.Keys == h.running.Keys
            && after.modules == ModulesAfter(h.modules, path, a)
            && after.reports
               == h.reports + [Report(agent, true, |set s | s in h.running && after.running[s] != h.running[s]|)]
  {
    var imported := h.(modules := ModulesAfter(h.modules, path, a));
    if h.classOf[agent] != a.how.cls {
      SwapExact(imported, entries, pinned, a.broken, agent, a.how.cls);
      assert Rebound(imported, entries, pinned, a.broken, agent, a.how.cls).running
          == ReloadedOne(h, entries, pinned, agent, path, a).running;
    } else {
      assert h.classOf[agent := a.how.cls] == h.classOf;
      assert (set s | s in h.running && h.running[s] != h.running[s]) == {};
    }
  }

  /** An exception that escapes is not reported, and swaps nothing. */
  lemma EscapeIsUnreported(h: Host, entries: seq<Entry>, pinned: set<Sid>, agent: string, path: Path, a: Attempt)
    requires agent in h.classOf && (a.how.Undecodable? || a.how.ExecExits?)
    ensures ReloadedOne(h, entries, pinned, agent, path, a) == h.(modules := ModulesAfter(h.modules, path, a))
  {
  }

  /** The agents loaded from `path`, in registration order. */
  function AgentsAt(configs: seq<Config>, path: Path): seq<string> {
    if configs == [] then []
    else AgentsAt(configs[..|configs| - 1], path)
         + if configs[|configs| - 1].sourcePath == Some(path) then [configs[|configs| - 1].name] else []
  }

  /** The agents loaded from the path and no other: an agent registered later comes last. */
  lemma AgentsAtOneMore(configs: seq<Config>, config: Config, path: Path)
    ensures AgentsAt([], path) == []
    ensures AgentsAt(configs + [config], path)
         == if config.sourcePath == Some(path) then AgentsAt(configs, path) + [config.name] else AgentsAt(configs, path)
  {
    assert (configs + [config])[..|configs|] == configs;
  }

  /** The reloads one batch asks for, in order: each non-deleted change, each agent loaded from its path. */
  function WorkOf(configs: seq<Config>, changes: seq<FileChange>): seq<(string, Path)> {
    if changes == [] then []
    else (if changes[0].changeType.Deleted? then [] else Pair(AgentsAt(configs, changes[0].path), changes[0].path))
         + WorkOf(configs, changes[1..])
  }

  function Pair(agents: seq<string>, path: Path): seq<(string, Path)> {
    if agents == [] then [] else [(agents[0], path)] + Pair(agents[1..], path)
  }

  lemma WorkHead(configs: seq<Config>, changes: seq<FileChange>)
    requires changes != []
    ensures WorkOf(configs, changes) == WorkOf(configs, [changes[0]]) + WorkOf(configs, changes[1..])
  {
    hide AgentsAt, Pair;
    assert [changes[0]][1..] == [];
  }

  /** A batch is the reloads of its changes one after another. */
  lemma {:induction false} WorkOfBatch(configs: seq<Config>, first: seq<FileChange>, later: seq<FileChange>)
    ensures WorkOf(configs, first + later) == WorkOf(configs, first) + WorkOf(configs, later)
  {
    hide WorkOf;
    if first == [] {
      assert first + later == later && WorkOf(configs, first) == [] by { NoChanges(configs); }
    } else {
      WorkOfBatch(configs, first[1..], later);
      assert (first + later)[1..] == first[1..] + later;
      WorkHead(configs, first);
      WorkHead(configs, first + later);
    }
  }

  lemma NoChanges(configs: seq<Config>)
    ensures WorkOf(configs, []) == []
  {
  }

  /** One change asks for a reload of each of its agents, in order, and for none if the file was deleted. */
  lemma WorkOfOne(configs: seq<Config>, change: FileChange)
    ensures var work, agents := WorkOf(configs, [change]), AgentsAt(configs, change.path);
            if change.changeType.Deleted? then work == []
            else |work| == |agents| && forall i :: 0 <= i < |work| ==> work[i] == (agents[i], change.path)
  {
    hide AgentsAt, Pair;
    assert [change][1..] == [];
    PairExactly(AgentsAt(configs, change.path), change.path);
  }

  lemma {:induction false} PairExactly(agents: seq<string>, path: Path)
    ensures |Pair(agents, path)| == |agents|
    ensures forall i :: 0 <= i < |agents| ==> Pair(agents, path)[i] == (agents[i], path)
  {
    if agents != [] {
      PairExactly(agents[1..], path);
    }
  }

  ghost predicate Known(classOf: map<string, Class>, work: seq<(string, Path)>) {
    forall w :: w in work ==> w.0 in classOf
  }

  /** The batch run to its end, or to the first attempt whose exception escapes; attempt `n` is the next one. */
  ghost function BatchDone(h: Host, entries: seq<Entry>, pinned: set<Sid>, work: seq<(string, Path)>,
      attempts: nat -> Attempt, n: nat): (Host, bool)
    requires Known(h.classOf, work)
    decreases |work|
  {
    if work == [] then (h, true)
    else
      var next := ReloadedOne(h, entries, pinned, work[0].0, work[0].1, attempts(n));
      if ResultOf(attempts(n).how).Escapes? then (next, false)
      else BatchDone(next, entries, pinned, work[1..], attempts, n + 1)
  }

  lemma BatchNext(h: Host, entries: seq<Entry>, pinned: set<Sid>, work: seq<(string, Path)>,
      attempts: nat -> Attempt, n: nat)
    requires work != [] && Known(h.classOf, work)
    ensures work[0].0 in h.classOf && Known(h.classOf, work[1..])
    ensures var next := ReloadedOne(h, entries, pinned, work[0].0, work[0].1, attempts(n));
            && next.classOf.Keys == h.classOf.Keys
            && BatchDone(h, entries, pinned, work, attempts, n)
               == if attempts(n).how.Undecodable? || attempts(n).how.ExecExits? then (next, false)
                  else BatchDone(next, entries, pinned, work[1..], attempts, n + 1)
  {
    ReloadKeepsAgents(h, entries, pinned, work[0].0, work[0].1, attempts(n));
    hide ReloadedOne;
  }

  lemma KnownParts(classOf: map<string, Class>, first: seq<(string, Path)>, later: seq<(string, Path)>)
    ensures Known(classOf, first + later) <==> Known(classOf, first) && Known(classOf, later)
    ensures first != [] ==> (first + later)[1..] == first[1..] + later && (first + later)[0] == first[0]
  {
    assert forall w :: w in first + later <==> w in first || w in later;
  }

  lemma KnownAlike(classOf: map<string, Class>, other: map<string, Class>, work: seq<(string, Path)>)
    requires classOf.Keys == other.Keys
    ensures Known(classOf, work) <==> Known(other, work)
  {
  }

  /**
   A batch in two parts: the second goes on where the first ended, unless an exception escaped from
   the first.
   */
  lemma {:induction false} BatchSplits(h: Host, entries: seq<Entry>, pinned: set<Sid>, first: seq<(string, Path)>,
      later: seq<(string, Path)>, attempts: nat -> Attempt, n: nat)
    requires Known(h.classOf, first) && Known(h.classOf, later)
    ensures Known(h.classOf, first + later)
    ensures var (after, ok) := BatchDone(h, entries, pinned, first, attempts, n);
            && after.classOf.Keys == h.classOf.Keys && Known(after.classOf, later)
            && BatchDone(h, entries, pinned, first + later, attempts, n)
               == if ok then BatchDone(after, entries, pinned, later, attempts, n + |first|) else (after, false)
    decreases |first|
  {
    KnownParts(h.classOf, first, later);
    hide ReloadedOne, Known;
    if first == [] {
      assert first + later == later;
    } else {
      hide BatchDone;
      BatchNext(h, entries, pinned, first, attempts, n);
      BatchNext(h, entries, pinned, first + later, attempts, n);
      if !attempts(n).how.Undecodable? && !attempts(n).how.ExecExits? {
        var next := ReloadedOne(h, entries, pinned, first[0].0, first[0].1, attempts(n));
        KnownAlike(h.classOf, next.classOf, later);
        KnownAlike(h.classOf, next.classOf, first[1..]);
        BatchSplits(next, entries, pinned, first[1..], later, attempts, n + 1);
      }
    }
    KnownAlike(h.classOf, BatchDone(h, entries, pinned, first, attempts, n).0.classOf, later);
  }

  lemma ReloadKeepsAgents(h: Host, entries: seq<Entry>, pinned: set<Sid>, agent: string, path: Path, a: Attempt)
    requires agent in h.classOf
    ensures ReloadedOne(h, entries, pinned, agent, path, a).classOf.Keys == h.classOf.Keys
  {
  }

  class ReloadCoordinator {
    var classOf: map<string, Class>
    var running: map<Sid, Class>
    var modules: map<string, Loaded>
    var reports: seq<Report>
    const configs: seq<Config>
    const registry: LiveSessionRegistry

    ghost function View(): Host
      reads this
    {
      Host(classOf, running, modules, reports)
    }

    /** Every config has a class and every registered session an agent. */
    ghost predicate Valid()
      reads this, registry
    {
      && (forall c :: c in configs ==> c.name in classOf)
      && (forall e :: e in registry.byJob ==> e.session in running)
    }

    constructor (configs: seq<Config>, registry: LiveSessionRegistry,
        classOf: map<string, Class>, running: map<Sid, Class>, modules: map<string, Loaded>)
      requires forall c :: c in configs ==> c.name in classOf
      requires forall e :: e in registry.byJob ==> e.session in running
      ensures Valid() && View() == Host(classOf, running, modules, [])
      ensures this.configs == configs && this.registry == registry
    {
      this.configs, this.registry := configs, registry;
      this.classOf, this.running, this.modules, this.reports := classOf, running, modules, [];
    }

    /** The fan-out of a class-changing swap; a session listed twice is found on the new class the second time. */
    method SwapSessions(sessions: seq<Sid>, cls: Class, pinned: set<Sid>, broken: set<Sid>) returns (swapped: nat)
      requires forall s :: s in sessions ==> s in running
      modifies this`running
      ensures running == Bound(old(running), Swappable(sessions, old(running), cls, pinned, broken), cls)
      ensures swapped == |Swappable(sessions, old(running), cls, pinned, broken)|
    {
      swapped := 0;
      ghost var was := running;
      assert running == Bound(was, Swappable([], was, cls, pinned, broken), cls);
      for i := 0 to |sessions|
        invariant running == Bound(was, Swappable(sessions[..i], was, cls, pinned, broken), cls)
        invariant swapped == |Swappable(sessions[..i], was, cls, pinned, broken)|
      {
        var session := sessions[i];
        ghost var before := Swappable(sessions[..i], was, cls, pinned, broken);
        assert sessions[..i + 1] == sessions[..i] + [session];
        ghost var after := Swappable(sessions[..i + 1], was, cls, pinned, broken);
        if session in pinned || running[session] == cls || session in broken {
          assert after == before;
          continue;
        }
        assert after == before + {session};
        running := running[session := cls];
        swapped := swapped + 1;
      }
      assert sessions[..|sessions|] == sessions;
    }

    /** `rebind_agent`, on the sessions the registry has now. */
    method RebindAgent(agent: string, cls: Class, pinned: set<Sid>, broken: set<Sid>) returns (swapped: nat)
      requires Valid() && agent in classOf
      modifies this`classOf, this`running
      ensures Valid() && View() == Rebound(old(View()), registry.byJob, pinned, broken, agent, cls)
      ensures swapped == SwapCount(old(View()), registry.byJob, pinned, broken, agent, cls)
      ensures classOf.Keys == old(classOf).Keys
    {
      hide SessionsOf;
      var oldCls := classOf[agent];
      classOf := classOf[agent := cls];
      if cls == oldCls {
        assert classOf == old(classOf);
        return 0;
      }
      var sessions := registry.SessionsFor(agent);
      SessionsOfMembers(registry.byJob, agent);
      assert forall s :: s in sessions ==> s in running;
      assert Swappable(sessions, running, cls, pinned, broken)
        == Targets(running, registry.byJob, pinned, broken, agent, cls);
      swapped := SwapSessions(sessions, cls, pinned, broken);
    }

    /** One agent re-imported and re-bound; `false` when an exception escapes to the caller. */
    method ReloadOne(agent: string, path: Path, pinned: set<Sid>, a: Attempt) returns (ok: bool)
      requires Valid() && agent in classOf
      modifies this
      ensures Valid() && View() == ReloadedOne(old(View()), registry.byJob, pinned, agent, path, a)
      ensures classOf.Keys == old(classOf).Keys
      ensures ok <==> !ResultOf(a.how).Escapes?
    {
      var after, result := ReloadAgentModule(modules, path, a);
      modules := after;
      match result {
        case Escapes => return false;
        case NotLoaded =>
          reports := reports + [Report(agent, false, 0)];
        case Swapped(cls) =>
          var swapped := RebindAgent(agent, cls, pinned, a.broken);
          reports := reports + [Report(agent, true, swapped)];
      }
      return true;
    }

    method ConfigsBySourcePath() returns (byPath: map<Path, seq<string>>)
      ensures forall p :: (if p in byPath then byPath[p] else []) == AgentsAt(configs, p)
    {
      byPath := map[];
      for i := 0 to |configs|
        invariant forall p :: (if p in byPath then byPath[p] else []) == AgentsAt(configs[..i], p)
      {
        assert configs[..i + 1][..i] == configs[..i];
        if configs[i].sourcePath.Some? {
          var p := configs[i].sourcePath.value;
          byPath := byPath[p := (if p in byPath then byPath[p] else []) + [configs[i].name]];
        }
      }
      assert configs[..|configs|] == configs;
    }

    /** `on_change`: one pass over the batch, with no suspension inside. */
    method OnChange(changes: seq<FileChange>, pinned: set<Sid>, attempts: nat -> Attempt) returns (ok: bool)
      requires Valid()
      modifies this
      ensures Valid()
      ensures (forall w :: w in WorkOf(configs, changes) ==> w.0 in old(classOf))
              && (View(), ok) == BatchDone(old(View()), registry.byJob, pinned, WorkOf(configs, changes), attempts, 0)
    {
      hide WorkOf, BatchDone, AgentsAt;
      var byPath := ConfigsBySourcePath();
      WorkRegistered(configs, changes);
      ghost var all := Remaining(changes, pinned, attempts, 0);
      assert changes[0..] == changes;
      var n := 0;
      for i := 0 to |changes|
        invariant Valid() && classOf.Keys == old(classOf).Keys
        invariant all == Remaining(changes[i..], pinned, attempts, n)
      {
        var change := changes[i];
        WorkStep(configs, changes, i);
        if change.changeType == Deleted {
          continue;
        }
        var agents := if change.path in byPath then byPath[change.path] else [];
        AgentsAtMembers(configs, change.path);
        ok, n := ReloadAgents(agents, change.path, changes[i + 1..], pinned, attempts, n);
        if !ok {
          return;
        }
      }
      NoWork(configs, changes[|changes|..], View(), registry.byJob, pinned, attempts, n);
      return true;
    }

    /** What the rest of the batch comes to from here. */
    ghost function Remaining(changes: seq<FileChange>, pinned: set<Sid>, attempts: nat -> Attempt, n: nat): (Host, bool)
      reads this, registry
      requires Valid()
    {
      WorkRegistered(configs, changes);
      BatchDone(View(), registry.byJob, pinned, WorkOf(configs, changes), attempts, n)
    }

    /** The inner loop, over the agents loaded from one changed path. */
    method ReloadAgents(agents: seq<string>, path: Path, ghost rest: seq<FileChange>, pinned: set<Sid>,
        attempts: nat -> Attempt, first: nat)
      returns (ok: bool, n: nat)
      requires Valid() && forall a :: a in agents ==> a in classOf
      modifies this
      ensures Valid() && classOf.Keys == old(classOf).Keys
      ensures (forall w :: w in Pair(agents, path) + WorkOf(configs, rest) ==> w.0 in old(classOf))
      ensures var work := Pair(agents, path) + WorkOf(configs, rest);
              var all := BatchDone(old(View()), registry.byJob, pinned, work, attempts, first);
              if ok then all == Remaining(rest, pinned, attempts, n) else all == (View(), false)
    {
      hide WorkOf, BatchDone, ReloadedOne, Pair;
      WorkRegistered(configs, rest);
      PairMembers(agents, path);
      n := first;
      ghost var todo := WorkOf(configs, rest);
      ghost var all := BatchDone(View(), registry.byJob, pinned, Pair(agents, path) + todo, attempts, first);
      assert agents[0..] == agents;
      for i := 0 to |agents|
        invariant Valid() && classOf.Keys == old(classOf).Keys
        invariant forall w :: w in Pair(agents[i..], path) + todo ==> w.0 in classOf
        invariant all == BatchDone(View(), registry.byJob, pinned, Pair(agents[i..], path) + todo, attempts, n)
      {
        BatchStep(View(), registry.byJob, pinned, agents, i, path, todo, attempts, n);
        ok := ReloadOne(agents[i], path, pinned, attempts(n));
        if !ok {
          return;
        }
        n := n + 1;
      }
      PairNone(path, agents[|agents|..]);
      assert [] + todo == todo;
      ok := true;
    }
  }

  lemma PairNone(path: Path, agents: seq<string>)
    requires agents == []
    ensures Pair(agents, path) == []
  {
  }

  lemma WorkStep(configs: seq<Config>, changes: seq<FileChange>, i: nat)
    requires i < |changes|
    ensures WorkOf(configs, changes[i..])
         == if changes[i].changeType.Deleted? then WorkOf(configs, changes[i + 1..])
            else Pair(AgentsAt(configs, changes[i].path), changes[i].path) + WorkOf(configs, changes[i + 1..])
  {
    assert changes[i..][1..] == changes[i + 1..];
  }

  lemma NoWork(configs: seq<Config>, changes: seq<FileChange>, h: Host, entries: seq<Entry>, pinned: set<Sid>,
      attempts: nat -> Attempt, n: nat)
    requires changes == []
    ensures WorkOf(configs, changes) == [] && BatchDone(h, entries, pinned, [], attempts, n) == (h, true)
  {
  }

  lemma BatchStep(h: Host, entries: seq<Entry>, pinned: set<Sid>, agents: seq<string>, i: nat, path: Path,
      rest: seq<(string, Path)>, attempts: nat -> Attempt, n: nat)
    requires i < |agents| && forall w :: w in Pair(agents[i..], path) + rest ==> w.0 in h.classOf
    ensures agents[i] in h.classOf
    ensures forall w :: w in Pair(agents[i + 1..], path) + rest ==> w.0 in h.classOf
    ensures var next := ReloadedOne(h, entries, pinned, agents[i], path, attempts(n));
            BatchDone(h, entries, pinned, Pair(agents[i..], path) + rest, attempts, n)
            == if ResultOf(attempts(n).how).Escapes? then (next, false)
               else BatchDone(next, entries, pinned, Pair(agents[i + 1..], path) + rest, attempts, n + 1)
  {
    hide ReloadedOne, ResultOf;
    var work := Pair(agents[i..], path) + rest;
    assert agents[i..][1..] == agents[i + 1..];
    assert work[0] == (agents[i], path) && work[1..] == Pair(agents[i + 1..], path) + rest;
    assert work[0] in work && forall w :: w in work[1..] ==> w in work;
  }

  lemma {:induction false} PairMembers(agents: seq<string>, path: Path)
    ensures forall w :: w in Pair(agents, path) ==> w.0 in agents
  {
    if agents != [] {
      PairMembers(agents[1..], path);
    }
  }

  lemma {:induction false} AgentsAtMembers(configs: seq<Config>, path: Path)
    ensures forall a :: a in AgentsAt(configs, path) ==> exists c :: c in configs && c.name == a
  {
    if configs != [] {
      var init, last := configs[..|configs| - 1], configs[|configs| - 1];
      AgentsAtMembers(init, path);
      assert configs == init + [last];
    }
  }

  lemma {:induction false} WorkRegistered(configs: seq<Config>, changes: seq<FileChange>)
    ensures forall w :: w in WorkOf(configs, changes) ==> exists c :: c in configs && c.name == w.0
  {
    if changes != [] {
      WorkRegistered(configs, changes[1..]);
      AgentsAtMembers(configs, changes[0].path);
      PairMembers(AgentsAt(configs, changes[0].path), changes[0].path);
    }
  }
}
