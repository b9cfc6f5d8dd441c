/**
 One tenant cannot be felt by another: over any interleaving of session starts, finishes and
 admission queries, what the worker holds for a tenant and answers to it is the same as on the
 run with every other tenant's events taken out.
 */
module TenantIsolation {
  import opened Basics
  import opened CircuitBreaker
  import opened Metrics
  import RequestFilter

  /** `Ask` is the request filter at work: the circuit layer, then the tenant cap. */
  datatype GateEvent =
    | SessionStart(agent: string, tenant: string)
    | SessionFail(agent: string, tenant: string, message: string)
    | SessionEnd(agent: string, tenant: string, success: bool, at: real)
    | Ask(tenant: string, at: real)

  /** The breaker's slots and the metrics, shared by all tenants. */
  datatype Gate = Gate(slots: map<string, Slot>, store: Store)

  const OPEN_GATE := Gate(map[], EMPTY_STORE)

  function SlotAt(gate: Gate, tenant: string): Slot {
    if tenant in gate.slots then gate.slots[tenant] else CLOSED
  }

  function Step(cfg: Config, gate: Gate, event: GateEvent): Gate {
    match event
    case SessionStart(agent, tenant) => gate.(store := Started(gate.store, agent, tenant))
    case SessionFail(agent, tenant, message) => gate.(store := Failed(gate.store, agent, message, tenant))
    case SessionEnd(agent, tenant, success, at) =>
      Gate(gate.slots[tenant := Record(cfg, SlotAt(gate, tenant), at, success)], Finished(gate.store, agent, tenant))
    case Ask(tenant, at) => gate.(slots := gate.slots[tenant := Query(SlotAt(gate, tenant), at)])
  }

  function Run(cfg: Config, events: seq<GateEvent>): Gate {
    if events == [] then OPEN_GATE
    else Step(cfg, Run(cfg, events[..|events| - 1]), events[|events| - 1])
  }

  /** The admission answer of the circuit and tenant-cap layers together. */
  predicate TurnedAway(gate: Gate, caps: map<string, nat>, tenant: string, at: real) {
    Rejects(SlotAt(gate, tenant), at)
    || (tenant in caps && Get(gate.store.byTenant, tenant) >= caps[tenant])
  }

  /** So it is the filter stack's answer: a pool with these two layers rejects, or leaves the decision to its base. */
  lemma StackAnswers(gate: Gate, caps: map<string, nat>, at: real, env: RequestFilter.Env,
      base: Option<RequestFilter.Filter>, req: RequestFilter.Request)
    requires env.byTenant == gate.store.byTenant && env.now == at
    requires forall t :: SlotOf(env.tenants, t) == SlotAt(gate, t)
    ensures RequestFilter.BaseCalls(env, RequestFilter.Build(RequestFilter.Layers(base, None, Some(caps), true)), req)
         == if TurnedAway(gate, caps, RequestFilter.RequestTenant(env.decode, req), at) then [RequestFilter.Reject]
            else RequestFilter.BaseCalls(env, base, req)
  {
    hide RequestFilter.BaseCalls, RequestFilter.Build, RequestFilter.RequestTenant;
    RequestFilter.StackDecides(env, RequestFilter.Layers(base, None, Some(caps), true), req);
  }

  /** Every answer `tenant` got, in order. */
  function Answers(cfg: Config, caps: map<string, nat>, events: seq<GateEvent>, tenant: string): seq<bool> {
    if events == [] then []
    else
      var init, last := events[..|events| - 1], events[|events| - 1];
      Answers(cfg, caps, init, tenant)
      + if last.Ask? && last.tenant == tenant then [TurnedAway(Run(cfg, init), caps, tenant, last.at)] else []
  }

  /** The run with every other tenant's events taken out. */
  function Only(events: seq<GateEvent>, tenant: string): seq<GateEvent> {
    if events == [] then []
    else
      var last := events[|events| - 1];
      Only(events[..|events| - 1], tenant) + if last.tenant == tenant then [last] else []
  }

  /** What two gates agree on when they cannot be told apart by `tenant`. */
  ghost predicate SameFor(a: Gate, b: Gate, tenant: string) {
    SlotAt(a, tenant) == SlotAt(b, tenant) && Get(a.store.byTenant, tenant) == Get(b.store.byTenant, tenant)
  }

  lemma OwnStepSame(cfg: Config, a: Gate, b: Gate, event: GateEvent)
    requires SameFor(a, b, event.tenant)
    ensures SameFor(Step(cfg, a, event), Step(cfg, b, event), event.tenant)
  {
    hide Record, Query, Append;
  }

  lemma OthersStepUnseen(cfg: Config, a: Gate, event: GateEvent, tenant: string)
    requires event.tenant != tenant
    ensures SameFor(a, Step(cfg, a, event), tenant)
  {
    hide Record, Query, Append;
  }

  /** Tenant non-interference: the state held for `tenant`, and every answer it got. */
  lemma {:induction false} OthersAreInvisible(cfg: Config, caps: map<string, nat>, events: seq<GateEvent>,
      tenant: string)
    ensures SameFor(Run(cfg, events), Run(cfg, Only(events, tenant)), tenant)
    ensures Answers(cfg, caps, events, tenant) == Answers(cfg, caps, Only(events, tenant), tenant)
  {
    if events != [] {
      hide Step;
      var init, last := events[..|events| - 1], events[|events| - 1];
      OthersAreInvisible(cfg, caps, init, tenant);
      if last.tenant == tenant {
        var only := Only(init, tenant);
        assert (only + [last])[..|only|] == only;
        OwnStepSame(cfg, Run(cfg, init), Run(cfg, only), last);
      } else {
        assert Only(events, tenant) == Only(init, tenant);
        OthersStepUnseen(cfg, Run(cfg, init), last, tenant);
      }
    }
  }

  /** The breaker events of one tenant in a run: its session ends and its queries. */
  function BreakerHistory(events: seq<GateEvent>, tenant: string): seq<Event> {
    if events == [] then []
    else
      var last := events[|events| - 1];
      BreakerHistory(events[..|events| - 1], tenant)
      + if last.tenant != tenant then []
        else if last.SessionEnd? then [Recorded(last.at, last.success)]
        else if last.Ask? then [Queried(last.at)] else []
  }

  /** What the gate holds for a tenant is the single-tenant breaker run on its own history. */
  lemma {:induction false} SlotIsOwnReplay(cfg: Config, events: seq<GateEvent>, tenant: string)
    ensures SlotAt(Run(cfg, events), tenant) == Replay(cfg, CLOSED, BreakerHistory(events, tenant))
  {
    if events != [] {
      hide Record, Query, Started, Failed, Finished;
      var init, last := events[..|events| - 1], events[|events| - 1];
      SlotIsOwnReplay(cfg, init, tenant);
      var history := BreakerHistory(init, tenant);
      if last.tenant == tenant && last.SessionEnd? {
        ReplayThen(cfg, CLOSED, history, Recorded(last.at, last.success));
      } else if last.tenant == tenant && last.Ask? {
        ReplayThen(cfg, CLOSED, history, Queried(last.at));
      } else {
        assert BreakerHistory(events, tenant) == history;
      }
    }
  }
}
