/**
 Job admission: which rooms are ours, which agent a job is charged to, and the stack of filter
 layers between a job request and its accept or reject.
 */
module RequestFilter {
  import opened Basics
  import opened CircuitBreaker
  import opened Routing

  const DEFAULT_TENANT := "default"
  const TENANT_ID_MAX: nat := 128

  /** What a filter reads of a request; `roomName` is `None` when the room's name is not a string. */
  datatype Request = Request(roomName: Option<string>, job: Metadata, room: Metadata)

  /** The same inputs as routing sees them. */
  function ViewOf(req: Request): View {
    View(if req.roomName.Some? then req.roomName.value else "", req.job, req.room)
  }

  // ---- ownership and attribution ----

  function Registered(name: Option<string>, agents: seq<string>): Option<string> {
    if name.Some? && name.value in agents then name else None
  }

  /** The registered agent an explicit signal names: job metadata, room metadata, room-name prefix. */
  function Claim(decode: Decoder, agents: seq<string>, req: Request): Option<string> {
    if Registered(NameFrom(decode, req.job), agents).Some? then Registered(NameFrom(decode, req.job), agents)
    else if Registered(NameFrom(decode, req.room), agents).Some? then Registered(NameFrom(decode, req.room), agents)
    else if req.roomName.Some? then FirstPrefix(agents, req.roomName.value)
    else None
  }

  /** `_resolve_request_agent_name`: the claim, or else the first registered agent. */
  function Charged(decode: Decoder, agents: seq<string>, req: Request): Option<string> {
    if agents == [] then None
    else if Claim(decode, agents, req).Some? then Claim(decode, agents, req)
    else Some(agents[0])
  }

  method MatchPrefix(agents: seq<string>, roomName: string) returns (name: Option<string>)
    ensures name == FirstPrefix(agents, roomName)
  {
    for i := 0 to |agents|
      invariant FirstPrefix(agents, roomName) == FirstPrefix(agents[i..], roomName)
    {
      assert agents[i..][1..] == agents[i + 1..];
      if agents[i] + "-" <= roomName {
        return Some(agents[i]);
      }
    }
    return None;
  }

  /** `_owns_room` is true exactly when an explicit signal names a registered agent, the fallback left out. */
  method OwnsRoom(decode: Decoder, agents: seq<string>, req: Request) returns (owns: bool)
    ensures owns <==> Claim(decode, agents, req).Some?
    ensures owns ==> Charged(decode, agents, req) == Claim(decode, agents, req)
  {
    hide FirstPrefix;
    EmptyClaim(decode, req);
    var sources := [req.job, req.room];
    for i := 0 to 2
      invariant forall k :: 0 <= k < i ==> Registered(NameFrom(decode, sources[k]), agents).None?
    {
      var name := NameFrom(decode, sources[i]);
      if name.Some? && name.value in agents {
        return true;
      }
    }
    assert sources[0] == req.job && sources[1] == req.room;
    if req.roomName.Some? {
      var prefix := MatchPrefix(agents, req.roomName.value);
      if prefix.Some? {
        return true;
      }
    }
    return false;
  }

  method ResolveRequestAgentName(decode: Decoder, agents: seq<string>, req: Request) returns (charged: Option<string>)
    ensures charged == Charged(decode, agents, req)
  {
    hide FirstPrefix;
    if agents == [] {
      return None;
    }
    var sources := [req.job, req.room];
    for i := 0 to 2
      invariant forall k :: 0 <= k < i ==> Registered(NameFrom(decode, sources[k]), agents).None?
    {
      var name := NameFrom(decode, sources[i]);
      if name.Some? && name.value in agents {
        assert i == 0 || (i == 1 && sources[0] == req.job);
        return name;
      }
    }
    assert sources[0] == req.job && sources[1] == req.room;
    if req.roomName.Some? {
      var prefix := MatchPrefix(agents, req.roomName.value);
      if prefix.Some? {
        return prefix;
      }
    }
    return Some(agents[0]);
  }

  lemma EmptyClaim(decode: Decoder, req: Request)
    ensures Claim(decode, [], req).None?
  {
  }

  /** The name metadata asks for first: the job's, or else the room's. */
  function FirstNamed(decode: Decoder, req: Request): Option<string> {
    if NameFrom(decode, req.job).Some? then NameFrom(decode, req.job) else NameFrom(decode, req.room)
  }

  lemma RouteByClaim(decode: Decoder, agents: seq<string>, req: Request)
    requires agents != []
    ensures var named := FirstNamed(decode, req);
            if named.None? || named.value in agents
            then Route(decode, agents, ViewOf(req), NoRouter) == Return(Charged(decode, agents, req).value)
            else Route(decode, agents, ViewOf(req), NoRouter).Throw?
  {
    RouteCases(decode, agents, ViewOf(req), NoRouter);
    FirstPrefixExact(agents, "");
    hide Route, FirstPrefix, NameFrom;
  }

  /**
   Two separately written resolvers. Without a custom router, routing either picks the agent
   the job was charged to, or raises; and it raises exactly when there are no agents or the
   first metadata that names an agent names an unregistered one.
   */
  lemma RoutingAgreesWithCharging(decode: Decoder, agents: seq<string>, req: Request)
    ensures var route := Route(decode, agents, ViewOf(req), NoRouter);
            && (route.Return? ==> Charged(decode, agents, req) == Some(route.value))
            && (route.Throw?
                <==> agents == [] || (FirstNamed(decode, req).Some? && FirstNamed(decode, req).value !in agents))
  {
    if agents != [] {
      RouteByClaim(decode, agents, req);
    }
  }

  /**
   An owned room is still refused by routing exactly when the first metadata to name an agent
   names a stranger, while room metadata names one of ours or the room name carries a prefix of ours.
   */
  lemma OwnedYetRefused(decode: Decoder, agents: seq<string>, req: Request)
    ensures Claim(decode, agents, req).Some? && Route(decode, agents, ViewOf(req), NoRouter).Throw?
       <==> && FirstNamed(decode, req).Some? && FirstNamed(decode, req).value !in agents
            && (|| Registered(NameFrom(decode, req.room), agents).Some?
                || (req.roomName.Some? && FirstPrefix(agents, req.roomName.value).Some?))
  {
    EmptyClaim(decode, req);
    RoutingAgreesWithCharging(decode, agents, req);
    hide Route;
  }

  /** The job names a stranger, the room's name has our prefix. */
  lemma OwnedByPrefixYetRefused(decode: Decoder)
    ensures var req := Request(Some("a-1"), Mapping(map["agent" := Str("x")]), Absent);
            Claim(decode, ["a"], req) == Some("a") && Route(decode, ["a"], ViewOf(req), NoRouter).Throw?
  {
    var req := Request(Some("a-1"), Mapping(map["agent" := Str("x")]), Absent);
    StripExact("x");
    assert NameFrom(decode, req.job) == Some("x") && NameFrom(decode, req.room) == None;
    assert "x" !in ["a"];
    assert "a" + "-" <= "a-1";
    OwnedYetRefused(decode, ["a"], req);
  }

  lemma {:induction false} FirstPrefixAppend(agents: seq<string>, more: string, roomName: string)
    ensures FirstPrefix(agents + [more], roomName)
         == if FirstPrefix(agents, roomName).Some? then FirstPrefix(agents, roomName)
            else if more + "-" <= roomName then Some(more) else None
  {
    if agents == [] {
      assert [more][1..] == [];
      assert [] + [more] == [more];
    } else {
      FirstPrefixAppend(agents[1..], more, roomName);
      assert (agents + [more])[1..] == agents[1..] + [more];
    }
  }

  /**
   Registering one more agent changes a successful resolution only for a room that fell back
   to the default and carries the new agent's prefix, which then goes to the new agent.
   */
  lemma AppendingAnAgent(decode: Decoder, agents: seq<string>, more: string, req: Request)
    requires Route(decode, agents, ViewOf(req), NoRouter).Return? && more !in agents
    ensures Route(decode, agents + [more], ViewOf(req), NoRouter)
         == if Claim(decode, agents, req).None? && more + "-" <= ViewOf(req).roomName then Return(more)
            else Route(decode, agents, ViewOf(req), NoRouter)
  {
    RouteCases(decode, agents, ViewOf(req), NoRouter);
    RouteCases(decode, agents + [more], ViewOf(req), NoRouter);
    FirstPrefixAppend(agents, more, ViewOf(req).roomName);
    FirstPrefixExact(agents, "");
    hide Route, FirstPrefix, NameFrom;
  }

  // ---- tenants ----

  /** `_coerce_metadata`: every value by its `str()`. */
  function Coerce(decode: Decoder, metadata: Metadata): map<string, string> {
    match FieldsOf(decode, metadata)
    case None => map[]
    case Some(fields) => map k | k in fields :: if fields[k].Str? then fields[k].text else fields[k].rendered
  }

  /** The merged `tenant` value, room then job; empty when there is none. */
  function RawTenant(decode: Decoder, req: Request): string {
    var merged := Coerce(decode, req.room) + Coerce(decode, req.job);
    if "tenant" in merged then merged["tenant"] else ""
  }

  /** What the filters use: the raw value. */
  function RequestTenant(decode: Decoder, req: Request): string {
    if RawTenant(decode, req) == "" then DEFAULT_TENANT else RawTenant(decode, req)
  }

  /** Job metadata wins over room metadata, even with an empty value, which then means the default tenant. */
  lemma JobTenantWins(decode: Decoder, req: Request)
    ensures var job, room := Coerce(decode, req.job), Coerce(decode, req.room);
            RequestTenant(decode, req)
            == if "tenant" in job then (if job["tenant"] == "" then DEFAULT_TENANT else job["tenant"])
               else if "tenant" in room && room["tenant"] != "" then room["tenant"] else DEFAULT_TENANT
  {
    hide Coerce;
  }

  /** Where the tenant is read: the key `tenant` of the decoded fields, a string as it is, anything else as rendered. */
  lemma CoerceExactly(decode: Decoder, metadata: Metadata)
    ensures var fields, coerced := FieldsOf(decode, metadata), Coerce(decode, metadata);
            && (fields.None? ==> coerced == map[])
            && (fields.Some? ==>
                  && coerced.Keys == fields.value.Keys
                  && forall k :: k in coerced ==>
                       coerced[k] == match fields.value[k] case Str(text) => text case Other(rendered) => rendered)
  {
    hide FieldsOf;
  }

  predicate IsIdChar(c: char) {
    'A' <= c <= 'Z' || 'a' <= c <= 'z' || '0' <= c <= '9' || c == '-' || c == '_'
  }

  /** `require_tenant_id`; `None` is the `ValueError` that rejects the session. */
  function RequireTenantId(value: string): Option<string> {
    var id := Strip(value);
    if id == "" || |id| > TENANT_ID_MAX || exists c :: c in id && !IsIdChar(c) then None else Some(id)
  }

  /** An id is 1 to 128 ASCII letters, digits, dashes and underscores between the outer whitespace of the value. */
  lemma TenantIdExactly(value: string, id: string)
    ensures RequireTenantId(value) == Some(id)
       <==> id == Strip(value) && 1 <= |id| <= 128
            && forall i :: 0 <= i < |id| ==>
                 'A' <= id[i] <= 'Z' || 'a' <= id[i] <= 'z' || '0' <= id[i] <= '9' || id[i] in {'-', '_'}
  {
    hide Strip;
    var x := Strip(value);
    if exists c :: c in x && !IsIdChar(c) {
      var c :| c in x && !IsIdChar(c);
      var i :| 0 <= i < |x| && x[i] == c;
      assert !('A' <= x[i] <= 'Z' || 'a' <= x[i] <= 'z' || '0' <= x[i] <= '9' || x[i] in {'-', '_'});
    } else {
      forall i | 0 <= i < |x|
        ensures 'A' <= x[i] <= 'Z' || 'a' <= x[i] <= 'z' || '0' <= x[i] <= '9' || x[i] in {'-', '_'}
      {
        assert x[i] in x;
      }
    }
  }

  /** What the session uses: the stripped, validated value. */
  function SessionTenant(decode: Decoder, req: Request): Option<string> {
    if RawTenant(decode, req) == "" then Some(DEFAULT_TENANT) else RequireTenantId(RawTenant(decode, req))
  }

  /**
   For a session that starts at all, the filters counted it under its own tenant if and only if
   the raw value had no outer whitespace.
   */
  lemma FilterAndSessionTenant(decode: Decoder, req: Request)
    requires SessionTenant(decode, req).Some?
    ensures SessionTenant(decode, req) == Some(RequestTenant(decode, req)) <==> NoOuterSpace(RawTenant(decode, req))
  {
    hide Strip, Coerce, NoOuterSpace;
    StripExact(RawTenant(decode, req));
    StripExact("");
    assert Strip("") == "" by { EmptyStrip(); }
  }

  /** A padded tenant is counted by the filters under its padding, by the session without. */
  lemma PaddedTenant(decode: Decoder)
    ensures var req := Request(None, Mapping(map["tenant" := Str(" t")]), Absent);
            RequestTenant(decode, req) == " t" && SessionTenant(decode, req) == Some("t")
  {
    var req := Request(None, Mapping(map["tenant" := Str(" t")]), Absent);
    assert Coerce(decode, req.job) == map["tenant" := " t"];
    assert RawTenant(decode, req) == " t";
    assert " t"[1..] == "t";
    assert StripLeft(" t") == "t" && StripRight("t") == "t";
  }

  lemma EmptyStrip()
    ensures Strip("") == "" && NoOuterSpace("")
  {
  }

  // ---- the filter stack ----

  datatype Call = Accept | Reject

  /** A user's own filter is known only by the accept and reject calls it makes. */
  datatype Filter =
    | RegisteredRooms
    | User(calls: seq<Call>)
    | AgentCap(caps: map<string, nat>, base: Option<Filter>)
    | TenantCap(caps: map<string, nat>, base: Option<Filter>)
    | Circuit(base: Option<Filter>)

  /** What the filters consult: agents, live counts, the breaker's tenants, and the time. */
  datatype Env = Env(
    decode: Decoder, agents: seq<string>, byAgent: map<string, nat>, byTenant: map<string, nat>,
    tenants: Tenants, now: real)

  predicate CircuitOpen(env: Env, tenant: string) {
    Rejects(SlotOf(env.tenants, tenant), env.now)
  }

  predicate AtCap(caps: map<string, nat>, counts: map<string, nat>, key: string) {
    key in caps && Get(counts, key) >= caps[key]
  }

  predicate AgentFull(env: Env, caps: map<string, nat>, req: Request) {
    Charged(env.decode, env.agents, req).Some? && AtCap(caps, env.byAgent, Charged(env.decode, env.agents, req).value)
  }

  /** The calls a filter makes on one request, in order. */
  function Calls(env: Env, filter: Filter, req: Request): seq<Call>
    decreases filter
  {
    match filter
    case RegisteredRooms => [if Claim(env.decode, env.agents, req).Some? then Accept else Reject]
    case User(calls) => calls
    case AgentCap(caps, base) => if AgentFull(env, caps, req) then [Reject] else BaseCalls(env, base, req)
    case TenantCap(caps, base) =>
      if AtCap(caps, env.byTenant, RequestTenant(env.decode, req)) then [Reject] else BaseCalls(env, base, req)
    case Circuit(base) => if CircuitOpen(env, RequestTenant(env.decode, req)) then [Reject]
      else BaseCalls(env, base, req)
  }

  function BaseCalls(env: Env, base: Option<Filter>, req: Request): seq<Call>
    decreases base
  {
    match base
    case None => [Accept]
    case Some(filter) => Calls(env, filter, req)
  }

  class JobRequest {
    const req: Request
    var calls: seq<Call>

    constructor (req: Request)
      ensures this.req == req && calls == []
    {
      this.req := req;
      calls := [];
    }

    method Answer(call: Call)
      modifies this
      ensures calls == old(calls) + [call]
    {
      calls := calls + [call];
    }
  }

  /** The request gets as far as the breaker. */
  predicate Consults(env: Env, filter: Option<Filter>, req: Request)
    decreases filter
  {
    match filter
    case Some(AgentCap(caps, base)) => !AgentFull(env, caps, req) && Consults(env, base, req)
    case Some(TenantCap(caps, base)) =>
      !AtCap(caps, env.byTenant, RequestTenant(env.decode, req)) && Consults(env, base, req)
    case Some(Circuit(_)) => true
    case _ => false
  }

  /** The breaker as the request leaves it, for the tenant asked about and for the others. */
  ghost predicate BreakerLeft(before: Tenants, after: Tenants, tenant: string, now: real, consulted: bool) {
    forall t :: SlotOf(after, t)
             == if consulted && t == tenant then Query(SlotOf(before, t), now) else SlotOf(before, t)
  }

  /**
   Run one filter on one request: the nested closures, outermost first. A circuit layer asks the
   breaker, which may recover the tenant on the way, so an inner layer may find it recovered.
   */
  method RunFilter(env: Env, filter: Option<Filter>, job: JobRequest, breaker: TenantCircuitBreaker)
    requires forall t :: SlotOf(breaker.View(), t) == SlotOf(env.tenants, t)
                         || SlotOf(breaker.View(), t) == Query(SlotOf(env.tenants, t), env.now)
    modifies job, breaker
    ensures job.calls == old(job.calls) + BaseCalls(env, filter, job.req)
    ensures BreakerLeft(old(breaker.View()), breaker.View(), RequestTenant(env.decode, job.req), env.now,
                    Consults(env, filter, job.req))
    decreases filter
  {
    hide Claim, Charged, RequestTenant, AtCap, SlotOf;
    var tenant := RequestTenant(env.decode, job.req);
    match filter
    case None => job.Answer(Accept);
    case Some(RegisteredRooms) =>
      var owns := OwnsRoom(env.decode, env.agents, job.req);
      if owns { job.Answer(Accept); } else { job.Answer(Reject); }
    case Some(User(calls)) => job.calls := job.calls + calls;
    case Some(AgentCap(caps, base)) =>
      var name := ResolveRequestAgentName(env.decode, env.agents, job.req);
      if name.Some? && AtCap(caps, env.byAgent, name.value) {
        job.Answer(Reject);
        return;
      }
      RunFilter(env, base, job, breaker);
    case Some(TenantCap(caps, base)) =>
      if AtCap(caps, env.byTenant, tenant) {
        job.Answer(Reject);
        return;
      }
      RunFilter(env, base, job, breaker);
    case Some(Circuit(base)) =>
      var reject := breaker.ShouldReject(tenant, env.now);
      if reject {
        job.Answer(Reject);
        return;
      }
      RunFilter(env, base, job, breaker);
  }

  // ---- the stack a pool builds ----

  /** Which layers are configured, and the decision under them. */
  datatype Layers = Layers(
    base: Option<Filter>, agentCaps: Option<map<string, nat>>, tenantCaps: Option<map<string, nat>>, circuit: bool)

  function Build(layers: Layers): Option<Filter> {
    var f0 := layers.base;
    var f1 := if layers.agentCaps.Some? then Some(AgentCap(layers.agentCaps.value, f0)) else f0;
    var f2 := if layers.tenantCaps.Some? then Some(TenantCap(layers.tenantCaps.value, f1)) else f1;
    if layers.circuit then Some(Circuit(f2)) else f2
  }

  /** Some configured layer turns the request away. */
  predicate Blocked(env: Env, layers: Layers, req: Request) {
    || (layers.circuit && CircuitOpen(env, RequestTenant(env.decode, req)))
    || (layers.tenantCaps.Some? && AtCap(layers.tenantCaps.value, env.byTenant, RequestTenant(env.decode, req)))
    || (layers.agentCaps.Some? && AgentFull(env, layers.agentCaps.value, req))
  }

  /**
   The composed filter: one reject if any configured layer blocks, otherwise exactly the base
   decision. So it makes exactly one call whenever its base does, and it accepts exactly when
   the breaker is closed, tenant and agent are under cap, and the base accepts.
   */
  lemma StackDecides(env: Env, layers: Layers, req: Request)
    ensures var calls, base := BaseCalls(env, Build(layers), req), BaseCalls(env, layers.base, req);
            && calls == (if Blocked(env, layers, req) then [Reject] else base)
            && (|base| == 1 ==> |calls| == 1)
            && (calls == [Accept] <==> !Blocked(env, layers, req) && base == [Accept])
  {
    var f0 := layers.base;
    var f1 := if layers.agentCaps.Some? then Some(AgentCap(layers.agentCaps.value, f0)) else f0;
    var f2 := if layers.tenantCaps.Some? then Some(TenantCap(layers.tenantCaps.value, f1)) else f1;
    hide AtCap, AgentFull, RequestTenant, CircuitOpen;
    assert BaseCalls(env, f1, req)
        == if layers.agentCaps.Some? && AgentFull(env, layers.agentCaps.value, req) then [Reject]
          else BaseCalls(env, f0, req);
    assert BaseCalls(env, f2, req)
        == if layers.tenantCaps.Some? && AtCap(layers.tenantCaps.value, env.byTenant, RequestTenant(env.decode, req))
           then [Reject] else BaseCalls(env, f1, req);
    assert BaseCalls(env, Build(layers), req)
        == if layers.circuit && CircuitOpen(env, RequestTenant(env.decode, req)) then [Reject]
          else BaseCalls(env, f2, req);
  }

  /** The room is named by job metadata, by room metadata, or by the prefix of its own name, as one of `agents`. */
  predicate NamedAsOurs(decode: Decoder, agents: seq<string>, req: Request) {
    || (NameFrom(decode, req.job).Some? && NameFrom(decode, req.job).value in agents)
    || (NameFrom(decode, req.room).Some? && NameFrom(decode, req.room).value in agents)
    || (req.roomName.Some? && exists a :: a in agents && a + "-" <= req.roomName.value)
  }

  /**
   What each layer looks at: an open breaker and the live count of the tenant, the live count of
   the charged agent.
   */
  predicate TurnedAwayBy(env: Env, layers: Layers, req: Request) {
    var tenant, agent := RequestTenant(env.decode, req), Charged(env.decode, env.agents, req);
    var until := SlotOf(env.tenants, tenant).openUntil;
    || (layers.circuit && until.Some? && env.now < until.value)
    || (layers.tenantCaps.Some? && tenant in layers.tenantCaps.value
        && (if tenant in env.byTenant then env.byTenant[tenant] else 0) >= layers.tenantCaps.value[tenant])
    || (layers.agentCaps.Some? && agent.Some? && agent.value in layers.agentCaps.value
        && (if agent.value in env.byAgent then env.byAgent[agent.value] else 0) >= layers.agentCaps.value[agent.value])
  }

  lemma BlockedExactly(env: Env, layers: Layers, req: Request)
    ensures Blocked(env, layers, req) <==> TurnedAwayBy(env, layers, req)
  {
    hide Charged, RequestTenant, SlotOf;
  }

  lemma ClaimedIsNamed(decode: Decoder, agents: seq<string>, req: Request)
    ensures Claim(decode, agents, req).Some? <==> NamedAsOurs(decode, agents, req)
  {
    hide NameFrom, FirstPrefix;
    if req.roomName.Some? {
      FirstPrefixExact(agents, req.roomName.value);
    }
  }

  /**
   A pool that accepts only registered rooms answers each request once: it accepts exactly when no
   layer turns the request away and the room is named as one of its agents.
   */
  lemma RegisteredRoomsDecide(env: Env, layers: Layers, req: Request)
    requires layers.base == Some(RegisteredRooms)
    ensures BaseCalls(env, Build(layers), req)
         == [if !TurnedAwayBy(env, layers, req) && NamedAsOurs(env.decode, env.agents, req) then Accept else Reject]
  {
    StackDecides(env, layers, req);
    BlockedExactly(env, layers, req);
    ClaimedIsNamed(env.decode, env.agents, req);
    hide Build, Blocked, TurnedAwayBy, NamedAsOurs, Claim;
  }

  /** Without a base filter it accepts exactly when no layer turns the request away. */
  lemma NoBaseDecides(env: Env, layers: Layers, req: Request)
    requires layers.base.None?
    ensures BaseCalls(env, Build(layers), req) == [if TurnedAwayBy(env, layers, req) then Reject else Accept]
  {
    StackDecides(env, layers, req);
    BlockedExactly(env, layers, req);
    hide Build, Blocked, TurnedAwayBy;
  }

  /** With a user's own filter, it makes that filter's calls exactly when no layer turns the request away. */
  lemma UserDecides(env: Env, layers: Layers, req: Request)
    requires layers.base.Some? && layers.base.value.User?
    ensures BaseCalls(env, Build(layers), req) == if TurnedAwayBy(env, layers, req) then [Reject]
        else layers.base.value.calls
  {
    StackDecides(env, layers, req);
    BlockedExactly(env, layers, req);
    hide Build, Blocked, TurnedAwayBy;
  }

  /** The breaker is the outermost layer: wherever it is configured, every request asks it; nowhere else is it asked. */
  lemma BreakerIsOutermost(env: Env, layers: Layers, req: Request)
    requires layers.base.None? || layers.base.value.RegisteredRooms? || layers.base.value.User?
    ensures Consults(env, Build(layers), req) <==> layers.circuit
  {
    hide AgentFull, AtCap, RequestTenant;
    var f0 := layers.base;
    var f1 := if layers.agentCaps.Some? then Some(AgentCap(layers.agentCaps.value, f0)) else f0;
    var f2 := if layers.tenantCaps.Some? then Some(TenantCap(layers.tenantCaps.value, f1)) else f1;
    assert !Consults(env, f0, req);
    assert !Consults(env, f1, req);
    assert !Consults(env, f2, req);
  }

  /** `less` is `more` with some layers taken away. */
  ghost predicate FewerLayers(less: Layers, more: Layers) {
    && less.base == more.base && (less.circuit ==> more.circuit)
    && (less.tenantCaps.None? || less.tenantCaps == more.tenantCaps)
    && (less.agentCaps.None? || less.agentCaps == more.agentCaps)
  }

  /** Adding layers never turns a reject into an accept. */
  lemma LayersOnlyRestrict(env: Env, less: Layers, more: Layers, req: Request)
    requires FewerLayers(less, more) && BaseCalls(env, Build(more), req) == [Accept]
    ensures BaseCalls(env, Build(less), req) == [Accept]
  {
    hide BaseCalls, Build, AgentFull, AtCap;
    StackDecides(env, less, req);
    StackDecides(env, more, req);
  }
}
