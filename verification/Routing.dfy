/**
 Which registered agent handles a call: custom router, job metadata, room metadata, room-name
 prefix, first registered.
 */
module Routing {
  import opened Basics

  /** A decoded metadata value: a string, or anything else with its `str()` rendering. */
  datatype Json = Str(text: string) | Other(rendered: string)

  /** A raw dispatch value. `Junk` is neither absent, a mapping, nor a string. */
  datatype Metadata = Absent | Mapping(fields: map<string, Json>) | Text(text: string) | Junk

  /** `json.loads` seen from here: the fields, if the text is JSON and an object. */
  type Decoder = string -> Option<map<string, Json>>

  // ---- str.strip ----

  /** `str.isspace` for one character. */
  predicate IsSpace(c: char) {
    || '\t' <= c <= '\r' || '\U{1c}' <= c <= ' ' || c == '\U{85}' || c == '\U{a0}' || c == '\U{1680}'
    || '\U{2000}' <= c <= '\U{200a}' || c == '\U{2028}' || c == '\U{2029}' || c == '\U{202f}'
    || c == '\U{205f}' || c == '\U{3000}'
  }

  function StripLeft(s: string): string {
    if s != [] && IsSpace(s[0]) then StripLeft(s[1..]) else s
  }

  function StripRight(s: string): string {
    if s != [] && IsSpace(s[|s| - 1]) then StripRight(s[..|s| - 1]) else s
  }

  function Strip(s: string): string {
    StripRight(StripLeft(s))
  }

  ghost predicate NoOuterSpace(s: string) {
    s != [] ==> !IsSpace(s[0]) && !IsSpace(s[|s| - 1])
  }

  lemma {:induction false} StripLeftTrims(s: string)
    ensures StripLeft(s) != [] ==> !IsSpace(StripLeft(s)[0])
  {
    if s != [] && IsSpace(s[0]) {
      StripLeftTrims(s[1..]);
    }
  }

  lemma {:induction false} StripRightTrims(s: string)
    ensures StripRight(s) <= s
    ensures StripRight(s) != [] ==> !IsSpace(StripRight(s)[|StripRight(s)| - 1])
  {
    if s != [] && IsSpace(s[|s| - 1]) {
      StripRightTrims(s[..|s| - 1]);
    }
  }

  /** Stripping changes a string exactly when it has outer whitespace, and leaves none. */
  lemma StripExact(s: string)
    ensures NoOuterSpace(Strip(s))
    ensures Strip(s) == s <==> NoOuterSpace(s)
  {
    StripLeftTrims(s);
    StripRightTrims(StripLeft(s));
  }

  ghost predicate AllSpace(s: string) {
    forall j :: 0 <= j < |s| ==> IsSpace(s[j])
  }

  lemma {:induction false} StripLeftDrops(s: string) returns (before: string)
    ensures s == before + StripLeft(s) && AllSpace(before)
  {
    if s != [] && IsSpace(s[0]) {
      var rest := StripLeftDrops(s[1..]);
      before := [s[0]] + rest;
    } else {
      before := [];
    }
  }

  lemma {:induction false} StripRightDrops(s: string) returns (after: string)
    ensures s == StripRight(s) + after && AllSpace(after)
  {
    if s != [] && IsSpace(s[|s| - 1]) {
      var rest := StripRightDrops(s[..|s| - 1]);
      after := rest + [s[|s| - 1]];
    } else {
      after := [];
    }
  }

  /** What stripping takes away is whitespace, on both ends; the middle stays as it is. */
  lemma StripIsMiddle(s: string)
    ensures exists before, after :: s == before + Strip(s) + after && AllSpace(before) && AllSpace(after)
  {
    var before := StripLeftDrops(s);
    var after := StripRightDrops(StripLeft(s));
    hide StripLeft, StripRight, AllSpace;
    assert s == before + Strip(s) + after;
  }

  // ---- names from metadata ----

  function NameAt(fields: map<string, Json>, key: string): Option<string> {
    if key in fields && fields[key].Str? && Strip(fields[key].text) != "" then Some(Strip(fields[key].text)) else None
  }

  /** `_agent_name_from_mapping`: the key `agent`, then the key `demo`. */
  function NameIn(fields: map<string, Json>): Option<string> {
    if NameAt(fields, "agent").Some? then NameAt(fields, "agent") else NameAt(fields, "demo")
  }

  function FieldsOf(decode: Decoder, metadata: Metadata): Option<map<string, Json>> {
    match metadata
    case Mapping(fields) => Some(fields)
    case Text(text) => if Strip(text) == "" then None else decode(Strip(text))
    case _ => None
  }

  /** `_agent_name_from_metadata`. */
  function NameFrom(decode: Decoder, metadata: Metadata): Option<string> {
    match FieldsOf(decode, metadata)
    case Some(fields) => NameIn(fields)
    case None => None
  }

  /**
   JSON text reads as the mapping it decodes to; blank text, text that is no JSON object, and
   junk read as nothing.
   */
  lemma TextReadsAsMapping(decode: Decoder, text: string)
    ensures var fields := if Strip(text) == "" then None else decode(Strip(text));
            && FieldsOf(decode, Text(text)) == fields
            && NameFrom(decode, Text(text)) == if fields.Some? then NameFrom(decode, Mapping(fields.value)) else None
    ensures NameFrom(decode, Absent).None? && NameFrom(decode, Junk).None?
  {
    hide Strip, NameIn;
  }

  predicate Usable(fields: map<string, Json>, key: string) {
    key in fields && fields[key].Str? && exists c :: c in fields[key].text && !IsSpace(c)
  }

  lemma UsableStrips(text: string)
    ensures Strip(text) != "" <==> exists c :: c in text && !IsSpace(c)
  {
    StripIsMiddle(text);
    StripExact(text);
    var before, after :| text == before + Strip(text) + after && AllSpace(before) && AllSpace(after);
    if Strip(text) != "" {
      assert text[|before|] == Strip(text)[0];
    } else {
      assert text == before + after;
    }
  }

  /** The key `agent` names the agent if its value is a string that is not blank, and only otherwise the key `demo`. */
  lemma NameExactly(decode: Decoder, fields: map<string, Json>)
    ensures NameFrom(decode, Mapping(fields))
         == if Usable(fields, "agent") then Some(Strip(fields["agent"].text))
            else if Usable(fields, "demo") then Some(Strip(fields["demo"].text)) else None
  {
    if "agent" in fields && fields["agent"].Str? {
      UsableStrips(fields["agent"].text);
    }
    if "demo" in fields && fields["demo"].Str? {
      UsableStrips(fields["demo"].text);
    }
    hide Strip;
  }

  /** A name is never empty and carries no outer whitespace, so it can only miss the registry by its own letters. */
  lemma NamesAreTrimmed(decode: Decoder, metadata: Metadata)
    requires NameFrom(decode, metadata).Some?
    ensures var name := NameFrom(decode, metadata).value;
            name != "" && NoOuterSpace(name) && Strip(name) == name
  {
    var fields := FieldsOf(decode, metadata).value;
    var key := if NameAt(fields, "agent").Some? then "agent" else "demo";
    assert NameFrom(decode, metadata).value == Strip(fields[key].text);
    StripExact(fields[key].text);
    StripExact(Strip(fields[key].text));
  }

  // ---- the strategy chain ----

  /** What routing reads of a call; a missing or non-string room name is empty. */
  datatype View = View(roomName: string, job: Metadata, room: Metadata)

  datatype Router = NoRouter | Raises | Defers | Names(name: string)

  datatype Source = FromJob | FromRoom

  datatype RouteError =
    NoAgents | RouterRaised | RouterUnknown(name: string) | UnknownAgent(name: string, source: Source)

  /** `None` defers to the next strategy. */
  type Resolution = Result<Option<string>, RouteError>

  function MetadataStrategy(decode: Decoder, agents: seq<string>, metadata: Metadata, source: Source): Resolution {
    match NameFrom(decode, metadata)
    case None => Return(None)
    case Some(name) => if name in agents then Return(Some(name)) else Throw(UnknownAgent(name, source))
  }

  function FirstPrefix(agents: seq<string>, roomName: string): Option<string> {
    if agents == [] then None
    else if agents[0] + "-" <= roomName then Some(agents[0])
    else FirstPrefix(agents[1..], roomName)
  }

  function RouterStrategy(agents: seq<string>, router: Router): Resolution {
    match router
    case NoRouter => Return(None)
    case Raises => Throw(RouterRaised)
    case Defers => Return(None)
    case Names(name) => if name in agents then Return(Some(name)) else Throw(RouterUnknown(name))
  }

  /** The first resolution that does not defer. */
  function FirstOf(chain: seq<Resolution>, fallback: string): Result<string, RouteError> {
    if chain == [] then Return(fallback)
    else
      match chain[0]
      case Throw(error) => Throw(error)
      case Return(Some(name)) => Return(name)
      case Return(None) => FirstOf(chain[1..], fallback)
  }

  /** `_resolve_agent_config`, up to the lookup of the name. */
  function Route(decode: Decoder, agents: seq<string>, view: View, router: Router): Result<string, RouteError> {
    if agents == [] then Throw(NoAgents)
    else
      FirstOf([RouterStrategy(agents, router),
               MetadataStrategy(decode, agents, view.job, FromJob),
               MetadataStrategy(decode, agents, view.room, FromRoom),
               Return(FirstPrefix(agents, view.roomName))], agents[0])
  }

  lemma {:induction false} FirstPrefixExact(agents: seq<string>, roomName: string)
    ensures match FirstPrefix(agents, roomName)
            case None => forall a :: a in agents ==> !(a + "-" <= roomName)
            case Some(name) =>
              exists i :: 0 <= i < |agents| && agents[i] == name && name + "-" <= roomName
                          && forall j :: 0 <= j < i ==> !(agents[j] + "-" <= roomName)
  {
    if agents != [] && !(agents[0] + "-" <= roomName) {
      var rest := agents[1..];
      FirstPrefixExact(rest, roomName);
      if FirstPrefix(rest, roomName).Some? {
        var i :| 0 <= i < |rest| && rest[i] == FirstPrefix(rest, roomName).value
                 && forall j :: 0 <= j < i ==> !(rest[j] + "-" <= roomName);
        assert agents[i + 1] == rest[i] && forall j :: 0 < j < i + 1 ==> agents[j] == rest[j - 1];
      }
    }
  }

  /** Whatever the router and the metadata say, a routed name is a registered one. */
  lemma RoutedIsRegistered(decode: Decoder, agents: seq<string>, view: View, router: Router)
    requires Route(decode, agents, view, router).Return?
    ensures Route(decode, agents, view, router).value in agents
  {
    FirstPrefixExact(agents, view.roomName);
    RouteCases(decode, agents, view, router);
  }

  /**
   A custom router wins when it names a registered agent, and ends the call when it names any
   other or raises; deferring, it leaves the call to the chain, as if there were no router.
   */
  lemma RouterDecides(decode: Decoder, agents: seq<string>, view: View, router: Router)
    requires agents != []
    ensures Route(decode, agents, view, router)
         == match router
            case Names(name) => if name in agents then Return(name) else Throw(RouterUnknown(name))
            case Raises => Throw(RouterRaised)
            case _ => Route(decode, agents, view, NoRouter)
  {
    RouteCases(decode, agents, view, router);
    RouteCases(decode, agents, view, NoRouter);
    hide Route, MetadataStrategy, FirstPrefix;
  }

  /**
   Without one, metadata that names a stranger ends the call, with its name and where it came
   from; the job's comes first.
   */
  lemma StrangersRaise(decode: Decoder, agents: seq<string>, view: View)
    requires agents != []
    ensures var job, room := NameFrom(decode, view.job), NameFrom(decode, view.room);
            var route := Route(decode, agents, view, NoRouter);
            && (job.Some? ==>
                  route == if job.value in agents then Return(job.value) else Throw(UnknownAgent(job.value, FromJob)))
            && (job.None? && room.Some? ==>
                  route == if room.value in agents then Return(room.value)
                    else Throw(UnknownAgent(room.value, FromRoom)))
            && (job.None? && room.None? ==> route.Return?)
  {
    RouteCases(decode, agents, view, NoRouter);
    hide Route, FirstPrefix, NameFrom;
  }

  /** The chain written out, one strategy after another. */
  lemma RouteCases(decode: Decoder, agents: seq<string>, view: View, router: Router)
    requires agents != []
    ensures var byRouter, byJob, byRoom := RouterStrategy(agents, router),
                                           MetadataStrategy(decode, agents, view.job, FromJob),
                                           MetadataStrategy(decode, agents, view.room, FromRoom);
            Route(decode, agents, view, router)
            == match byRouter
               case Throw(e) => Throw(e)
               case Return(Some(n)) => Return(n)
               case Return(None) =>
                 match byJob
                 case Throw(e) => Throw(e)
                 case Return(Some(n)) => Return(n)
                 case Return(None) =>
                   match byRoom
                   case Throw(e) => Throw(e)
                   case Return(Some(n)) => Return(n)
                   case Return(None) =>
                     match FirstPrefix(agents, view.roomName)
                     case Some(n) => Return(n)
                     case None => Return(agents[0])
  {
    hide RouterStrategy, MetadataStrategy, FirstPrefix;
    var a, b, c, d := RouterStrategy(agents, router), MetadataStrategy(decode, agents, view.job, FromJob),
                      MetadataStrategy(decode, agents, view.room, FromRoom),
                      Resolution.Return(FirstPrefix(agents, view.roomName));
    assert [a, b, c, d][1..] == [b, c, d] && [b, c, d][1..] == [c, d] && [c, d][1..] == [d] && [d][1..] == [];
    FirstOfStep([a, b, c, d], agents[0]);
    FirstOfStep([b, c, d], agents[0]);
    FirstOfStep([c, d], agents[0]);
    FirstOfStep([d], agents[0]);
  }

  lemma FirstOfStep(chain: seq<Resolution>, fallback: string)
    requires chain != []
    ensures FirstOf(chain, fallback)
            == match chain[0]
               case Throw(error) => Throw(error)
               case Return(Some(name)) => Return(name)
               case Return(None) => FirstOf(chain[1..], fallback)
  {
  }
}
