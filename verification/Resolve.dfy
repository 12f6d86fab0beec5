/**
 Resolution of an agent's references, and the watch mappers that decide which agents a
 changed object re-queues. The two are written separately in the controller; here they
 are proved to agree.
 */
module Resolve {
  import opened Prelude
  import opened Api
  import opened Cluster
  import Text

  // ------------------------------------------------------------------ reading

  type Objects = map<Ref, Object>

  function PolicyOf(objs: Objects, name: string): Option<PolicySpec> {
    var o := Lookup(objs, PolicyRef(name));
    if name != "" && o.Some? && o.value.PolicyObject? then Some(o.value.policy) else None
  }

  function SkillsOf(objs: Objects, name: string): seq<SkillEntry> {
    var o := Lookup(objs, SkillSetRef(name));
    if name != "" && o.Some? && o.value.SkillSetObject? then o.value.skills else []
  }

  function GatewayOf(objs: Objects, name: string): Option<GatewaySpec> {
    var o := Lookup(objs, GatewayRef(name));
    if name != "" && o.Some? && o.value.GatewayObject? then Some(o.value.gateway) else None
  }

  function EndpointOf(objs: Objects, name: string): string {
    var o := Lookup(objs, ObservabilityRef(name));
    if name != "" && o.Some? && o.value.ObservabilityObject? then o.value.otlpEndpoint else ""
  }

  /** The channel when it exists and is enabled. */
  function EnabledChannel(objs: Objects, name: string): seq<ChannelSpec> {
    var o := Lookup(objs, ChannelRef(name));
    if o.Some? && o.value.ChannelObject? && o.value.channel.IsEnabled() then [o.value.channel] else []
  }

  /** Enabled channels in the order the agent lists them. */
  function ChannelsOf(objs: Objects, names: seq<string>): seq<ChannelSpec> {
    if names == [] then []
    else ChannelsOf(objs, names[..|names| - 1]) + EnabledChannel(objs, names[|names| - 1])
  }

  function GatewayURL(ns: string, name: string, gateway: Option<GatewaySpec>): string {
    if gateway.None? then ""
    else "http://" + name + "-gateway." + ns + ".svc.cluster.local:"
         + Text.Decimal(if gateway.value.port == 0 then 8443 else gateway.value.port)
  }

  function Resolved(objs: Objects, n: string, ns: string, spec: AgentSpec): ConfigInput {
    var gateway := GatewayOf(objs, spec.gateway);
    ConfigInput(n, ns, spec, GatewayURL(ns, spec.gateway, gateway), EndpointOf(objs, spec.observability),
                PolicyOf(objs, spec.policy), gateway, ChannelsOf(objs, Elems(spec.channels)),
                SkillsOf(objs, spec.skillSet))
  }

  /** The objects an agent reads. */
  function Refs(spec: AgentSpec): set<Ref> {
    (if spec.policy != "" then {PolicyRef(spec.policy)} else {})
    + (if spec.skillSet != "" then {SkillSetRef(spec.skillSet)} else {})
    + (if spec.gateway != "" then {GatewayRef(spec.gateway)} else {})
    + (if spec.observability != "" then {ObservabilityRef(spec.observability)} else {})
    + (set c | c in Elems(spec.channels) :: ChannelRef(c))
  }

  method ResolveInput(objs: Objects, n: string, ns: string, spec: AgentSpec) returns (input: ConfigInput)
    ensures input == Resolved(objs, n, ns, spec)
  {
    var otlpEndpoint := "";
    if spec.observability != "" { otlpEndpoint := EndpointOf(objs, spec.observability); }
    var skills: seq<SkillEntry> := [];
    if spec.skillSet != "" { skills := SkillsOf(objs, spec.skillSet); }
    var gatewayURL, gateway := "", None;
    if spec.gateway != "" {
      gateway := GatewayOf(objs, spec.gateway);
      gatewayURL := GatewayURL(ns, spec.gateway, gateway);
    }
    var policy: Option<PolicySpec> := None;
    if spec.policy != "" { policy := PolicyOf(objs, spec.policy); }
    var channels := ResolveChannels(objs, Elems(spec.channels));
    input := ConfigInput(n, ns, spec, gatewayURL, otlpEndpoint, policy, gateway, channels, skills);
  }

  method ResolveChannels(objs: Objects, names: seq<string>) returns (channels: seq<ChannelSpec>)
    ensures channels == ChannelsOf(objs, names)
  {
    channels := [];
    for i := 0 to |names|
      invariant channels == ChannelsOf(objs, names[..i])
    {
      assert names[..i + 1][..i] == names[..i];
      var o := Lookup(objs, ChannelRef(names[i]));
      if o.Some? && o.value.ChannelObject? && o.value.channel.IsEnabled() {
        channels := channels + [o.value.channel];
      }
    }
    assert names[..|names|] == names;
  }

  lemma {:induction false} ChannelsLocal(objs: Objects, objs': Objects, names: seq<string>)
    requires forall c :: c in names ==> Lookup(objs, ChannelRef(c)) == Lookup(objs', ChannelRef(c))
    ensures ChannelsOf(objs, names) == ChannelsOf(objs', names)
  {
    if names != [] { ChannelsLocal(objs, objs', names[..|names| - 1]); }
  }

  /** Resolution depends on the referenced objects only. */
  lemma ResolvedLocal(objs: Objects, objs': Objects, n: string, ns: string, spec: AgentSpec)
    requires forall r :: r in Refs(spec) ==> Lookup(objs, r) == Lookup(objs', r)
    ensures Resolved(objs, n, ns, spec) == Resolved(objs', n, ns, spec)
  {
    forall c | c in Elems(spec.channels) ensures Lookup(objs, ChannelRef(c)) == Lookup(objs', ChannelRef(c)) {
      assert ChannelRef(c) in Refs(spec);
    }
    ChannelsLocal(objs, objs', Elems(spec.channels));
  }

  // ------------------------------------------------- what the resolved input holds

  /** The name stands for this channel, and the channel is not switched off. */
  predicate SwitchedOn(objs: Objects, name: string, ch: ChannelSpec) {
    Lookup(objs, ChannelRef(name)) == Some(ChannelObject(ch)) && (ch.enabled == None || ch.enabled == Some(true))
  }

  predicate Serves(objs: Objects, name: string) {
    && Lookup(objs, ChannelRef(name)).Some? && Lookup(objs, ChannelRef(name)).value.ChannelObject?
    && SwitchedOn(objs, name, Lookup(objs, ChannelRef(name)).value.channel)
  }

  /** Positions of a list that pick out exactly the wanted elements of another, in its order. */
  predicate Picks(objs: Objects, names: seq<string>, chs: seq<ChannelSpec>, at: seq<nat>) {
    && |at| == |chs|
    && (forall i, j :: 0 <= i < j < |at| ==> at[i] < at[j])
    && (forall i :: 0 <= i < |at| ==> at[i] < |names| && SwitchedOn(objs, names[at[i]], chs[i]))
    && (forall k :: 0 <= k < |names| && Serves(objs, names[k]) ==> k in at)
  }

  lemma PicksGrow(objs: Objects, names: seq<string>, chs: seq<ChannelSpec>, at: seq<nat>, name: string, ch: ChannelSpec)
    requires Picks(objs, names, chs, at) && SwitchedOn(objs, name, ch)
    ensures Picks(objs, names + [name], chs + [ch], at + [|names|])
  {
    var names', at' := names + [name], at + [|names|];
    forall k | 0 <= k < |names'| && Serves(objs, names'[k]) ensures k in at' {
      if k == |names| { assert at'[|at|] == k; } else { assert names'[k] == names[k] && k in at; }
    }
  }

  lemma PicksSkip(objs: Objects, names: seq<string>, chs: seq<ChannelSpec>, at: seq<nat>, name: string)
    requires Picks(objs, names, chs, at) && !Serves(objs, name)
    ensures Picks(objs, names + [name], chs, at)
  {
    var names' := names + [name];
    forall k | 0 <= k < |names'| && Serves(objs, names'[k]) ensures k in at { assert names'[k] == names[k]; }
  }

  lemma {:induction false} PickedFrom(objs: Objects, names: seq<string>) returns (at: seq<nat>)
    ensures Picks(objs, names, ChannelsOf(objs, names), at)
  {
    if names == [] {
      at := [];
    } else {
      var init, last := names[..|names| - 1], names[|names| - 1];
      assert names == init + [last];
      at := PickedFrom(objs, init);
      if Serves(objs, last) {
        PicksGrow(objs, init, ChannelsOf(objs, init), at, last, Lookup(objs, ChannelRef(last)).value.channel);
        at := at + [|init|];
      } else {
        PicksSkip(objs, init, ChannelsOf(objs, init), at, last);
        assert ChannelsOf(objs, names) == ChannelsOf(objs, init);
      }
    }
  }

  /**
   The channels of the resolved input are the channels that the agent lists and that are not
   switched off, in the order of the list: a strictly increasing choice of positions hits exactly
   the listed names that stand for such a channel.
   */
  lemma ChannelsInListedOrder(objs: Objects, n: string, ns: string, spec: AgentSpec) returns (at: seq<nat>)
    ensures Picks(objs, Elems(spec.channels), Resolved(objs, n, ns, spec).channels, at)
  {
    at := PickedFrom(objs, Elems(spec.channels));
  }

  /** A channel is resolved iff some listed name stands for it and it is not switched off. */
  lemma ChannelResolvedExactly(objs: Objects, n: string, ns: string, spec: AgentSpec, ch: ChannelSpec)
    ensures ch in Resolved(objs, n, ns, spec).channels
            <==> exists k :: 0 <= k < |Elems(spec.channels)| && SwitchedOn(objs, Elems(spec.channels)[k], ch)
  {
    var names, chs := Elems(spec.channels), Resolved(objs, n, ns, spec).channels;
    var at := ChannelsInListedOrder(objs, n, ns, spec);
    if ch in chs {
      var i :| 0 <= i < |chs| && chs[i] == ch;
      assert SwitchedOn(objs, names[at[i]], ch);
    }
    if k :| 0 <= k < |names| && SwitchedOn(objs, names[k], ch) {
      assert Serves(objs, names[k]) && k in at;
      var i :| 0 <= i < |at| && at[i] == k;
      assert chs[i] == ch;
    }
  }

  function Without(names: seq<string>, c: string): seq<string> {
    if names == [] then []
    else Without(names[..|names| - 1], c) + (if names[|names| - 1] == c then [] else [names[|names| - 1]])
  }

  lemma {:induction false} DisabledIsSkipped(objs: Objects, names: seq<string>, c: string, ch: ChannelSpec)
    requires ch.enabled == Some(false)
    ensures ChannelsOf(Assign(objs, ChannelRef(c), Some(ChannelObject(ch))), names)
        == ChannelsOf(objs, Without(names, c))
  {
    var objs' := Assign(objs, ChannelRef(c), Some(ChannelObject(ch)));
    if names != [] {
      var init, last := names[..|names| - 1], names[|names| - 1];
      DisabledIsSkipped(objs, init, c, ch);
      assert Lookup(objs', ChannelRef(last)) == if last == c
        then Some(ChannelObject(ch)) else Lookup(objs, ChannelRef(last));
      if last == c {
        assert Without(names, c) == Without(init, c);
      } else {
        var kept := Without(init, c) + [last];
        assert kept[..|kept| - 1] == Without(init, c) && Without(names, c) == kept;
        assert EnabledChannel(objs', last) == EnabledChannel(objs, last);
      }
    }
  }

  /** Switching a channel off gives an agent the same input as taking the channel's name out of its list. */
  lemma DisablingIsUnlisting(objs: Objects, n: string, ns: string, spec: AgentSpec, c: string, ch: ChannelSpec)
    requires ch.enabled == Some(false)
    ensures Resolved(Assign(objs, ChannelRef(c), Some(ChannelObject(ch))), n, ns, spec)
            == Resolved(objs, n, ns, spec.(channels := Some(Without(Elems(spec.channels), c)))).(spec := spec)
  {
    var objs' := Assign(objs, ChannelRef(c), Some(ChannelObject(ch)));
    DisabledIsSkipped(objs, Elems(spec.channels), c, ch);
    assert Lookup(objs', PolicyRef(spec.policy)) == Lookup(objs, PolicyRef(spec.policy));
    assert Lookup(objs', SkillSetRef(spec.skillSet)) == Lookup(objs, SkillSetRef(spec.skillSet));
    assert Lookup(objs', GatewayRef(spec.gateway)) == Lookup(objs, GatewayRef(spec.gateway));
    assert Lookup(objs', ObservabilityRef(spec.observability)) == Lookup(objs, ObservabilityRef(spec.observability));
  }

  /** The other references: each field of the input is the object of that kind and name, when named and present. */
  lemma ReferencesResolved(objs: Objects, n: string, ns: string, spec: AgentSpec)
    ensures var input := Resolved(objs, n, ns, spec);
            && input.name == n && input.ns == ns && input.spec == spec
            && (forall p :: input.policy == Some(p)
                  <==> spec.policy != "" && Lookup(objs, PolicyRef(spec.policy)) == Some(PolicyObject(p)))
            && (forall g :: input.gateway == Some(g)
                  <==> spec.gateway != "" && Lookup(objs, GatewayRef(spec.gateway)) == Some(GatewayObject(g)))
            && (input.gatewayURL != "" <==> input.gateway.Some?)
            && (forall k ::
                  spec.skillSet != "" && Lookup(objs, SkillSetRef(spec.skillSet)) == Some(SkillSetObject(k)) ==>
                    input.skills == k)
            && (spec.skillSet == "" || Lookup(objs, SkillSetRef(spec.skillSet)).None? ==> input.skills == [])
            && (forall e :: spec.observability != ""
                            && Lookup(objs, ObservabilityRef(spec.observability)) == Some(ObservabilityObject(e)) ==>
                              input.otlpEndpoint == e)
            && (spec.observability == "" || Lookup(objs, ObservabilityRef(spec.observability)).None? ==>
                  input.otlpEndpoint == "")
  {
  }

  // ------------------------------------------------------------------- mappers

  predicate ListsChannel(spec: AgentSpec, name: string) { name in Elems(spec.channels) }

  /** The five mapper predicates, one per watched kind. */
  predicate References(spec: AgentSpec, r: Ref) {
    match r
    case PolicyRef(name) => spec.policy == name
    case SkillSetRef(name) => spec.skillSet == name
    case ChannelRef(name) => ListsChannel(spec, name)
    case GatewayRef(name) => spec.gateway == name
    case ObservabilityRef(name) => spec.observability == name
  }

  /** The loop of findAgentsForChannel. */
  method MatchChannel(spec: AgentSpec, name: string) returns (found: bool)
    ensures found <==> ListsChannel(spec, name)
  {
    var channels := Elems(spec.channels);
    for i := 0 to |channels|
      invariant name !in channels[..i]
    {
      if channels[i] == name { return true; }
    }
    return false;
  }

  /** findAgentsReferencingField with the predicate of the changed object's kind. */
  method FindAgents(agents: map<string, Agent>, r: Ref) returns (requests: seq<string>)
    ensures forall a :: a in requests <==> a in agents && References(agents[a].spec, r)
    ensures forall i, j :: 0 <= i < j < |requests| ==> requests[i] != requests[j]
  {
    requests := [];
    var rest := agents.Keys;
    while rest != {}
      invariant rest <= agents.Keys
      invariant forall a :: a in requests <==> a in agents && a !in rest && References(agents[a].spec, r)
      invariant forall i, j :: 0 <= i < j < |requests| ==> requests[i] != requests[j]
      decreases rest
    {
      var a :| a in rest;
      var spec := agents[a].spec;
      var matched := References(spec, r);
      if r.ChannelRef? { matched := MatchChannel(spec, r.name); }
      if matched { requests := requests + [a]; }
      rest := rest - {a};
    }
  }

  /**
   Watch mapping equals the read set, for every object that can exist (names are not empty):
   a mapper returns an agent iff that agent reads the object.
   */
  lemma MapperIsReadSet(spec: AgentSpec, r: Ref)
    requires r.name != ""
    ensures References(spec, r) <==> r in Refs(spec)
  {
  }

  /** Changing, creating or deleting an object changes nothing for agents its mapper leaves out. */
  lemma UnmappedUnchanged(objs: Objects, r: Ref, o: Option<Object>, n: string, ns: string, spec: AgentSpec)
    requires r.name != "" && !References(spec, r)
    ensures Resolved(Assign(objs, r, o), n, ns, spec) == Resolved(objs, n, ns, spec)
  {
    MapperIsReadSet(spec, r);
    ResolvedLocal(Assign(objs, r, o), objs, n, ns, spec);
  }
}
