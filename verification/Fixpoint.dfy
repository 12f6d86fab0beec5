/**
 Reconcile reaches a fixpoint: when no resize is pending, a second call changes nothing,
 whatever iteration orders it meets and whatever writes would fail, exactly when the
 configuration text does not depend on map order.
 */
module Fixpoint {
  import opened Prelude
  import opened Api
  import opened Cluster
  import opened Deployment
  import opened Workspace
  import opened Reconcile
  import opened Controller
  import Resolve
  import Harness
  import Hermes
  import Dashboard
  import Fleet
  import Independence

  predicate ConfigMapSettled(cm: Option<ConfigMap>, data: map<string, Content>) {
    cm.Some? && cm.value.data == data && cm.value.binaryData == map[]
  }

  predicate ConfigMapsSettled(t: Slice, input: ConfigInput, orders: KeyOrders) {
    && ConfigMapSettled(t.identity, IdentityData(input.spec.identity))
    && ConfigMapSettled(t.skills, SkillsData(input.skills))
    && ConfigMapSettled(t.Config(HarnessOf(input)), ConfigData(input, orders))
  }

  /** The workspace phase finds nothing to do and names `pvc`. */
  predicate WorkspaceSettled(t: Slice, n: string, a: Agent, pvc: string) {
    if a.spec.workspace.IsPersistent() then
      var v := ActiveVolume(n, a.status);
      && pvc == VolName(n, v) && t.Vol(v).Some?
      && Synced(t.Vol(v).value, a.spec.workspace.ResolvedReclaimPolicy(), OwnerRef(n, a.uid)) == t.Vol(v).value
      && a.spec.workspace.ResolvedStorageSize() <= t.Vol(v).value.size
    else pvc == "" && t.home.None? && t.homeV2.None?
  }

  predicate ChildrenSettled(t: Slice, n: string, a: Agent, input: ConfigInput, pvc: string) {
    && t.deployment.Some? && t.deployment.value.spec == DeploymentFor(input, pvc)
    && t.service.Some? && t.service.value.spec.ports == ServiceFor(input).ports
    && t.service.value.spec.selector == ServiceFor(input).selector
    && a.status == AgentStatus(Phase(t.deployment), PodName(n, t.deployment), pvc)
  }

  lemma EnsureSettles(cm: Option<ConfigMap>, owner: OwnerRef, data: map<string, Content>)
    ensures var (o, ok) := EnsureConfigMap(cm, owner, data, false); ok && ConfigMapSettled(o, data)
  {
  }

  lemma ConfigSlot(sl: Slice, h: Harness.Kind, cm: Option<ConfigMap>)
    ensures var t := sl.WithConfig(h, cm); t.Config(h) == cm && t.identity == sl.identity && t.skills == sl.skills
  {
  }

  lemma PrologueSettles(sl: Slice, owner: OwnerRef, input: ConfigInput, orders: KeyOrders)
    ensures var (t, ok) := Prologue(sl, owner, input, orders, {}); ok && ConfigMapsSettled(t, input, orders)
  {
    var h, data := HarnessOf(input), ConfigData(input, orders);
    EnsureSettles(sl.identity, owner, IdentityData(input.spec.identity));
    EnsureSettles(sl.skills, owner, SkillsData(input.skills));
    EnsureSettles(sl.Config(h), owner, data);
    var identity := EnsureConfigMap(sl.identity, owner, IdentityData(input.spec.identity), false).0;
    var skills := EnsureConfigMap(sl.skills, owner, SkillsData(input.skills), false).0;
    var config := EnsureConfigMap(sl.Config(h), owner, data, false).0;
    var s2 := sl.(identity := identity).(skills := skills);
    assert s2.Config(h) == sl.Config(h);
    ConfigSlot(s2, h, config);
    assert Prologue(sl, owner, input, orders, {}) == (s2.WithConfig(h, config), true);
  }

  lemma PrologueFixed(t: Slice, owner: OwnerRef, input: ConfigInput, orders: KeyOrders, faults: Faults)
    requires ConfigMapsSettled(t, input, orders)
    ensures Prologue(t, owner, input, orders, faults) == (t, true)
  {
  }

  /** A volume phase without resize settles the workspace, for the agent and for its next status. */
  lemma WorkspaceSettles(sl: Slice, n: string, a: Agent, a': Agent)
    requires StatusOk(n, a.status) && !NeedsResize(sl, n, a)
    requires a'.spec == a.spec && a'.uid == a.uid
    ensures var (t, m) := WorkspaceStep(sl, n, a, {});
            m.Mount? && (a'.status.workspacePVC == m.pvc ==> WorkspaceSettled(t, n, a', m.pvc))
  {
    OwnNamesDistinct(n);
    assert RECLAIM_DELETE != RECLAIM_RETAIN by { assert RECLAIM_DELETE[0] != RECLAIM_RETAIN[0]; }
  }

  lemma WorkspaceFixed(t: Slice, n: string, a: Agent, pvc: string, faults: Faults)
    requires WorkspaceSettled(t, n, a, pvc)
    ensures WorkspaceStep(t, n, a, faults) == (t, Mount(pvc))
  {
  }

  lemma EpilogueSettles(sl: Slice, n: string, a: Agent, input: ConfigInput, pvc: string)
    requires sl.agent == Some(a)
    ensures var (t, outcome) := Epilogue(sl, n, a, input, pvc, {});
            && outcome == Done && t.agent.Some? && t.agent.value.spec == a.spec && t.agent.value.uid == a.uid
            && ChildrenSettled(t, n, t.agent.value, input, pvc) && t.agent.value.status.workspacePVC == pvc
            && t == sl.(agent := t.agent, deployment := t.deployment, service := t.service)
  {
  }

  lemma EpilogueFixed(t: Slice, n: string, a: Agent, input: ConfigInput, pvc: string, faults: Faults)
    requires ChildrenSettled(t, n, a, input, pvc)
    ensures Epilogue(t, n, a, input, pvc, faults) == (t, Done)
  {
  }

  /** Nothing of the agent's slice is left to do. */
  ghost predicate Settled(t: Slice, n: string, input: ConfigInput, orders: KeyOrders) {
    && t.agent.Some? && ConfigMapsSettled(t, input, orders)
    && exists pvc :: WorkspaceSettled(t, n, t.agent.value, pvc) && ChildrenSettled(t, n, t.agent.value, input, pvc)
  }

  lemma SettledIsFixed(t: Slice, n: string, ns: string, objs: Resolve.Objects, orders: KeyOrders, faults: Faults)
    requires t.agent.Some? && Settled(t, n, Resolve.Resolved(objs, n, ns, t.agent.value.spec), orders)
    ensures ReconcileSlice(t, n, ns, objs, orders, faults) == (t, Done)
  {
    var a := t.agent.value;
    var input := Resolve.Resolved(objs, n, ns, a.spec);
    var pvc :| WorkspaceSettled(t, n, a, pvc) && ChildrenSettled(t, n, a, input, pvc);
    PrologueFixed(t, OwnerRef(n, a.uid), input, orders, faults);
    WorkspaceFixed(t, n, a, pvc, faults);
    EpilogueFixed(t, n, a, input, pvc, faults);
  }

  lemma TextsStaySettled(s1: Slice, t: Slice, input: ConfigInput, orders: KeyOrders)
    requires ConfigMapsSettled(s1, input, orders) && t.identity == s1.identity && t.skills == s1.skills
    requires t.openclaw == s1.openclaw && t.observeclaw == s1.observeclaw && t.hermes == s1.hermes
    ensures ConfigMapsSettled(t, input, orders)
  {
    assert t.Config(HarnessOf(input)) == s1.Config(HarnessOf(input));
  }

  /** The phases after the ConfigMaps settle the rest and leave the ConfigMaps alone. */
  lemma AfterPrologueSettles(s1: Slice, n: string, a: Agent, input: ConfigInput)
    requires s1.agent == Some(a) && StatusOk(n, a.status) && !NeedsResize(s1, n, a)
    ensures var (t, outcome) := AfterPrologue(s1, n, a, input, {});
            && outcome == Done && t.agent.Some? && t.agent.value.spec == a.spec
            && t.identity == s1.identity && t.skills == s1.skills && t.openclaw == s1.openclaw
            && t.observeclaw == s1.observeclaw && t.hermes == s1.hermes
            && exists pvc ::
                 WorkspaceSettled(t, n, t.agent.value, pvc) && ChildrenSettled(t, n, t.agent.value, input, pvc)
  {
    var (s2, m) := WorkspaceStep(s1, n, a, {});
    WorkspaceSettles(s1, n, a, a);
    WorkspaceKeepsAgent(s1, n, a, {});
    EpilogueSettles(s2, n, a, input, m.pvc);
    var (t, _) := Epilogue(s2, n, a, input, m.pvc, {});
    WorkspaceSettles(s1, n, a, t.agent.value);
    assert WorkspaceSettled(t, n, t.agent.value, m.pvc);
  }

  lemma FirstPassSettles(sl: Slice, n: string, ns: string, objs: Resolve.Objects, orders: KeyOrders)
    requires sl.agent.Some? && StatusOk(n, sl.agent.value.status) && !NeedsResize(sl, n, sl.agent.value)
    ensures var (t, outcome) := ReconcileSlice(sl, n, ns, objs, orders, {});
            && outcome == Done && t.agent.Some? && t.agent.value.spec == sl.agent.value.spec
            && Settled(t, n, Resolve.Resolved(objs, n, ns, sl.agent.value.spec), orders)
  {
    var a := sl.agent.value;
    var input := Resolve.Resolved(objs, n, ns, a.spec);
    var (s1, _) := Prologue(sl, OwnerRef(n, a.uid), input, orders, {});
    PrologueSettles(sl, OwnerRef(n, a.uid), input, orders);
    PrologueKeepsRest(sl, OwnerRef(n, a.uid), input, orders, {});
    AfterPrologueSettles(s1, n, a, input);
    TextsStaySettled(s1, AfterPrologue(s1, n, a, input, {}).0, input, orders);
  }

  /** The configuration does not depend on map iteration order. */
  ghost predicate ConfigStable(input: ConfigInput) {
    HarnessOf(input).HermesHarness? ==> Hermes.Deterministic(input)
  }

  lemma StableConfigData(input: ConfigInput, o: KeyOrders, p: KeyOrders)
    requires ConfigStable(input) && ValidOrders(o, input.channels) && ValidOrders(p, input.channels)
    ensures ConfigData(input, o) == ConfigData(input, p)
  {
  }

  /** With stable text a second call leaves everything as it is and succeeds, whatever would fail. */
  lemma SecondCallChangesNothing(sl: Slice, n: string, ns: string, objs: Resolve.Objects,
                                 o: KeyOrders, p: KeyOrders, faults: Faults)
    requires sl.agent.Some? && StatusOk(n, sl.agent.value.status) && !NeedsResize(sl, n, sl.agent.value)
    requires var input := Resolve.Resolved(objs, n, ns, sl.agent.value.spec);
             ConfigStable(input) && ValidOrders(o, input.channels) && ValidOrders(p, input.channels)
    ensures var t := ReconcileSlice(sl, n, ns, objs, o, {}).0;
            ReconcileSlice(t, n, ns, objs, p, faults) == (t, Done)
  {
    var input := Resolve.Resolved(objs, n, ns, sl.agent.value.spec);
    FirstPassSettles(sl, n, ns, objs, o);
    StableConfigData(input, o, p);
    var t := ReconcileSlice(sl, n, ns, objs, o, {}).0;
    SettledIsFixed(t, n, ns, objs, p, faults);
  }

  ghost predicate AlwaysFixed(sl: Slice, n: string, ns: string, objs: Resolve.Objects)
    requires sl.agent.Some?
  {
    var chs := Resolve.Resolved(objs, n, ns, sl.agent.value.spec).channels;
    forall o, p :: ValidOrders(o, chs) && ValidOrders(p, chs) ==>
      ReconcileSlice(ReconcileSlice(sl, n, ns, objs, o, {}).0, n, ns, objs, p, {}).0
      == ReconcileSlice(sl, n, ns, objs, o, {}).0
  }

  lemma DifferentDocuments(h: Harness.Kind, input: ConfigInput, d: Harness.Document, e: Harness.Document)
    requires ConfigDataFor(h, input, d) == ConfigDataFor(h, input, e)
    ensures d == e
  {
    var k := Harness.ConfigFileName(h);
    assert k != HEARTBEAT_KEY && k != TOOLS_KEY by { assert k[0] != HEARTBEAT_KEY[0] && k[0] != TOOLS_KEY[0]; }
    assert ConfigDataFor(h, input, d)[k] == Generated(d);
    assert ConfigDataFor(h, input, e)[k] == Generated(e);
  }

  /**
   The fixpoint, exactly: without a pending resize, two calls in a row agree for every pair of
   iteration orders iff the generated configuration does not depend on the order. That covers
   every OpenClaw and ObserveClaw agent; for Hermes it is the condition of module Hermes.
   */
  lemma FixpointExactly(sl: Slice, n: string, ns: string, objs: Resolve.Objects)
    requires sl.agent.Some? && StatusOk(n, sl.agent.value.status) && !NeedsResize(sl, n, sl.agent.value)
    ensures AlwaysFixed(sl, n, ns, objs) <==> ConfigStable(Resolve.Resolved(objs, n, ns, sl.agent.value.spec))
  {
    var input := Resolve.Resolved(objs, n, ns, sl.agent.value.spec);
    if ConfigStable(input) {
      forall o, p | ValidOrders(o, input.channels) && ValidOrders(p, input.channels)
        ensures ReconcileSlice(ReconcileSlice(sl, n, ns, objs, o, {}).0, n, ns, objs, p, {}).0
                == ReconcileSlice(sl, n, ns, objs, o, {}).0
      {
        SecondCallChangesNothing(sl, n, ns, objs, o, p, {});
      }
    }
    if AlwaysFixed(sl, n, ns, objs) && HarnessOf(input).HermesHarness? {
      forall o, p | ValidOrders(o, input.channels) && ValidOrders(p, input.channels)
        ensures Hermes.Config(input, o) == Hermes.Config(input, p)
      {
        FixedMeansSameText(sl, n, ns, objs, o, p);
      }
    }
  }

  /** A Hermes agent with one channel that has at least two plain settings. */
  predicate TwoPlainSettings(objs: Resolve.Objects, spec: AgentSpec, channel: string, ch: ChannelSpec) {
    && Harness.ForType(spec.harness.kind).HermesHarness? && spec.channels == Some([channel])
    && Lookup(objs, ChannelRef(channel)) == Some(ChannelObject(ch)) && ch.IsEnabled()
    && Hermes.PlainSettings(ch.ConfigMap()) && |ch.ConfigMap()| >= 2
  }

  /** Such an agent is rewritten by a second call for some orders in which Go may visit the settings. */
  lemma TwoSettingsNeverSettle(sl: Slice, n: string, ns: string, objs: Resolve.Objects, channel: string,
                               ch: ChannelSpec)
    requires sl.agent.Some? && StatusOk(n, sl.agent.value.status) && !NeedsResize(sl, n, sl.agent.value)
    requires TwoPlainSettings(objs, sl.agent.value.spec, channel, ch)
    ensures exists o, p :: ValidOrders(o, [ch]) && ValidOrders(p, [ch])
              && ReconcileSlice(ReconcileSlice(sl, n, ns, objs, o, {}).0, n, ns, objs, p, {}).0
                 != ReconcileSlice(sl, n, ns, objs, o, {}).0
  {
    var input := Resolve.Resolved(objs, n, ns, sl.agent.value.spec);
    OneChannel(objs, channel, ch);
    assert input.channels == [ch];
    Hermes.PlainDeterministicExactly(input);
    assert !(|input.channels[0].ConfigMap()| <= 1);
    FixpointExactly(sl, n, ns, objs);
    assert !AlwaysFixed(sl, n, ns, objs);
  }

  lemma OneChannel(objs: Resolve.Objects, channel: string, ch: ChannelSpec)
    requires Lookup(objs, ChannelRef(channel)) == Some(ChannelObject(ch)) && ch.IsEnabled()
    ensures Resolve.ChannelsOf(objs, [channel]) == [ch]
  {
    assert [channel][..0] == [];
  }

  lemma FixedMeansSameText(sl: Slice, n: string, ns: string, objs: Resolve.Objects, o: KeyOrders, p: KeyOrders)
    requires sl.agent.Some? && StatusOk(n, sl.agent.value.status) && !NeedsResize(sl, n, sl.agent.value)
    ensures var input := Resolve.Resolved(objs, n, ns, sl.agent.value.spec);
            var t := ReconcileSlice(sl, n, ns, objs, o, {}).0;
            ReconcileSlice(t, n, ns, objs, p, {}).0 == t ==>
              Harness.Config(HarnessOf(input), input, o) == Harness.Config(HarnessOf(input), input, p)
  {
    var input := Resolve.Resolved(objs, n, ns, sl.agent.value.spec);
    var t := ReconcileSlice(sl, n, ns, objs, o, {}).0;
    if ReconcileSlice(t, n, ns, objs, p, {}).0 == t {
      FirstPassSettles(sl, n, ns, objs, o);
      PassWritesConfig(t, n, ns, objs, p);
      DifferentDocuments(HarnessOf(input), input, Harness.Config(HarnessOf(input), input, o),
                         Harness.Config(HarnessOf(input), input, p));
    }
  }

  /** After any error-free pass that reaches it, the configuration is that of the pass's orders. */
  lemma PassWritesConfig(t: Slice, n: string, ns: string, objs: Resolve.Objects, p: KeyOrders)
    requires t.agent.Some?
    ensures var input := Resolve.Resolved(objs, n, ns, t.agent.value.spec);
            ConfigMapSettled(ReconcileSlice(t, n, ns, objs, p, {}).0.Config(HarnessOf(input)), ConfigData(input, p))
  {
    var a := t.agent.value;
    var input := Resolve.Resolved(objs, n, ns, a.spec);
    var s1 := Prologue(t, OwnerRef(n, a.uid), input, p, {}).0;
    PrologueSettles(t, OwnerRef(n, a.uid), input, p);
    AfterPrologueKeepsConfigs(s1, n, a, input, HarnessOf(input));
  }

  lemma AfterPrologueKeepsConfigs(s1: Slice, n: string, a: Agent, input: ConfigInput, h: Harness.Kind)
    ensures AfterPrologue(s1, n, a, input, {}).0.Config(h) == s1.Config(h)
  {
    var (s2, m) := WorkspaceStep(s1, n, a, {});
    WorkspaceKeepsAgent(s1, n, a, {});
    if m.Mount? { EpilogueKeepsConfigs(s2, n, a, input, m.pvc); }
  }

  lemma EpilogueKeepsConfigs(s2: Slice, n: string, a: Agent, input: ConfigInput, pvc: string)
    ensures var t := Epilogue(s2, n, a, input, pvc, {}).0;
            t.openclaw == s2.openclaw && t.observeclaw == s2.observeclaw && t.hermes == s2.hermes
  {
  }

  // ------------------------------------------------- the whole call, dashboard included

  const NO_FAILURE := Dashboard.Attempt(false, false, false)

  lemma {:induction false} SameRows(s: Store, t: Store, listed: seq<string>)
    requires s.agents == t.agents && s.objects == t.objects
    ensures Fleet.Rows(s, listed) == Fleet.Rows(t, listed)
  {
    if listed != [] { SameRows(s, t, listed[..|listed| - 1]); }
  }

  /** After a successful update a second one with the same agents is skipped. */
  lemma UpdateFixed(hash: Fleet.Data -> string, s: Store, last: string, listed: seq<string>, attempt: Dashboard.Attempt)
    ensures var (t, last') := Fleet.Updated(hash, s, last, listed, NO_FAILURE);
            Fleet.Updated(hash, t, last', listed, attempt) == (t, last')
  {
    var (t, last') := Fleet.Updated(hash, s, last, listed, NO_FAILURE);
    SameRows(s, t, listed);
  }

  /**
   The fixpoint of the whole call: after one Reconcile that had no resize pending and met no
   failure, another one leaves store and digest as they are, for any order and any failures.
   */
  lemma WholeCallFixed(hash: Fleet.Data -> string, s: Store, last: string, n: string, o: KeyOrders, p: KeyOrders,
                       faults: Faults, listed: seq<string>, attempt: Dashboard.Attempt)
    requires n in s.agents && StatusOk(n, s.agents[n].status) && !NeedsResize(Get(s, n), n, s.agents[n])
    requires var input := Resolve.Resolved(s.objects, n, s.ns, s.agents[n].spec);
             ConfigStable(input) && ValidOrders(o, input.channels) && ValidOrders(p, input.channels)
    ensures var (t, last', _) := FullReconcile(hash, s, last, n, o, {}, listed, NO_FAILURE);
            FullReconcile(hash, t, last', n, p, faults, listed, attempt) == (t, last', Done)
  {
    var x := ReconcileSlice(Get(s, n), n, s.ns, s.objects, o, {}).0;
    var s' := Put(s, n, x);
    FirstPassSettles(Get(s, n), n, s.ns, s.objects, o);
    SecondCallChangesNothing(Get(s, n), n, s.ns, s.objects, o, p, faults);
    GetPut(s, n, x);
    var (t, last') := Fleet.Updated(hash, s', last, listed, NO_FAILURE);
    Fleet.UpdatedIsCached(hash, s', last, listed, NO_FAILURE);
    Independence.SlicesIgnorePage(t, s', n, x);
    PutGet(t, n);
    UpdateFixed(hash, s', last, listed, attempt);
    assert ReconcileStore(t, n, p, faults) == (t, Done);
    assert n in t.agents by { assert Lookup(t.agents, n) == x.agent; }
  }
}
