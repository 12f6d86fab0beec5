/**
 When a resize does stall: ensureResource adds no owner reference to a Deployment it finds, so
 over a Deployment that the agent does not own a reconcile may end well and wake nobody.
 This module says for which slices that is so, and gives one.
 */
module Stalls {
  import opened Prelude
  import opened Api
  import opened Cluster
  import opened Deployment
  import opened Workspace
  import opened Reconcile
  import opened Watches
  import opened Runs
  import opened ResizeRuns
  import opened Complete
  import Fixpoint
  import Harness
  import Resolve

  /** Writing the ConfigMap wakes the agent: it is new, or it has drifted and is owned. */
  predicate ConfigMapWakes(cm: Option<ConfigMap>, data: map<string, Content>, n: string) {
    cm.None? || (!Fixpoint.ConfigMapSettled(cm, data) && NamesOwner(cm.value.owners, n))
  }

  predicate ServiceWakes(s: Option<Service>, input: ConfigInput, n: string) {
    s.None? || (!ServiceUpToDate(s, input) && NamesOwner(s.value.owners, n))
  }

  predicate TextsWake(sl: Slice, n: string, input: ConfigInput, orders: KeyOrders) {
    || ConfigMapWakes(sl.identity, IdentityData(input.spec.identity), n)
    || ConfigMapWakes(sl.skills, SkillsData(input.skills), n)
    || ConfigMapWakes(sl.Config(HarnessOf(input)), ConfigData(input, orders), n)
  }

  predicate DeploymentWakes(sl: Slice, n: string) { sl.deployment.None? || WorkloadOwned(sl.deployment, n) }

  predicate StatusWakes(sl: Slice, n: string, a: Agent) {
    a.status != AgentStatus(Phase(sl.deployment), PodName(n, sl.deployment), VolName(n, Home))
  }

  /** Something a reconcile is going to write wakes the agent again. */
  predicate Wakes(sl: Slice, n: string, a: Agent, input: ConfigInput, orders: KeyOrders) {
    || DeploymentWakes(sl, n) || TextsWake(sl, n, input, orders) || ServiceWakes(sl.service, input, n)
    || StatusWakes(sl, n, a)
  }

  lemma OwnName(n: string, uid: nat)
    ensures NamesOwner([OwnerRef(n, uid)], n)
  {
    assert [OwnerRef(n, uid)][0].name == n;
  }

  lemma ConfigMapEventExactly(cm: Option<ConfigMap>, n: string, uid: nat, data: map<string, Content>)
    ensures ConfigMapEvent(cm, Written(cm, OwnerRef(n, uid), data), n) <==> ConfigMapWakes(cm, data, n)
  {
    OwnName(n, uid);
  }

  lemma ServiceEventExactly(s: Option<Service>, n: string, uid: nat, input: ConfigInput)
    ensures ServiceEvent(s, EnsureService(s, OwnerRef(n, uid), ServiceFor(input), false).0, n) <==>
        ServiceWakes(s, input, n)
  {
    OwnName(n, uid);
  }

  /** The Deployment of a resize that goes on is at zero, so it is always written. */
  lemma DeploymentEventExactly(w: Option<Workload>, n: string, uid: nat, spec: DeploymentSpec)
    requires w.Some? ==> w.value.spec != spec
    ensures var o := EnsureWorkload(w, OwnerRef(n, uid), spec, false).0;
            && (WorkloadEvent(w, o, n) <==> w.None? || WorkloadOwned(w, n))
            && (w.Some? ==> Phase(o) == Phase(w) && PodName(n, o) == PodName(n, w))
  {
    OwnName(n, uid);
  }

  predicate TextsNotified(sl: Slice, t: Slice, n: string) {
    || ConfigMapEvent(sl.identity, t.identity, n) || ConfigMapEvent(sl.skills, t.skills, n)
    || ConfigMapEvent(sl.openclaw, t.openclaw, n) || ConfigMapEvent(sl.observeclaw, t.observeclaw, n)
    || ConfigMapEvent(sl.hermes, t.hermes, n)
  }

  lemma TextsNotify(sl: Slice, t: Slice, n: string, uid: nat, input: ConfigInput, orders: KeyOrders)
    requires t.identity == Written(sl.identity, OwnerRef(n, uid), IdentityData(input.spec.identity))
    requires t.skills == Written(sl.skills, OwnerRef(n, uid), SkillsData(input.skills))
    requires var h := HarnessOf(input);
             forall k: Harness.Kind ::
               t.Config(k) == if k == h then Written(sl.Config(h), OwnerRef(n, uid), ConfigData(input, orders))
                              else sl.Config(k)
    ensures TextsNotified(sl, t, n) <==> TextsWake(sl, n, input, orders)
  {
    var h := HarnessOf(input);
    ConfigMapEventExactly(sl.identity, n, uid, IdentityData(input.spec.identity));
    ConfigMapEventExactly(sl.skills, n, uid, SkillsData(input.skills));
    ConfigMapEventExactly(sl.Config(h), n, uid, ConfigData(input, orders));
    assert t.Config(Harness.OpenClawHarness) == t.openclaw && t.Config(Harness.HermesHarness) == t.hermes;
    assert t.Config(Harness.ObserveClawHarness) == t.observeclaw;
    assert ConfigMapEvent(sl.Config(h), t.Config(h), n) <==>
           ConfigMapEvent(sl.openclaw, t.openclaw, n) || ConfigMapEvent(sl.observeclaw, t.observeclaw, n)
           || ConfigMapEvent(sl.hermes, t.hermes, n);
  }

  /** The volumes' part of a reconcile that goes on: a volume or a pod is made, the Deployment is left at zero. */
  lemma ResizingStep(s1: Slice, n: string, a: Agent, faults: Faults)
    requires Resizing(s1, n) && s1.agent == Some(a)
    ensures var (s2, m) := WorkspaceStep(s1, n, a, faults);
            m.Mount? && s2.home.Some? ==> m.pvc == VolName(n, Home) && s2.deployment == s1.deployment && ScaledDown(s1)
  {
    WorkspaceKeepsAgent(s1, n, a, faults);
  }

  /** A complete call has written the texts of its first phase, and they stay. */
  lemma CompletedTexts(sl: Slice, n: string, a: Agent, input: ConfigInput, orders: KeyOrders, faults: Faults, t: Slice)
    requires Completed(sl, n, a, input, orders, faults, t)
    ensures var owner, h := OwnerRef(n, a.uid), HarnessOf(input);
            var s1 := sl.(identity := Written(sl.identity, owner, IdentityData(input.spec.identity)),
                          skills := Written(sl.skills, owner, SkillsData(input.skills)))
                        .WithConfig(h, Written(sl.Config(h), owner, ConfigData(input, orders)));
            && t.identity == s1.identity && t.skills == s1.skills && t.openclaw == s1.openclaw
            && t.observeclaw == s1.observeclaw && t.hermes == s1.hermes
  {
    var s1 := Prologue(sl, OwnerRef(n, a.uid), input, orders, faults).0;
    var (s2, m) := WorkspaceStep(s1, n, a, faults);
    PrologueChildren(sl, OwnerRef(n, a.uid), input, orders, faults);
    WorkspaceKeepsAgent(s1, n, a, faults);
    EndsWithDeployment(s2, n, a, input, m.pvc, t);
  }

  lemma CompletedTextsNotify(sl: Slice, n: string, a: Agent, input: ConfigInput, orders: KeyOrders, faults: Faults,
                             t: Slice)
    requires Completed(sl, n, a, input, orders, faults, t)
    ensures TextsNotified(sl, t, n) <==> TextsWake(sl, n, input, orders)
  {
    CompletedTexts(sl, n, a, input, orders, faults, t);
    TextsNotify(sl, t, n, a.uid, input, orders);
  }

  lemma EndNotifies(s2: Slice, n: string, a: Agent, input: ConfigInput, t: Slice)
    requires s2.agent == Some(a) && ScaledDown(s2) && EndsMounted(s2, n, a, input, VolName(n, Home), t)
    ensures (s2.agent != t.agent || WorkloadEvent(s2.deployment, t.deployment, n)
             || ServiceEvent(s2.service, t.service, n))
            <==> DeploymentWakes(s2, n) || ServiceWakes(s2.service, input, n) || StatusWakes(s2, n, a)
  {
    DeploymentEventExactly(s2.deployment, n, a.uid, DeploymentFor(input, VolName(n, Home)));
    ServiceEventExactly(s2.service, n, a.uid, input);
  }

  lemma CompletedNotifies(sl: Slice, n: string, a: Agent, input: ConfigInput, orders: KeyOrders, faults: Faults,
                          t: Slice)
    requires Resizing(sl, n) && sl.agent == Some(a) && t.home.Some?
    requires Completed(sl, n, a, input, orders, faults, t)
    ensures Notifies(sl, t, n) <==> Wakes(sl, n, a, input, orders)
  {
    var s1 := Prologue(sl, OwnerRef(n, a.uid), input, orders, faults).0;
    var (s2, m) := WorkspaceStep(s1, n, a, faults);
    PrologueKeepsRest(sl, OwnerRef(n, a.uid), input, orders, faults);
    WorkspaceKeepsAgent(s1, n, a, faults);
    ResizingStep(s1, n, a, faults);
    CompletedTextsNotify(sl, n, a, input, orders, faults, t);
    EndsWithDeployment(s2, n, a, input, m.pvc, t);
    EndNotifies(s2, n, a, input, t);
  }

  /**
   A reconcile of a pending resize that ends well without switching wakes the agent again iff
   one of its writes does: a Deployment that is new or owned, a ConfigMap or Service that is new
   or both drifted and owned, or a status that changes.
   */
  lemma StallsExactly(sl: Slice, n: string, ns: string, objs: Resolve.Objects, orders: KeyOrders, faults: Faults)
    requires Resizing(sl, n)
    ensures var (t, outcome) := ReconcileSlice(sl, n, ns, objs, orders, faults);
            var a := sl.agent.value;
            t.home.Some? && outcome == Done ==>
              (WillContinue(sl, n, t, outcome) <==> Wakes(sl, n, a, Resolve.Resolved(objs, n, ns, a.spec), orders))
  {
    var (t, outcome) := ReconcileSlice(sl, n, ns, objs, orders, faults);
    var a := sl.agent.value;
    DoneIsComplete(sl, n, ns, objs, orders, faults);
    if t.home.Some? && outcome == Done {
      CompletedNotifies(sl, n, a, Resolve.Resolved(objs, n, ns, a.spec), orders, faults, t);
    }
  }

  /** Without failing writes such a reconcile ends well exactly when an object is missing and the agent is at zero. */
  lemma EffectDoneExactly(sl: Slice, n: string, t: Slice, outcome: Outcome)
    requires Resizing(sl, n) && Effect(sl, n, t, outcome, {})
    ensures t.home.Some? ==> (outcome == Done <==> ScaledDown(sl) && Stage(sl) > 0)
  {
    OwnNamesDistinct(n);
  }

  // -------------------------------------------------------------- a slice that stalls

  datatype Texts = Texts(identity: map<string, Content>, skills: map<string, Content>, config: map<string, Content>)

  /** Everything but the resize is done, over a Deployment that the agent does not own. */
  function Idle(n: string, uid: nat, spec: AgentSpec, h: Harness.Kind, texts: Texts, deployment: DeploymentSpec,
                service: ServiceSpec, size: nat): Slice
  {
    var owner := OwnerRef(n, uid);
    Slice(Some(Agent(uid, spec, AgentStatus("Pending", "", VolName(n, Home)))),
          Some(ConfigMap([owner], texts.identity, map[])), Some(ConfigMap([owner], texts.skills, map[])),
          None, None, None, Some(Workload([], deployment, NO_STATUS)), Some(Service([owner], service)),
          Some(PVC([], size, None, map[])), None, None)
    .WithConfig(h, Some(ConfigMap([owner], texts.config, map[])))
  }

  lemma IdleResizing(n: string, uid: nat, spec: AgentSpec, h: Harness.Kind, texts: Texts, deployment: DeploymentSpec,
                     service: ServiceSpec, size: nat)
    requires spec.workspace.IsPersistent() && size < spec.workspace.ResolvedStorageSize()
    requires deployment.replicas == Some(0)
    ensures var sl := Idle(n, uid, spec, h, texts, deployment, service, size);
            && sl.agent == Some(Agent(uid, spec, AgentStatus("Pending", "", VolName(n, Home))))
            && Resizing(sl, n) && ScaledDown(sl) && sl.homeV2.None? && sl.pod.None?
  {
    OwnNamesDistinct(n);
  }

  lemma IdleSleeps(n: string, uid: nat, spec: AgentSpec, h: Harness.Kind, texts: Texts, deployment: DeploymentSpec,
                   service: ServiceSpec, size: nat)
    ensures var sl := Idle(n, uid, spec, h, texts, deployment, service, size);
            && !DeploymentOwned(sl, n) && !DeploymentWakes(sl, n)
            && (sl.agent.Some? ==> !StatusWakes(sl, n, sl.agent.value))
            && !ConfigMapWakes(sl.identity, texts.identity, n) && !ConfigMapWakes(sl.skills, texts.skills, n)
            && !ConfigMapWakes(sl.Config(h), texts.config, n)
            && sl.service.Some? && sl.service.value.spec == service
  {
    assert !Available([]);
  }

  /** That slice with the children an input asks for, the Deployment scaled to zero. */
  function Abandoned(n: string, uid: nat, input: ConfigInput, orders: KeyOrders, size: nat): Slice {
    Idle(n, uid, input.spec, HarnessOf(input),
         Texts(IdentityData(input.spec.identity), SkillsData(input.skills), ConfigData(input, orders)),
         DeploymentFor(input, VolName(n, Home)).(replicas := Some(0)), ServiceFor(input), size)
  }

  lemma AbandonedSleeps(n: string, uid: nat, input: ConfigInput, orders: KeyOrders, size: nat)
    requires input.spec.workspace.IsPersistent() && size < input.spec.workspace.ResolvedStorageSize()
    ensures var sl := Abandoned(n, uid, input, orders, size);
            && sl.agent == Some(Agent(uid, input.spec, AgentStatus("Pending", "", VolName(n, Home))))
            && Resizing(sl, n) && ScaledDown(sl) && sl.homeV2.None? && sl.pod.None?
            && !DeploymentOwned(sl, n) && !Wakes(sl, n, sl.agent.value, input, orders)
  {
    var texts := Texts(IdentityData(input.spec.identity), SkillsData(input.skills), ConfigData(input, orders));
    var zero := DeploymentFor(input, VolName(n, Home)).(replicas := Some(0));
    IdleResizing(n, uid, input.spec, HarnessOf(input), texts, zero, ServiceFor(input), size);
    IdleSleeps(n, uid, input.spec, HarnessOf(input), texts, zero, ServiceFor(input), size);
  }

  /**
   The stall: for every agent with a larger request and every object it may refer to there is a
   slice in which a reconcile without any failure makes the resized volume, ends well, makes no
   change that a watch reports, and leaves the resize unfinished.
   */
  lemma UnownedDeploymentStalls(n: string, ns: string, uid: nat, spec: AgentSpec, size: nat, objs: Resolve.Objects,
                                orders: KeyOrders)
    requires spec.workspace.IsPersistent() && size < spec.workspace.ResolvedStorageSize()
    ensures var sl := Abandoned(n, uid, Resolve.Resolved(objs, n, ns, spec), orders, size);
            var (t, outcome) := ReconcileSlice(sl, n, ns, objs, orders, {});
            && Resizing(sl, n) && !DeploymentOwned(sl, n)
            && outcome == Done && t.homeV2.Some? && t.pod.None? && Resizing(t, n) && !WillContinue(sl, n, t, outcome)
  {
    var input := Resolve.Resolved(objs, n, ns, spec);
    var sl := Abandoned(n, uid, input, orders, size);
    AbandonedSleeps(n, uid, input, orders, size);
    StallsExactly(sl, n, ns, objs, orders, {});
    ReconcileWorkspace(sl, n, ns, objs, orders, {});
    var (t, outcome) := ReconcileSlice(sl, n, ns, objs, orders, {});
    ReconcileProgress(sl, n, t, outcome);
    EffectDoneExactly(sl, n, t, outcome);
  }
}
