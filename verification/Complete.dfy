/**
 What a Reconcile call that reaches its end has done, child by child, whatever writes would have
 failed: each child is what its own create-or-update makes of it, the status names the volume
 the Deployment mounts, and everything the pod mounts is there.
 */
module Complete {
  import opened Prelude
  import opened Api
  import opened Names
  import opened Cluster
  import opened Deployment
  import opened Workspace
  import opened Reconcile
  import opened Runs
  import Harness
  import Resolve

  function Written(cm: Option<ConfigMap>, owner: OwnerRef, data: map<string, Content>): Option<ConfigMap> {
    EnsureConfigMap(cm, owner, data, false).0
  }

  lemma PrologueChildren(sl: Slice, owner: OwnerRef, input: ConfigInput, orders: KeyOrders, faults: Faults)
    ensures var (t, ok) := Prologue(sl, owner, input, orders, faults);
            var h := HarnessOf(input);
            ok ==> t == sl.(identity := Written(sl.identity, owner, IdentityData(input.spec.identity)),
                            skills := Written(sl.skills, owner, SkillsData(input.skills)))
                          .WithConfig(h, Written(sl.Config(h), owner, ConfigData(input, orders)))
  {
  }

  /** The Deployment and the status at the end agree on the volume. */
  predicate EndsMounted(s2: Slice, n: string, a: Agent, input: ConfigInput, pvc: string, t: Slice) {
    && t.deployment == EnsureWorkload(s2.deployment, OwnerRef(n, a.uid), DeploymentFor(input, pvc), false).0
    && t.service == EnsureService(s2.service, OwnerRef(n, a.uid), ServiceFor(input), false).0
    && t.agent == Some(a.(status := AgentStatus(Phase(t.deployment), PodName(n, t.deployment), pvc)))
    && t == s2.(deployment := t.deployment, service := t.service, agent := t.agent)
  }

  lemma EpilogueChildren(s2: Slice, n: string, a: Agent, input: ConfigInput, pvc: string, faults: Faults)
    requires s2.agent == Some(a)
    ensures var (t, outcome) := Epilogue(s2, n, a, input, pvc, faults);
            outcome == Done ==> EndsMounted(s2, n, a, input, pvc, t)
  {
  }

  /** A complete call, with the volumes phase in the middle. */
  ghost predicate Completed(sl: Slice, n: string, a: Agent, input: ConfigInput, orders: KeyOrders, faults: Faults,
                            t: Slice) {
    var owner := OwnerRef(n, a.uid);
    var (s1, ok) := Prologue(sl, owner, input, orders, faults);
    var (s2, m) := WorkspaceStep(s1, n, a, faults);
    ok && m.Mount? && s2.agent == Some(a) && EndsMounted(s2, n, a, input, m.pvc, t)
  }

  /** The ConfigMaps are there once their phase is through, and the volumes phase starts from the same volumes. */
  lemma TextsFirst(sl: Slice, n: string, a: Agent, input: ConfigInput, orders: KeyOrders, faults: Faults, t: Slice)
    requires Completed(sl, n, a, input, orders, faults, t)
    ensures var s1 := Prologue(sl, OwnerRef(n, a.uid), input, orders, faults).0;
            TextsPresent(s1, n, input) && (SecondSwitch(s1, n, a) <==> SecondSwitch(sl, n, a))
  {
    var s1 := Prologue(sl, OwnerRef(n, a.uid), input, orders, faults).0;
    PrologueKeepsRest(sl, OwnerRef(n, a.uid), input, orders, faults);
    ConfigMapsThere(sl, n, OwnerRef(n, a.uid), input, orders, faults);
    SameVolumesSameSwitch(sl, s1, n, a);
  }

  lemma SameVolumesSameSwitch(sl: Slice, s1: Slice, n: string, a: Agent)
    requires s1.home == sl.home && s1.homeV2 == sl.homeV2 && s1.pod == sl.pod && s1.deployment == sl.deployment
    ensures SecondSwitch(s1, n, a) <==> SecondSwitch(sl, n, a)
  {
  }

  lemma DoneIsComplete(sl: Slice, n: string, ns: string, objs: Resolve.Objects, orders: KeyOrders, faults: Faults)
    requires sl.agent.Some?
    ensures var (t, outcome) := ReconcileSlice(sl, n, ns, objs, orders, faults);
            var a := sl.agent.value;
            outcome == Done ==> Completed(sl, n, a, Resolve.Resolved(objs, n, ns, a.spec), orders, faults, t)
  {
    var a := sl.agent.value;
    var input := Resolve.Resolved(objs, n, ns, a.spec);
    var (s1, ok) := Prologue(sl, OwnerRef(n, a.uid), input, orders, faults);
    PrologueKeepsRest(sl, OwnerRef(n, a.uid), input, orders, faults);
    var (s2, m) := WorkspaceStep(s1, n, a, faults);
    WorkspaceKeepsAgent(s1, n, a, faults);
    if ok && m.Mount? { EpilogueChildren(s2, n, a, input, m.pvc, faults); }
  }

  // -------------------------------------------------- nothing that is mounted is missing

  /** The object a volume of the pod is taken from exists; secrets are optional. */
  predicate Present(t: Slice, n: string, source: VolumeSource) {
    match source
    case EmptyDir => true
    case FromSecret(_) => true
    case Claim(pvc) => Named(n, pvc).Some? && t.Vol(Named(n, pvc).value).Some?
    case FromConfigMap(c) =>
      || (c == n + IDENTITY_SUFFIX && t.identity.Some?) || (c == n + SKILLS_SUFFIX && t.skills.Some?)
      || (c == n + OPENCLAW_SUFFIX && t.openclaw.Some?) || (c == n + OBSERVECLAW_SUFFIX && t.observeclaw.Some?)
      || (c == n + HERMES_SUFFIX && t.hermes.Some?)
  }

  predicate AllPresent(t: Slice, n: string) {
    t.deployment.Some? && forall v :: v in t.deployment.value.spec.template.volumes ==> Present(t, n, v.source)
  }

  /** The home volume is the one the status names, or scratch space when it names none. */
  predicate MountsStatus(t: Slice) {
    && t.agent.Some? && t.deployment.Some? && |t.deployment.value.spec.template.volumes| > 0
    && t.deployment.value.spec.template.volumes[0].source
       == (if t.agent.value.status.workspacePVC != "" then Claim(t.agent.value.status.workspacePVC) else EmptyDir)
  }

  /** The call is about to finish a resize of a volume that already has the resized name. */
  predicate SecondSwitch(sl: Slice, n: string, a: Agent) {
    && a.spec.workspace.IsPersistent() && ActiveVolume(n, a.status) == HomeV2 && NeedsResize(sl, n, a)
    && ScaledDown(sl) && sl.pod.Some? && sl.pod.value.phase.Succeeded?
  }

  /** The volume to mount is there, unless the call switches it away from its own name. */
  lemma StorageThere(s1: Slice, n: string, a: Agent, faults: Faults)
    ensures var (s2, m) := WorkspaceStep(s1, n, a, faults);
            m.Mount? ==>
              if a.spec.workspace.IsPersistent()
              then m.pvc != "" && (Present(s2, n, Claim(m.pvc)) <==> !SecondSwitch(s1, n, a))
              else m.pvc == ""
  {
    OwnNamesDistinct(n);
    assert |VolName(n, Home)| > 0 && |VolName(n, HomeV2)| > 0;
  }

  lemma VolumesOf(input: ConfigInput, pvc: string)
    requires input.spec.workspace.IsPersistent() <==> pvc != ""
    ensures var vs := DeploymentFor(input, pvc).template.volumes;
            && vs[0].source == (if pvc != "" then Claim(pvc) else EmptyDir)
            && forall v :: v in vs ==>
                 || v.source == (if pvc != "" then Claim(pvc) else EmptyDir) || v.source.FromSecret?
                 || v.source in {FromConfigMap(input.name + IDENTITY_SUFFIX), FromConfigMap(input.name + SKILLS_SUFFIX),
                                 FromConfigMap(input.name + Harness.ConfigMapSuffix(HarnessOf(input)))}
  {
  }

  /** The three ConfigMaps the pod mounts. */
  predicate TextsPresent(t: Slice, n: string, input: ConfigInput) {
    && Present(t, n, FromConfigMap(n + IDENTITY_SUFFIX)) && Present(t, n, FromConfigMap(n + SKILLS_SUFFIX))
    && Present(t, n, FromConfigMap(n + Harness.ConfigMapSuffix(HarnessOf(input))))
  }

  lemma ConfigMapsThere(sl: Slice, n: string, owner: OwnerRef, input: ConfigInput, orders: KeyOrders, faults: Faults)
    ensures var (t, ok) := Prologue(sl, owner, input, orders, faults); ok ==> TextsPresent(t, n, input)
  {
    PrologueChildren(sl, owner, input, orders, faults);
    WrittenThere(sl, n, input, Written(sl.identity, owner, IdentityData(input.spec.identity)),
                 Written(sl.skills, owner, SkillsData(input.skills)),
                 Written(sl.Config(HarnessOf(input)), owner, ConfigData(input, orders)));
  }

  lemma WrittenThere(sl: Slice, n: string, input: ConfigInput, identity: Option<ConfigMap>, skills: Option<ConfigMap>,
                     config: Option<ConfigMap>)
    requires identity.Some? && skills.Some? && config.Some?
    ensures TextsPresent(sl.(identity := identity, skills := skills).WithConfig(HarnessOf(input), config), n, input)
  {
  }

  lemma TextsKept(s1: Slice, t: Slice, n: string, input: ConfigInput)
    requires t.identity == s1.identity && t.skills == s1.skills && t.openclaw == s1.openclaw
    requires t.observeclaw == s1.observeclaw && t.hermes == s1.hermes && TextsPresent(s1, n, input)
    ensures TextsPresent(t, n, input)
  {
  }

  lemma MountedThere(t: Slice, n: string, input: ConfigInput, pvc: string)
    requires input.name == n && (input.spec.workspace.IsPersistent() <==> pvc != "") && TextsPresent(t, n, input)
    requires t.agent.Some? && t.agent.value.status.workspacePVC == pvc
    requires t.deployment.Some? && t.deployment.value.spec == DeploymentFor(input, pvc)
    ensures MountsStatus(t) && (AllPresent(t, n) <==> pvc == "" || Present(t, n, Claim(pvc)))
  {
    VolumesOf(input, pvc);
    var vs := DeploymentFor(input, pvc).template.volumes;
    assert vs[0] in vs;
  }

  /**
   A complete call leaves nothing missing: the home volume the Deployment mounts is the one the
   stored status names, it exists, and so do the ConfigMaps the pod mounts, unless the call was
   a second switch, which deletes the volume it switches to.
   */
  lemma DoneMountsWhatExists(sl: Slice, n: string, ns: string, objs: Resolve.Objects, orders: KeyOrders, faults: Faults)
    requires sl.agent.Some?
    ensures var (t, outcome) := ReconcileSlice(sl, n, ns, objs, orders, faults);
            outcome == Done ==> MountsStatus(t) && (AllPresent(t, n) <==> !SecondSwitch(sl, n, sl.agent.value))
  {
    var (t, outcome) := ReconcileSlice(sl, n, ns, objs, orders, faults);
    var a := sl.agent.value;
    var input := Resolve.Resolved(objs, n, ns, a.spec);
    DoneIsComplete(sl, n, ns, objs, orders, faults);
    if outcome == Done {
      var (s1, ok) := Prologue(sl, OwnerRef(n, a.uid), input, orders, faults);
      TextsFirst(sl, n, a, input, orders, faults, t);
      TextsStay(s1, n, a, input, faults, t);
      EndsWithAllPresent(s1, n, a, input, faults, t);
    }
  }

  lemma EndsWithDeployment(s2: Slice, n: string, a: Agent, input: ConfigInput, pvc: string, t: Slice)
    requires EndsMounted(s2, n, a, input, pvc, t)
    ensures t.agent.Some? && t.agent.value.status.workspacePVC == pvc
    ensures t.deployment.Some? && t.deployment.value.spec == DeploymentFor(input, pvc)
    ensures t.home == s2.home && t.homeV2 == s2.homeV2 && t.identity == s2.identity && t.skills == s2.skills
    ensures t.openclaw == s2.openclaw && t.observeclaw == s2.observeclaw && t.hermes == s2.hermes
  {
  }

  /** The later phases do not touch the ConfigMaps. */
  lemma TextsStay(s1: Slice, n: string, a: Agent, input: ConfigInput, faults: Faults, t: Slice)
    requires TextsPresent(s1, n, input)
    requires var (s2, m) := WorkspaceStep(s1, n, a, faults); m.Mount? && EndsMounted(s2, n, a, input, m.pvc, t)
    ensures TextsPresent(t, n, input)
  {
    var (s2, m) := WorkspaceStep(s1, n, a, faults);
    WorkspaceKeepsAgent(s1, n, a, faults);
    EndsWithDeployment(s2, n, a, input, m.pvc, t);
    TextsKept(s1, t, n, input);
  }

  lemma EndsWithAllPresent(s1: Slice, n: string, a: Agent, input: ConfigInput, faults: Faults, t: Slice)
    requires input.name == n && input.spec == a.spec && TextsPresent(t, n, input)
    requires var (s2, m) := WorkspaceStep(s1, n, a, faults); m.Mount? && EndsMounted(s2, n, a, input, m.pvc, t)
    ensures MountsStatus(t) && (AllPresent(t, n) <==> !SecondSwitch(s1, n, a))
  {
    var (s2, m) := WorkspaceStep(s1, n, a, faults);
    StorageThere(s1, n, a, faults);
    EndsWithDeployment(s2, n, a, input, m.pvc, t);
    MountedThere(t, n, input, m.pvc);
    ClaimKept(s2, t, n, m.pvc);
  }

  lemma ClaimKept(s2: Slice, t: Slice, n: string, pvc: string)
    requires t.home == s2.home && t.homeV2 == s2.homeV2
    ensures Present(t, n, Claim(pvc)) <==> Present(s2, n, Claim(pvc))
  {
  }
}
