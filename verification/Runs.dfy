/**
 Runs of one agent's slice: reconciles with arbitrary failing API writes, user edits, the
 migration pod's progress, the running agent's writes, garbage collection, and whatever else
 happens to its Deployment. The theorems hold for every run in persistent mode, up to and including the
 first switch to the resized volume.
 */
module Runs {
  import opened Prelude
  import opened Api
  import opened Cluster
  import opened Deployment
  import opened Workspace
  import opened Reconcile
  import opened Collector
  import Resolve

  datatype Event =
    | Reconciled(objs: Resolve.Objects, orders: KeyOrders, faults: Faults)
    | Edited(spec: AgentSpec)
    | WorkloadChanged(workload: Option<Workload>)
    | PodCopied(paths: set<string>)
    | PodSucceeded
    | PodFailed
    | AgentWrote(files: map<string, string>)
    | GarbageCollected(others: set<nat>)

  /** The home volume a claim name stands for. */
  function Named(n: string, claim: string): Option<HomeVolume> {
    if claim == VolName(n, Home) then Some(Home)
    else if claim == VolName(n, HomeV2) then Some(HomeV2)
    else None
  }

  /** The pod has both its volumes and has not finished. */
  predicate PodActive(sl: Slice, n: string) {
    && sl.pod.Some? && (sl.pod.value.phase.Pending? || sl.pod.value.phase.Running?)
    && Named(n, sl.pod.value.src).Some? && sl.Vol(Named(n, sl.pod.value.src).value).Some?
    && Named(n, sl.pod.value.dst).Some? && sl.Vol(Named(n, sl.pod.value.dst).value).Some?
  }

  /** `cp -a` of some of the source files onto the destination. */
  function Copied(sl: Slice, n: string, paths: set<string>): Slice
    requires PodActive(sl, n)
  {
    var src := sl.Vol(Named(n, sl.pod.value.src).value).value;
    var v := Named(n, sl.pod.value.dst).value;
    var dst := sl.Vol(v).value;
    sl.WithVol(v, Some(dst.(files := dst.files + map p | p in src.files && p in paths :: src.files[p])))
  }

  /** The volume a running agent can write to. */
  function Mounted(sl: Slice, n: string): Option<HomeVolume> {
    if sl.deployment.Some? && sl.deployment.value.spec.replicas != Some(0)
       && |sl.deployment.value.spec.template.volumes| > 0
       && sl.deployment.value.spec.template.volumes[0].source.Claim?
    then Named(n, sl.deployment.value.spec.template.volumes[0].source.pvc)
    else None
  }

  function Step(sl: Slice, n: string, ns: string, ev: Event): Slice {
    match ev
    case Reconciled(objs, orders, faults) => ReconcileSlice(sl, n, ns, objs, orders, faults).0
    case Edited(spec) => if sl.agent.Some? then sl.(agent := Some(sl.agent.value.(spec := spec))) else sl
    case WorkloadChanged(w) => sl.(deployment := w)
    case PodCopied(paths) =>
      if PodActive(sl, n) then Copied(sl, n, paths).(pod := Some(sl.pod.value.(phase := Running))) else sl
    case PodSucceeded =>
      if PodActive(sl, n)
      then
        var all := sl.Vol(Named(n, sl.pod.value.src).value).value.files.Keys;
        Copied(sl, n, all).(pod := Some(sl.pod.value.(phase := Succeeded)))
      else sl
    case PodFailed => if PodActive(sl, n) then sl.(pod := Some(sl.pod.value.(phase := Failed))) else sl
    case AgentWrote(files) =>
      var v := Mounted(sl, n);
      if v.Some? && sl.Vol(v.value).Some? then sl.WithVol(v.value, Some(sl.Vol(v.value).value.(files := files))) else sl
    case GarbageCollected(others) => Collected(sl, others)
  }

  function Run(sl: Slice, n: string, ns: string, evs: seq<Event>): Slice {
    if evs == [] then sl else Step(Run(sl, n, ns, evs[..|evs| - 1]), n, ns, evs[|evs| - 1])
  }

  /** Edits keep the workspace persistent. */
  predicate Persistent(ev: Event) { ev.Edited? ==> ev.spec.workspace.IsPersistent() }

  predicate DropsHome(sl: Slice, n: string, ns: string, ev: Event) {
    sl.home.Some? && Step(sl, n, ns, ev).home.None?
  }

  /** No event of the run takes the original volume away. */
  predicate KeepsHome(sl: Slice, n: string, ns: string, evs: seq<Event>) {
    evs == []
    || (KeepsHome(sl, n, ns, evs[..|evs| - 1])
        && !DropsHome(Run(sl, n, ns, evs[..|evs| - 1]), n, ns, evs[|evs| - 1]))
  }

  // ---------------------------------------------------------------- invariants

  /** A persistent agent on its original volume, before any resize. If the volume has owners, the agent is one. */
  predicate Initial(sl: Slice, n: string) {
    && sl.agent.Some? && sl.agent.value.spec.workspace.IsPersistent()
    && StatusOk(n, sl.agent.value.status) && ActiveVolume(n, sl.agent.value.status) == Home
    && sl.homeV2.None? && sl.pod.None? && VolumesHeld(sl)
  }

  /** What holds until the first switch. */
  predicate BeforeSwitch(sl: Slice, n: string) {
    && sl.agent.Some? && sl.agent.value.spec.workspace.IsPersistent()
    && StatusOk(n, sl.agent.value.status) && ActiveVolume(n, sl.agent.value.status) == Home
    && (sl.pod.Some? ==>
          sl.homeV2.Some? && sl.pod.value.src == VolName(n, Home) && sl.pod.value.dst == VolName(n, HomeV2))
    && (sl.homeV2.Some? ==> sl.home.Some? && sl.homeV2.value.size > sl.home.value.size)
    && VolumesHeld(sl)
  }

  /** A reconcile's effect on the workspace: nothing, or that of ensurePVC and what follows it. */
  predicate Effect(sl: Slice, n: string, t: Slice, outcome: Outcome, faults: Faults)
    requires sl.agent.Some?
  {
    var (w, p) := EnsurePVC(sl, n, sl.agent.value, faults);
    || (outcome == Error && t.home == sl.home && t.homeV2 == sl.homeV2 && t.pod == sl.pod
        && t.deployment == sl.deployment && t.agent == sl.agent
        && faults * {PutIdentity, PutSkills, PutConfig} != {})
    || (t.home == w.home && t.homeV2 == w.homeV2 && t.pod == w.pod && After(sl, n, t, outcome, w, p, faults))
  }

  /** What a reconcile does to the workspace, with the other phases out of the way. */
  lemma ReconcileWorkspace(sl: Slice, n: string, ns: string, objs: Resolve.Objects, orders: KeyOrders, faults: Faults)
    requires sl.agent.Some? && sl.agent.value.spec.workspace.IsPersistent()
    ensures var (t, outcome) := ReconcileSlice(sl, n, ns, objs, orders, faults); Effect(sl, n, t, outcome, faults)
  {
    var a := sl.agent.value;
    var input := Resolve.Resolved(objs, n, ns, a.spec);
    var (s1, ok) := Prologue(sl, OwnerRef(n, a.uid), input, orders, faults);
    PrologueKeepsRest(sl, OwnerRef(n, a.uid), input, orders, faults);
    PrologueOk(sl, OwnerRef(n, a.uid), input, orders, faults);
    if ok {
      var (t, outcome) := AfterPrologue(s1, n, a, input, faults);
      AfterPrologueEffect(s1, n, a, input, faults);
      EffectIgnoresConfigMaps(sl, s1, n, t, outcome, faults);
    }
  }

  lemma AfterPrologueEffect(s1: Slice, n: string, a: Agent, input: ConfigInput, faults: Faults)
    requires s1.agent == Some(a) && input.spec == a.spec && a.spec.workspace.IsPersistent()
    ensures var (t, outcome) := AfterPrologue(s1, n, a, input, faults); Effect(s1, n, t, outcome, faults)
  {
    var (s2, m) := WorkspaceStep(s1, n, a, faults);
    WorkspaceKeepsAgent(s1, n, a, faults);
    if m.Mount? {
      assert |VolName(n, Home)| > 0 && |VolName(n, HomeV2)| > 0;
      EpilogueEffect(s2, n, a, input, m.pvc, faults);
    }
  }

  lemma EffectIgnoresConfigMaps(sl: Slice, s1: Slice, n: string, t: Slice, outcome: Outcome, faults: Faults)
    requires s1.home == sl.home && s1.homeV2 == sl.homeV2 && s1.pod == sl.pod && s1.deployment == sl.deployment
    requires s1.agent == sl.agent && sl.agent.Some? && Effect(s1, n, t, outcome, faults)
    ensures Effect(sl, n, t, outcome, faults)
  {
    PVCIgnoresConfigMaps(sl, s1, n, sl.agent.value, faults);
  }

  /** The rest of a reconcile whose ensurePVC ended in (w, p). */
  predicate After(sl: Slice, n: string, t: Slice, outcome: Outcome, w: Slice, p: Progress, faults: Faults)
    requires sl.agent.Some?
  {
    match p
    case Requeue => outcome == RequeueAfter(5) && t.deployment == w.deployment && t.agent == sl.agent
    case Abort => outcome == Error && t.deployment == w.deployment && t.agent == sl.agent
    case Proceed(v) =>
      && (outcome == Done || outcome == Error)
      && (t.agent == sl.agent
          || (outcome == Done && t.agent.Some? && t.agent == Some(sl.agent.value.(status := t.agent.value.status))))
      && (outcome == Done ==> t.agent.value.status.workspacePVC == VolName(n, v))
      && (outcome == Error ==> faults * LATE_CALLS != {} && t.agent == sl.agent)
      && (t.deployment == w.deployment || (t.deployment.Some? && t.deployment.value.spec.replicas == Some(1)))
      && (outcome == Done ==> t.deployment.Some? && t.deployment.value.spec.replicas == Some(1)
                              && |t.deployment.value.spec.template.volumes| > 0
                              && t.deployment.value.spec.template.volumes[0].source == Claim(VolName(n, v)))
  }

  lemma PrologueOk(sl: Slice, owner: OwnerRef, input: ConfigInput, orders: KeyOrders, faults: Faults)
    ensures !Prologue(sl, owner, input, orders, faults).1 ==> faults * {PutIdentity, PutSkills, PutConfig} != {}
  {
    assert PutIdentity in faults ==> PutIdentity in faults * {PutIdentity, PutSkills, PutConfig};
    assert PutSkills in faults ==> PutSkills in faults * {PutIdentity, PutSkills, PutConfig};
    assert PutConfig in faults ==> PutConfig in faults * {PutIdentity, PutSkills, PutConfig};
  }

  lemma PVCIgnoresConfigMaps(sl: Slice, s1: Slice, n: string, a: Agent, faults: Faults)
    requires s1.home == sl.home && s1.homeV2 == sl.homeV2 && s1.pod == sl.pod && s1.deployment == sl.deployment
    requires s1.agent == sl.agent
    ensures var (w, p) := EnsurePVC(sl, n, a, faults);
            var (w1, p1) := EnsurePVC(s1, n, a, faults);
            p1 == p && w1.home == w.home && w1.homeV2 == w.homeV2 && w1.pod == w.pod && w1.deployment == w.deployment
            && w1.agent == sl.agent
  {
    var owner := OwnerRef(n, a.uid);
    var v := ActiveVolume(n, a.status);
    if sl.Vol(v).Some? {
      var synced := Some(Synced(sl.Vol(v).value, a.spec.workspace.ResolvedReclaimPolicy(), owner));
      ResizeIgnoresConfigMaps(sl.WithVol(v, synced), s1.WithVol(v, synced), n, a.spec.workspace, owner, v, faults);
    }
  }

  lemma ResizeIgnoresConfigMaps(sl: Slice, s1: Slice, n: string, ws: WorkspaceSpec, owner: OwnerRef, v: HomeVolume,
                                faults: Faults)
    requires s1.home == sl.home && s1.homeV2 == sl.homeV2 && s1.pod == sl.pod && s1.deployment == sl.deployment
    requires s1.agent == sl.agent
    ensures var (w, p) := Resize(sl, n, ws, owner, v, faults);
            var (w1, p1) := Resize(s1, n, ws, owner, v, faults);
            p1 == p && w1.home == w.home && w1.homeV2 == w.homeV2 && w1.pod == w.pod && w1.deployment == w.deployment
            && w1.agent == sl.agent
  {
  }

  /** The faults that can stop a call after the volumes. */
  const LATE_CALLS: Faults := {PutDeployment, PutService, PutStatus}

  lemma EpilogueKeepsVolumes(s2: Slice, n: string, a: Agent, input: ConfigInput, pvc: string, faults: Faults)
    requires s2.agent == Some(a)
    ensures var (t, outcome) := Epilogue(s2, n, a, input, pvc, faults);
            && t.home == s2.home && t.homeV2 == s2.homeV2 && t.pod == s2.pod
            && (t.agent == s2.agent
                || (outcome == Done && t.agent.Some? && t.agent == Some(a.(status := t.agent.value.status))))
            && (outcome == Done ==> t.agent.Some? && t.agent.value.status.workspacePVC == pvc)
  {
  }

  lemma EpilogueFails(s2: Slice, n: string, a: Agent, input: ConfigInput, pvc: string, faults: Faults)
    ensures var (t, outcome) := Epilogue(s2, n, a, input, pvc, faults);
            outcome == Done || (outcome == Error && faults * LATE_CALLS != {})
  {
    assert PutDeployment in faults ==> PutDeployment in faults * LATE_CALLS;
    assert PutService in faults ==> PutService in faults * LATE_CALLS;
    assert PutStatus in faults ==> PutStatus in faults * LATE_CALLS;
  }

  lemma EpilogueDeploys(s2: Slice, n: string, a: Agent, input: ConfigInput, pvc: string, faults: Faults)
    ensures var (t, outcome) := Epilogue(s2, n, a, input, pvc, faults);
            && (t.deployment == s2.deployment || (t.deployment.Some? && t.deployment.value.spec.replicas == Some(1)))
            && (outcome == Done ==> t.deployment.Some? && t.deployment.value.spec == DeploymentFor(input, pvc))
  {
  }

  lemma EpilogueEffect(s2: Slice, n: string, a: Agent, input: ConfigInput, pvc: string, faults: Faults)
    requires s2.agent == Some(a) && input.spec == a.spec && a.spec.workspace.IsPersistent() && pvc != ""
    ensures var (t, outcome) := Epilogue(s2, n, a, input, pvc, faults);
            && t.home == s2.home && t.homeV2 == s2.homeV2 && t.pod == s2.pod
            && (outcome == Done || (outcome == Error && t.agent == s2.agent && faults * LATE_CALLS != {}))
            && (t.agent == s2.agent || (t.agent.Some? && t.agent == Some(a.(status := t.agent.value.status))))
            && (outcome == Done ==> t.agent.Some? && t.agent.value.status.workspacePVC == pvc)
            && (t.deployment == s2.deployment || (t.deployment.Some? && t.deployment.value.spec.replicas == Some(1)))
            && (outcome == Done ==> t.deployment.Some? && t.deployment.value.spec == DeploymentFor(input, pvc))
            && DeploymentFor(input, pvc).template.volumes[0].source == Claim(pvc)
  {
    EpilogueKeepsVolumes(s2, n, a, input, pvc, faults);
    EpilogueFails(s2, n, a, input, pvc, faults);
    EpilogueDeploys(s2, n, a, input, pvc, faults);
    MountsActivePVC(input, pvc);
  }

  // --------------------------------------------------- before the first switch

  lemma ResizeKeepsHeld(sl: Slice, n: string, ws: WorkspaceSpec, owner: OwnerRef, v: HomeVolume, faults: Faults)
    requires Held(sl.home, owner.uid) && Held(sl.homeV2, owner.uid)
    ensures var (w, _) := Resize(sl, n, ws, owner, v, faults); Held(w.home, owner.uid) && Held(w.homeV2, owner.uid)
  {
    NewOwnersHeld(ws.ResolvedReclaimPolicy(), owner);
  }

  lemma EnsurePVCKeepsHeld(sl: Slice, n: string, a: Agent, faults: Faults)
    requires Held(sl.home, a.uid) && Held(sl.homeV2, a.uid)
    ensures var (w, _) := EnsurePVC(sl, n, a, faults); Held(w.home, a.uid) && Held(w.homeV2, a.uid)
  {
    var ws, owner, v := a.spec.workspace, OwnerRef(n, a.uid), ActiveVolume(n, a.status);
    NewOwnersHeld(ws.ResolvedReclaimPolicy(), owner);
    if sl.Vol(v).Some? {
      var synced := Synced(sl.Vol(v).value, ws.ResolvedReclaimPolicy(), owner);
      ResizeKeepsHeld(sl.WithVol(v, Some(synced)), n, ws, owner, v, faults);
    }
  }

  lemma NewOwnersHeld(policy: string, owner: OwnerRef)
    ensures forall p: PVC :: Held(Some(p.(owners := OwnersFor(policy, owner))), owner.uid)
    ensures forall p: PVC :: Held(Some(p), owner.uid) ==> Held(Some(Synced(p, policy, owner)), owner.uid)
  {
    assert [owner][0].uid == owner.uid;
  }

  lemma EffectKeepsInvariant(sl: Slice, n: string, t: Slice, outcome: Outcome, faults: Faults)
    requires BeforeSwitch(sl, n) && Effect(sl, n, t, outcome, faults) && (sl.home.Some? ==> t.home.Some?)
    ensures BeforeSwitch(t, n)
  {
    OwnNamesDistinct(n);
    EnsurePVCKeepsHeld(sl, n, sl.agent.value, faults);
  }

  lemma ReconcileKeepsInvariant(sl: Slice, n: string, ns: string, objs: Resolve.Objects, orders: KeyOrders,
                                faults: Faults)
    requires BeforeSwitch(sl, n)
    ensures var (t, outcome) := ReconcileSlice(sl, n, ns, objs, orders, faults);
            (sl.home.Some? ==> t.home.Some?) ==> BeforeSwitch(t, n)
  {
    ReconcileWorkspace(sl, n, ns, objs, orders, faults);
    var (t, outcome) := ReconcileSlice(sl, n, ns, objs, orders, faults);
    if sl.home.Some? ==> t.home.Some? { EffectKeepsInvariant(sl, n, t, outcome, faults); }
  }

  lemma StepKeepsInvariant(sl: Slice, n: string, ns: string, ev: Event)
    requires BeforeSwitch(sl, n) && Persistent(ev) && !DropsHome(sl, n, ns, ev)
    ensures BeforeSwitch(Step(sl, n, ns, ev), n)
  {
    OwnNamesDistinct(n);
    match ev
    case Reconciled(objs, orders, faults) => ReconcileKeepsInvariant(sl, n, ns, objs, orders, faults);
    case GarbageCollected(others) => HeldVolumesStay(sl, others);
    case _ =>
  }

  lemma {:induction false} RunKeepsInvariant(sl: Slice, n: string, ns: string, evs: seq<Event>)
    requires BeforeSwitch(sl, n) && KeepsHome(sl, n, ns, evs)
    requires forall i :: 0 <= i < |evs| ==> Persistent(evs[i])
    ensures BeforeSwitch(Run(sl, n, ns, evs), n)
  {
    if evs != [] {
      RunKeepsInvariant(sl, n, ns, evs[..|evs| - 1]);
      StepKeepsInvariant(Run(sl, n, ns, evs[..|evs| - 1]), n, ns, evs[|evs| - 1]);
    }
  }

  /** The size a spec asks for, 5Gi when it names none. */
  function Request(ws: WorkspaceSpec): nat { if ws.storageSize.None? then 5368709120 else ws.storageSize.value }

  /**
   The conditions under which the original volume may go, spelled out: more is asked for than it
   has, the Deployment is absent or at zero, a larger resized volume is there, and a pod from the
   one to the other has succeeded.
   */
  predicate SafeFor(sl: Slice, n: string, a: Agent) {
    && sl.home.Some? && Request(a.spec.workspace) > sl.home.value.size
    && (sl.deployment.None? || sl.deployment.value.spec.replicas == Some(0))
    && sl.homeV2.Some? && sl.homeV2.value.size > sl.home.value.size
    && sl.pod == Some(MigrationPod(n + "-home", n + "-home-v2", Succeeded))
  }

  predicate SafeToDrop(sl: Slice, n: string) { sl.agent.Some? && SafeFor(sl, n, sl.agent.value) }

  lemma DropIsSafe(sl: Slice, n: string, ns: string, ev: Event)
    requires BeforeSwitch(sl, n) && Persistent(ev)
    ensures DropsHome(sl, n, ns, ev) ==>
              ev.Reconciled? && DeleteOld !in ev.faults && SafeToDrop(sl, n) && Step(sl, n, ns, ev).homeV2 == sl.homeV2
  {
    match ev
    case Reconciled(objs, orders, faults) =>
      ReconcileWorkspace(sl, n, ns, objs, orders, faults);
      var (t, outcome) := ReconcileSlice(sl, n, ns, objs, orders, faults);
      if sl.home.Some? && t.home.None? { EffectDrops(sl, n, t, outcome, faults); }
    case GarbageCollected(others) => HeldVolumesStay(sl, others);
    case _ => OwnNamesDistinct(n);
  }

  lemma EffectDrops(sl: Slice, n: string, t: Slice, outcome: Outcome, faults: Faults)
    requires BeforeSwitch(sl, n) && Effect(sl, n, t, outcome, faults) && sl.home.Some? && t.home.None?
    ensures DeleteOld !in faults && SafeToDrop(sl, n) && t.homeV2 == sl.homeV2
  {
    OwnNamesDistinct(n);
    DeletionIsGuarded(sl, n, sl.agent.value, faults);
  }

  /**
   The status names a volume that exists exactly when the call was Done, and then the agent is mounted on the
   new one.
   */
  predicate Lasting(n: string, t: Slice, outcome: Outcome) {
    && t.agent.Some?
    && (t.Vol(ActiveVolume(n, t.agent.value.status)).Some? <==> outcome == Done)
    && (outcome == Done ==> ActiveVolume(n, t.agent.value.status) == HomeV2 && Mounted(t, n) == Some(HomeV2))
  }

  lemma EffectLasts(sl: Slice, n: string, t: Slice, outcome: Outcome, faults: Faults)
    requires BeforeSwitch(sl, n) && Effect(sl, n, t, outcome, faults) && sl.home.Some? && t.home.None?
    ensures Lasting(n, t, outcome)
  {
    OwnNamesDistinct(n);
  }

  /** No write that is still to come after the volumes fails; an up-to-date Service is not written. */
  predicate RestSucceeds(service: Option<Service>, input: ConfigInput, faults: Faults) {
    && PutDeployment !in faults && PutStatus !in faults
    && (PutService !in faults || ServiceUpToDate(service, input))
  }

  predicate ServiceUpToDate(service: Option<Service>, input: ConfigInput) {
    service.Some? && service.value.spec.ports == ServiceFor(input).ports
    && service.value.spec.selector == ServiceFor(input).selector
  }

  /** With the Deployment scaled down and a new volume name, Deployment and status both have to be written. */
  lemma EpilogueDoneExactly(s2: Slice, n: string, a: Agent, input: ConfigInput, pvc: string, faults: Faults)
    requires ScaledDown(s2) && a.status.workspacePVC != pvc
    ensures Epilogue(s2, n, a, input, pvc, faults).1 == Done <==> RestSucceeds(s2.service, input, faults)
  {
  }

  /** The volumes' part of a switch leaves the Deployment at zero and everything else alone. */
  lemma SwitchingStep(s1: Slice, n: string, a: Agent, faults: Faults)
    requires s1.agent == Some(a) && BeforeSwitch(s1, n) && s1.home.Some?
    ensures var (s2, m) := WorkspaceStep(s1, n, a, faults);
            s2.home.None? ==> m == Mount(VolName(n, HomeV2)) && ScaledDown(s2) && s2.service == s1.service
  {
    DeletionIsGuarded(s1, n, a, faults);
    WorkspaceKeepsAgent(s1, n, a, faults);
  }

  lemma SwitchDoneExactly(s1: Slice, n: string, a: Agent, input: ConfigInput, faults: Faults)
    requires s1.agent == Some(a) && BeforeSwitch(s1, n) && s1.home.Some?
    ensures var (t, outcome) := AfterPrologue(s1, n, a, input, faults);
            t.home.None? ==> (outcome == Done <==> RestSucceeds(s1.service, input, faults))
  {
    var (s2, m) := WorkspaceStep(s1, n, a, faults);
    SwitchingStep(s1, n, a, faults);
    WorkspaceKeepsAgent(s1, n, a, faults);
    OwnNamesDistinct(n);
    if m.Mount? {
      EpilogueKeepsVolumes(s2, n, a, input, m.pvc, faults);
      if s2.home.None? { EpilogueDoneExactly(s2, n, a, input, m.pvc, faults); }
    }
  }

  /**
   The switch lasts exactly when the writes that come after it succeed, the Service's only if it
   is needed: then, and only then, the stored status names a volume that exists. Otherwise it
   still names the volume that was just deleted.
   */
  lemma SwitchLastsExactly(sl: Slice, n: string, ns: string, objs: Resolve.Objects, orders: KeyOrders, faults: Faults)
    requires BeforeSwitch(sl, n) && sl.home.Some?
    ensures var (t, outcome) := ReconcileSlice(sl, n, ns, objs, orders, faults);
            var rest := RestSucceeds(sl.service, Resolve.Resolved(objs, n, ns, sl.agent.value.spec), faults);
            t.home.None? ==>
              && Lasting(n, t, outcome)
              && (outcome == Done <==> rest)
              && (t.Vol(ActiveVolume(n, t.agent.value.status)).Some? <==> rest)
  {
    ReconcileWorkspace(sl, n, ns, objs, orders, faults);
    var (t, outcome) := ReconcileSlice(sl, n, ns, objs, orders, faults);
    if t.home.None? {
      EffectLasts(sl, n, t, outcome, faults);
      SwitchOutcome(sl, n, ns, objs, orders, faults);
    }
  }

  lemma SwitchOutcome(sl: Slice, n: string, ns: string, objs: Resolve.Objects, orders: KeyOrders, faults: Faults)
    requires BeforeSwitch(sl, n) && sl.home.Some?
    ensures var (t, outcome) := ReconcileSlice(sl, n, ns, objs, orders, faults);
            t.home.None? ==>
              (outcome == Done <==> RestSucceeds(sl.service, Resolve.Resolved(objs, n, ns, sl.agent.value.spec),
                faults))
  {
    var a := sl.agent.value;
    var input := Resolve.Resolved(objs, n, ns, a.spec);
    var (s1, ok) := Prologue(sl, OwnerRef(n, a.uid), input, orders, faults);
    PrologueKeepsRest(sl, OwnerRef(n, a.uid), input, orders, faults);
    if ok { SwitchDoneExactly(s1, n, a, input, faults); }
  }

  /** The volume the status names is there, and no smaller than the original was. */
  predicate ActiveVolumeKept(sl: Slice, n: string, t: Slice) {
    && t.agent.Some? && StatusOk(n, t.agent.value.status)
    && t.Vol(ActiveVolume(n, t.agent.value.status)).Some?
    && (sl.home.Some? ==> t.Vol(ActiveVolume(n, t.agent.value.status)).value.size >= sl.home.value.size)
  }

  lemma EffectKeepsActive(sl: Slice, n: string, t: Slice, outcome: Outcome)
    requires BeforeSwitch(sl, n) && Effect(sl, n, t, outcome, {})
    ensures ActiveVolumeKept(sl, n, t)
  {
    OwnNamesDistinct(n);
  }

  /**
   Active volume: after every error-free reconcile of such a run, the switch included, the
   volume the status names exists, and it is no smaller than the one named before.
   */
  lemma ActiveVolumeExists(sl: Slice, n: string, ns: string, evs: seq<Event>, objs: Resolve.Objects, orders: KeyOrders)
    requires Initial(sl, n) && KeepsHome(sl, n, ns, evs)
    requires forall i :: 0 <= i < |evs| ==> Persistent(evs[i])
    ensures var before := Run(sl, n, ns, evs);
            ActiveVolumeKept(before, n, ReconcileSlice(before, n, ns, objs, orders, {}).0)
  {
    RunKeepsInvariant(sl, n, ns, evs);
    var before := Run(sl, n, ns, evs);
    ReconcileWorkspace(before, n, ns, objs, orders, {});
    var (t, outcome) := ReconcileSlice(before, n, ns, objs, orders, {});
    EffectKeepsActive(before, n, t, outcome);
  }

  // ------------------------------------------------------------ what is copied

  lemma EffectStartsAgent(sl: Slice, n: string, t: Slice, outcome: Outcome)
    requires BeforeSwitch(sl, n) && sl.pod.None? && Effect(sl, n, t, outcome, {})
    ensures t.pod.Some? ==> Mounted(t, n) == Some(Home)
    ensures sl.homeV2.Some? && ScaledDown(sl) && NeedsResize(sl, n, sl.agent.value) ==>
              t.pod == Some(MigrationPod(VolName(n, Home), VolName(n, HomeV2), Pending))
              && t.home.Some? && t.home.value.files == sl.home.value.files && t.home.value.size == sl.home.value.size
              && t.homeV2 == sl.homeV2 && t.agent.Some? && t.agent.value.spec == sl.agent.value.spec
  {
    OwnNamesDistinct(n);
  }

  /**
   The controller itself does not keep the agent quiet: every error-free reconcile that creates
   the migration pod also brings the Deployment back to one replica on the volume being copied.
   */
  lemma CopyStartsWithAgentRunning(sl: Slice, n: string, ns: string, objs: Resolve.Objects, orders: KeyOrders)
    requires BeforeSwitch(sl, n) && sl.pod.None?
    ensures var t := ReconcileSlice(sl, n, ns, objs, orders, {}).0;
            t.pod.Some? ==> Mounted(t, n) == Some(Home)
  {
    ReconcileWorkspace(sl, n, ns, objs, orders, {});
    var (t, outcome) := ReconcileSlice(sl, n, ns, objs, orders, {});
    EffectStartsAgent(sl, n, t, outcome);
  }

  /** With the pod succeeded, two error-free reconciles stop the agent and switch. */
  lemma EffectSwitches(sl: Slice, n: string, t: Slice, outcome: Outcome)
    requires BeforeSwitch(sl, n) && NeedsResize(sl, n, sl.agent.value) && sl.home.Some?
    requires sl.pod.Some? && sl.pod.value.phase.Succeeded? && Effect(sl, n, t, outcome, {})
    ensures ScaledDown(sl) ==> t.home.None? && t.homeV2 == sl.homeV2
    ensures !ScaledDown(sl) ==>
              && t.homeV2 == sl.homeV2 && t.pod == sl.pod && t.home.Some?
              && t.home.value.size == sl.home.value.size && ScaledDown(t) && t.agent == sl.agent
  {
    OwnNamesDistinct(n);
  }

  lemma ReconcileStopsOrSwitches(sl: Slice, n: string, ns: string, objs: Resolve.Objects, orders: KeyOrders)
    requires BeforeSwitch(sl, n) && NeedsResize(sl, n, sl.agent.value) && sl.home.Some?
    requires sl.pod.Some? && sl.pod.value.phase.Succeeded?
    ensures var t := ReconcileSlice(sl, n, ns, objs, orders, {}).0;
            && (ScaledDown(sl) ==> t.home.None? && t.homeV2 == sl.homeV2)
            && (!ScaledDown(sl) ==> BeforeSwitch(t, n) && t.homeV2 == sl.homeV2 && t.pod == sl.pod && t.home.Some?
                                    && t.home.value.size == sl.home.value.size && ScaledDown(t) && t.agent == sl.agent)
  {
    ReconcileWorkspace(sl, n, ns, objs, orders, {});
    var (t, outcome) := ReconcileSlice(sl, n, ns, objs, orders, {});
    EffectSwitches(sl, n, t, outcome);
    if !ScaledDown(sl) { EffectKeepsInvariant(sl, n, t, outcome, {}); }
  }

  lemma TwoReconcilesSwitch(sl: Slice, n: string, ns: string, objs: Resolve.Objects, orders: KeyOrders)
    requires BeforeSwitch(sl, n) && NeedsResize(sl, n, sl.agent.value) && sl.home.Some?
    requires sl.pod.Some? && sl.pod.value.phase.Succeeded? && !ScaledDown(sl)
    ensures var rec := Reconciled(objs, orders, {});
            var t := Run(sl, n, ns, [rec, rec]);
            t.home.None? && t.homeV2 == sl.homeV2
  {
    var rec := Reconciled(objs, orders, {});
    ReconcileStopsOrSwitches(sl, n, ns, objs, orders);
    ReconcileStopsOrSwitches(Step(sl, n, ns, rec), n, ns, objs, orders);
    RunOfTwo(sl, n, ns, rec, rec);
  }

  lemma ReconcileStartsCopy(sl: Slice, n: string, ns: string, objs: Resolve.Objects, orders: KeyOrders)
    requires BeforeSwitch(sl, n) && sl.home.Some? && sl.homeV2.Some? && sl.pod.None? && ScaledDown(sl)
    requires NeedsResize(sl, n, sl.agent.value)
    ensures var t := ReconcileSlice(sl, n, ns, objs, orders, {}).0;
            && BeforeSwitch(t, n) && Mounted(t, n) == Some(Home) && t.agent.value.spec == sl.agent.value.spec
            && t.pod == Some(MigrationPod(VolName(n, Home), VolName(n, HomeV2), Pending))
            && t.home.Some? && t.home.value.files == sl.home.value.files && t.home.value.size == sl.home.value.size
            && t.homeV2 == sl.homeV2
  {
    ReconcileWorkspace(sl, n, ns, objs, orders, {});
    var (t, outcome) := ReconcileSlice(sl, n, ns, objs, orders, {});
    EffectStartsAgent(sl, n, t, outcome);
    EffectKeepsInvariant(sl, n, t, outcome, {});
  }

  /** So a write made between the copy and the switch is lost, with every call succeeding. */
  lemma LateWriteIsLost(sl: Slice, n: string, ns: string, objs: Resolve.Objects, orders: KeyOrders,
                        files: map<string, string>)
    requires BeforeSwitch(sl, n) && sl.home.Some? && sl.homeV2.Some? && sl.pod.None? && ScaledDown(sl)
    requires NeedsResize(sl, n, sl.agent.value)
    requires files != sl.homeV2.value.files + sl.home.value.files
    ensures var rec := Reconciled(objs, orders, {});
            var written := Run(sl, n, ns, [rec, PodSucceeded, AgentWrote(files)]);
            var t := Run(written, n, ns, [rec, rec]);
            && written.home.Some? && written.home.value.files == files
            && t.home.None? && t.homeV2.Some? && t.homeV2.value.files != files
  {
    var rec := Reconciled(objs, orders, {});
    ReconcileStartsCopy(sl, n, ns, objs, orders);
    var s1 := Step(sl, n, ns, rec);
    var s3 := Step(Step(s1, n, ns, PodSucceeded), n, ns, AgentWrote(files));
    CopyThenWrite(s1, n, ns, files);
    RunOfThree(sl, n, ns, rec, PodSucceeded, AgentWrote(files));
    TwoReconcilesSwitch(s3, n, ns, objs, orders);
  }

  lemma CopyThenWrite(s1: Slice, n: string, ns: string, files: map<string, string>)
    requires BeforeSwitch(s1, n) && s1.home.Some? && s1.homeV2.Some? && Mounted(s1, n) == Some(Home)
    requires s1.pod == Some(MigrationPod(VolName(n, Home), VolName(n, HomeV2), Pending))
    ensures var t := Step(Step(s1, n, ns, PodSucceeded), n, ns, AgentWrote(files));
            && t == s1.(home := Some(s1.home.value.(files := files)),
                        homeV2 := Some(s1.homeV2.value.(files := s1.homeV2.value.files + s1.home.value.files)),
                        pod := Some(s1.pod.value.(phase := Succeeded)))
  {
    OwnNamesDistinct(n);
    var src := s1.home.value.files;
    assert src == map p | p in src && p in src.Keys :: src[p];
  }

  lemma RunSnoc(sl: Slice, n: string, ns: string, evs: seq<Event>, ev: Event)
    ensures Run(sl, n, ns, evs + [ev]) == Step(Run(sl, n, ns, evs), n, ns, ev)
  {
    assert (evs + [ev])[..|evs + [ev]| - 1] == evs;
  }

  lemma {:induction false} RunConcat(sl: Slice, n: string, ns: string, a: seq<Event>, b: seq<Event>)
    ensures Run(sl, n, ns, a + b) == Run(Run(sl, n, ns, a), n, ns, b)
  {
    if b == [] {
      assert a + b == a;
    } else {
      assert (a + b)[..|a + b| - 1] == a + b[..|b| - 1];
      RunConcat(sl, n, ns, a, b[..|b| - 1]);
    }
  }

  lemma RunOfOne(sl: Slice, n: string, ns: string, ev: Event)
    ensures Run(sl, n, ns, [ev]) == Step(sl, n, ns, ev)
  {
    RunSnoc(sl, n, ns, [], ev);
    assert [] + [ev] == [ev];
  }

  lemma RunOfTwo(sl: Slice, n: string, ns: string, x: Event, y: Event)
    ensures Run(sl, n, ns, [x, y]) == Step(Step(sl, n, ns, x), n, ns, y)
  {
    RunSnoc(sl, n, ns, [], x);
    RunSnoc(sl, n, ns, [x], y);
    assert [] + [x] == [x] && [x] + [y] == [x, y];
  }

  lemma RunOfThree(sl: Slice, n: string, ns: string, x: Event, y: Event, z: Event)
    ensures Run(sl, n, ns, [x, y, z]) == Step(Step(Step(sl, n, ns, x), n, ns, y), n, ns, z)
  {
    RunOfTwo(sl, n, ns, x, y);
    RunSnoc(sl, n, ns, [x, y], z);
    assert [x, y] + [z] == [x, y, z];
  }

  // ------------------------------------------------------------- status names

  lemma EpilogueKeepsStatusOk(s2: Slice, n: string, a: Agent, input: ConfigInput, pvc: string, faults: Faults)
    requires s2.agent == Some(a) && StatusOk(n, a.status) && pvc in {"", VolName(n, Home), VolName(n, HomeV2)}
    ensures var t := Epilogue(s2, n, a, input, pvc, faults).0; t.agent.Some? && StatusOk(n, t.agent.value.status)
  {
  }

  lemma AfterPrologueKeepsStatusOk(s1: Slice, n: string, a: Agent, input: ConfigInput, faults: Faults)
    requires s1.agent == Some(a) && StatusOk(n, a.status)
    ensures var t := AfterPrologue(s1, n, a, input, faults).0; t.agent.Some? && StatusOk(n, t.agent.value.status)
  {
    var (s2, m) := WorkspaceStep(s1, n, a, faults);
    WorkspaceKeepsAgent(s1, n, a, faults);
    if m.Mount? { EpilogueKeepsStatusOk(s2, n, a, input, m.pvc, faults); }
  }

  /** The controller only ever stores names it made itself, whatever fails and whatever the mode. */
  lemma StatusStaysOk(sl: Slice, n: string, ns: string, objs: Resolve.Objects, orders: KeyOrders, faults: Faults)
    requires sl.agent.Some? ==> StatusOk(n, sl.agent.value.status)
    ensures var t := ReconcileSlice(sl, n, ns, objs, orders, faults).0;
            t.agent.Some? ==> StatusOk(n, t.agent.value.status)
  {
    if sl.agent.Some? {
      var a := sl.agent.value;
      var input := Resolve.Resolved(objs, n, ns, a.spec);
      var (s1, ok) := Prologue(sl, OwnerRef(n, a.uid), input, orders, faults);
      PrologueKeepsRest(sl, OwnerRef(n, a.uid), input, orders, faults);
      if ok { AfterPrologueKeepsStatusOk(s1, n, a, input, faults); }
    }
  }
}
