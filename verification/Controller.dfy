/**
 The ClawAgent reconciler as it runs: it updates objects in the store one API call at a time,
 changes the status of the agent object it holds in memory, and keeps the dashboard digest.
 Each method is proved against the function of Reconcile or Workspace that says what it does.
 */
module Controller {
  import opened Prelude
  import opened Api
  import opened Names
  import opened Cluster
  import opened Deployment
  import opened Workspace
  import opened Reconcile
  import Resolve
  import Harness
  import Dashboard
  import Fleet
  import Hermes
  import Text

  datatype Err = NoErr | RequeueNeeded | Failure

  /** An object handed to ensureResource, without the owner reference it is about to get. */
  datatype Child =
    | ConfigMapChild(name: string, data: map<string, Content>)
    | WorkloadChild(name: string, workload: DeploymentSpec)
    | ServiceChild(name: string, service: ServiceSpec)

  /** The agent as Reconcile holds it in memory; resizePVC changes its status. */
  class AgentObject {
    const name: string
    const uid: nat
    const spec: AgentSpec
    var status: AgentStatus

    constructor (name: string, a: Agent)
      ensures this.name == name && uid == a.uid && spec == a.spec && status == a.status
    {
      this.name := name;
      uid := a.uid;
      spec := a.spec;
      status := a.status;
    }

    function Value(): Agent reads this { Agent(uid, spec, status) }

    function Owner(): OwnerRef { OwnerRef(name, uid) }
  }

  /** The tables after ensureResource has dealt with one child. */
  function Ensured(s: Store, owner: OwnerRef, child: Child, fails: bool): (Store, bool) {
    match child
    case ConfigMapChild(name, data) =>
      var (o, ok) := EnsureConfigMap(Lookup(s.configMaps, name), owner, data, fails);
      (s.(configMaps := Assign(s.configMaps, name, o)), ok)
    case WorkloadChild(name, spec) =>
      var (o, ok) := EnsureWorkload(Lookup(s.deployments, name), owner, spec, fails);
      (s.(deployments := Assign(s.deployments, name, o)), ok)
    case ServiceChild(name, spec) =>
      var (o, ok) := EnsureService(Lookup(s.services, name), owner, spec, fails);
      (s.(services := Assign(s.services, name, o)), ok)
  }

  class ClawAgentReconciler {
    var store: Store
    var lastDashboardHash: string
    const hash: Fleet.Data -> string

    constructor (store: Store, hash: Fleet.Data -> string)
      ensures this.store == store && lastDashboardHash == "" && this.hash == hash
    {
      this.store := store;
      this.hash := hash;
      lastDashboardHash := "";
    }

    /** ensureResource: Get, then Create, or Update when the kind's own notion of drift says so. */
    method EnsureResource(owner: AgentObject, child: Child, fails: bool) returns (ok: bool)
      modifies this`store
      ensures (store, ok) == Ensured(old(store), owner.Owner(), child, fails)
    {
      match child {
        case ConfigMapChild(name, data) =>
          var existing := Lookup(store.configMaps, name);
          if existing.None? {
            if fails { AssignLookup(store.configMaps, name); return false; }
            store := store.(configMaps := store.configMaps[name := ConfigMap([owner.Owner()], data, map[])]);
          } else if existing.value.data != data || existing.value.binaryData != map[] {
            if fails { AssignLookup(store.configMaps, name); return false; }
            store := store.(configMaps := store.configMaps[name := existing.value.(data := data, binaryData := map[])]);
          } else {
            AssignLookup(store.configMaps, name);
          }
        case WorkloadChild(name, spec) =>
          var existing := Lookup(store.deployments, name);
          if existing.None? {
            if fails { AssignLookup(store.deployments, name); return false; }
            store := store.(deployments := store.deployments[name := Workload([owner.Owner()], spec, NO_STATUS)]);
          } else if existing.value.spec != spec {
            if fails { AssignLookup(store.deployments, name); return false; }
            store := store.(deployments := store.deployments[name := existing.value.(spec := spec)]);
          } else {
            AssignLookup(store.deployments, name);
          }
        case ServiceChild(name, spec) =>
          var existing := Lookup(store.services, name);
          if existing.None? {
            if fails { AssignLookup(store.services, name); return false; }
            store := store.(services := store.services[name := Service([owner.Owner()], spec)]);
          } else if existing.value.spec.ports != spec.ports || existing.value.spec.selector != spec.selector {
            if fails { AssignLookup(store.services, name); return false; }
            var desired := spec.(clusterIP := existing.value.spec.clusterIP);
            store := store.(services := store.services[name := existing.value.(spec := desired)]);
          } else {
            AssignLookup(store.services, name);
          }
      }
      ok := true;
    }

    /** syncPVCOwnerRefs on a claim that exists. */
    method SyncPVCOwnerRefs(owner: AgentObject, pvcName: string, policy: string, fails: bool) returns (ok: bool)
      requires pvcName in store.pvcs
      modifies this`store
      ensures var p := old(store).pvcs[pvcName];
              var synced := Synced(p, policy, owner.Owner());
              && ok == !(fails && synced != p)
              && store == if ok then old(store).(pvcs := old(store).pvcs[pvcName := synced]) else old(store)
    {
      var pvc := store.pvcs[pvcName];
      var owners := pvc.owners;
      var needsUpdate := false;
      if policy == RECLAIM_DELETE && |owners| == 0 {
        owners := [owner.Owner()];
        needsUpdate := true;
      } else if policy == RECLAIM_RETAIN && |owners| > 0 {
        owners := [];
        needsUpdate := true;
      }
      if needsUpdate {
        if fails { return false; }
        store := store.(pvcs := store.pvcs[pvcName := pvc.(owners := owners)]);
      } else {
        assert store.pvcs == store.pvcs[pvcName := pvc];
      }
      ok := true;
    }

    /** Update of the agent's Deployment to no replicas. */
    method StopWorkload(n: string)
      requires n in store.deployments
      modifies this`store
      ensures var sl := Get(old(store), n);
              && OnlyTouches(old(store), store, n) && sl.deployment.Some?
              && Get(store, n)
                 == sl.(deployment :=
                          Some(sl.deployment.value.(spec := sl.deployment.value.spec.(replicas := Some(0)))))
    {
      var dep := store.deployments[n];
      WriteWorkload(store, n, Some(dep.(spec := dep.spec.(replicas := Some(0)))));
      store := store.(deployments := store.deployments[n := dep.(spec := dep.spec.(replicas := Some(0)))]);
    }

    /** Create of one of the agent's volumes. */
    method CreateVolume(n: string, pvcName: string, ghost v: HomeVolume, pvc: PVC)
      requires pvcName == VolName(n, v)
      modifies this`store
      ensures OnlyTouches(old(store), store, n) && Get(store, n) == Get(old(store), n).WithVol(v, Some(pvc))
    {
      WriteVolume(store, n, v, Some(pvc));
      store := store.(pvcs := store.pvcs[pvcName := pvc]);
    }

    /** Create or delete of the migration pod. */
    method SetPod(n: string, pod: Option<MigrationPod>)
      modifies this`store
      ensures OnlyTouches(old(store), store, n) && Get(store, n) == Get(old(store), n).(pod := pod)
    {
      WritePod(store, n, pod);
      store := store.(pods := Assign(store.pods, n + MIGRATE_POD_SUFFIX, pod));
    }

    /** resizePVC, one re-entrant step. */
    method ResizePVC(owner: AgentObject, pvcName: string, faults: Faults) returns (err: Err)
      requires StatusOk(owner.name, owner.status) && pvcName == ActivePVCName(owner.name, owner.status)
      modifies this`store, owner`status
      ensures var n := owner.name;
              var v := ActiveVolume(n, old(owner.status));
              var (sl, p) := Resize(Get(old(store), n), n, owner.spec.workspace, owner.Owner(), v, faults);
              && OnlyTouches(old(store), store, n) && Get(store, n) == sl
              && Ended(n, old(owner.status), owner.status, p, err)
    {
      var n := owner.name;
      ghost var v := ActiveVolume(n, owner.status);
      ActiveVolumeNamed(n, owner.status);
      OwnNamesDistinct(n);
      PutGet(store, n);
      var newPVCName := n + PVC_RESIZE_SUFFIX;
      var podName := n + MIGRATE_POD_SUFFIX;

      if n in store.deployments && store.deployments[n].spec.replicas != Some(0) {
        if ScaleDown in faults { return Failure; }
        StopWorkload(n);
        return RequeueNeeded;
      }

      if newPVCName !in store.pvcs {
        if CreateResized in faults { return Failure; }
        CreateVolume(n, newPVCName, HomeV2, NewPVC(owner.spec.workspace, owner.Owner()));
        return NoErr;
      }

      if podName !in store.pods {
        if CreatePod in faults { return Failure; }
        SetPod(n, Some(MigrationPod(pvcName, newPVCName, Pending)));
        return NoErr;
      }

      match store.pods[podName].phase {
        case Succeeded =>
          err := FinishResize(owner, pvcName, v, faults);
        case Failed =>
          if DeletePod !in faults { SetPod(n, None); }
          return Failure;
        case _ =>
          return RequeueNeeded;
      }
    }

    /** Step 4 of resizePVC: drop the pod, drop the old claim, point the status at the new one. */
    method FinishResize(owner: AgentObject, pvcName: string, ghost v: HomeVolume, faults: Faults) returns (err: Err)
      requires pvcName == VolName(owner.name, v)
      modifies this`store, owner`status
      ensures var n := owner.name;
              var noPod := if DeletePod in faults then Get(old(store), n) else Get(old(store), n).(pod := None);
              && OnlyTouches(old(store), store, n)
              && Get(store, n) == (if DeleteOld in faults then noPod else noPod.WithVol(v, None))
              && err == (if DeleteOld in faults then Failure else NoErr)
              && owner.status == if DeleteOld in faults then old(owner.status)
                                 else old(owner.status).(workspacePVC := VolName(n, HomeV2))
    {
      var n := owner.name;
      PutGet(store, n);
      if DeletePod !in faults { SetPod(n, None); }
      if DeleteOld in faults { return Failure; }
      ghost var before := store;
      WriteVolume(store, n, v, None);
      store := store.(pvcs := store.pvcs - {pvcName});
      OnlyTouchesTransitive(old(store), before, store, n);
      owner.status := owner.status.(workspacePVC := n + PVC_RESIZE_SUFFIX);
      return NoErr;
    }

    /** ensurePVC. */
    method EnsurePVC(owner: AgentObject, faults: Faults) returns (err: Err)
      requires StatusOk(owner.name, owner.status)
      modifies this`store, owner`status
      ensures var n := owner.name;
              var (sl, p) := Workspace.EnsurePVC(Get(old(store), n), n, old(owner.Value()), faults);
              && OnlyTouches(old(store), store, n) && Get(store, n) == sl
              && Ended(n, old(owner.status), owner.status, p, err)
    {
      var n := owner.name;
      var pvcName := ActivePVCName(n, owner.status);
      ghost var v := ActiveVolume(n, owner.status);
      ActiveVolumeNamed(n, owner.status);
      PutGet(store, n);
      var policy := owner.spec.workspace.ResolvedReclaimPolicy();
      if pvcName !in store.pvcs {
        if CreateHome in faults { return Failure; }
        CreateVolume(n, pvcName, v, NewPVC(owner.spec.workspace, owner.Owner()));
        return NoErr;
      }
      var size := store.pvcs[pvcName].size;
      WriteVolume(store, n, v, Some(Synced(store.pvcs[pvcName], policy, owner.Owner())));
      var ok := SyncPVCOwnerRefs(owner, pvcName, policy, SyncOwners in faults);
      if !ok { return Failure; }
      if owner.spec.workspace.ResolvedStorageSize() > size {
        ghost var synced := store;
        err := ResizePVC(owner, pvcName, faults);
        OnlyTouchesTransitive(old(store), synced, store, n);
      } else {
        err := NoErr;
      }
    }

    /** One round of cleanupOrphanedPVC: a missing claim is fine, an existing one is deleted. */
    method DeleteOrphan(name: string, pvcName: string, ghost v: HomeVolume, fails: bool) returns (ok: bool)
      requires pvcName == VolName(name, v)
      modifies this`store
      ensures ok == !(fails && Get(old(store), name).Vol(v).Some?)
      ensures OnlyTouches(old(store), store, name)
      ensures Get(store, name) == if ok then Get(old(store), name).WithVol(v, None) else Get(old(store), name)
    {
      PutGet(store, name);
      if pvcName in store.pvcs {
        if fails { return false; }
        WriteVolume(store, name, v, None);
        store := store.(pvcs := store.pvcs - {pvcName});
      }
      return true;
    }

    /** cleanupOrphanedPVC: both possible names, original first. */
    method CleanupOrphanedPVC(name: string, faults: Faults) returns (ok: bool)
      modifies this`store
      ensures var (sl, through) := Cleanup(Get(old(store), name), faults);
              OnlyTouches(old(store), store, name) && Get(store, name) == sl && ok == through
    {
      ok := DeleteOrphan(name, name + PVC_SUFFIX, Home, DeleteHome in faults);
      if ok {
        ghost var before := store;
        ok := DeleteOrphan(name, name + PVC_RESIZE_SUFFIX, HomeV2, DeleteHomeV2 in faults);
        OnlyTouchesTransitive(old(store), before, store, name);
      }
    }

    // ------------------------------------------------------- desired ConfigMaps

    method IdentityConfigMap(identity: AgentIdentitySpec) returns (data: map<string, Content>)
      ensures data == IdentityData(identity)
    {
      data := map[];
      if identity.soul != "" { data := data[SOUL_KEY := Content.Text(identity.soul)]; }
      if identity.user != "" { data := data[USER_KEY := Content.Text(identity.user)]; }
      if identity.agentIdentity != "" { data := data[IDENTITY_KEY := Content.Text(identity.agentIdentity)]; }
    }

    /** One key per skill; a repeated name keeps the last content. */
    method SkillsConfigMap(skills: seq<SkillEntry>) returns (data: map<string, Content>)
      ensures data == SkillsData(skills)
    {
      data := map[];
      for i := 0 to |skills|
        invariant data == SkillsData(skills[..i])
      {
        assert skills[..i + 1][..i] == skills[..i];
        data := data[skills[i].name := Content.Text(skills[i].content)];
      }
      assert skills[..|skills|] == skills;
    }

    /** resolveAgentStatus: the conditions are scanned in order. */
    method ResolveAgentStatus(name: string) returns (phase: string, podName: string)
      ensures phase == Phase(Lookup(store.deployments, name))
      ensures podName == PodName(name, Lookup(store.deployments, name))
    {
      if name !in store.deployments { return "Pending", ""; }
      var status := store.deployments[name].status;
      for i := 0 to |status.conditions|
        invariant !Available(status.conditions[..i])
      {
        var c := status.conditions[i];
        if c.kind == "Available" && c.status == "True" {
          assert Available(status.conditions);
          return "Running", name + " (replicas: " + Text.Decimal(status.ready) + ")";
        }
      }
      assert status.conditions[..|status.conditions|] == status.conditions;
      if status.unavailable > 0 { return "Progressing", ""; }
      return "Pending", "";
    }

    // ------------------------------------------------------------ the whole call

    /** ensureResource on each of the three ConfigMaps, seen through the slice. */
    method ApplyIdentity(owner: AgentObject, data: map<string, Content>, fails: bool) returns (ok: bool)
      modifies this`store
      ensures var sl := Get(old(store), owner.name);
              var (o, through) := EnsureConfigMap(sl.identity, owner.Owner(), data, fails);
              OnlyTouches(old(store), store, owner.name) && Get(store, owner.name) == sl.(identity := o)
                && ok == through
    {
      WriteIdentity(store, owner.name, EnsureConfigMap(Get(store, owner.name).identity, owner.Owner(), data, fails).0);
      ok := EnsureResource(owner, ConfigMapChild(owner.name + IDENTITY_SUFFIX, data), fails);
    }

    method ApplySkills(owner: AgentObject, data: map<string, Content>, fails: bool) returns (ok: bool)
      modifies this`store
      ensures var sl := Get(old(store), owner.name);
              var (o, through) := EnsureConfigMap(sl.skills, owner.Owner(), data, fails);
              OnlyTouches(old(store), store, owner.name) && Get(store, owner.name) == sl.(skills := o) && ok == through
    {
      WriteSkills(store, owner.name, EnsureConfigMap(Get(store, owner.name).skills, owner.Owner(), data, fails).0);
      ok := EnsureResource(owner, ConfigMapChild(owner.name + SKILLS_SUFFIX, data), fails);
    }

    method ApplyConfig(owner: AgentObject, h: Harness.Kind, data: map<string, Content>, fails: bool) returns (ok: bool)
      modifies this`store
      ensures var sl := Get(old(store), owner.name);
              var (o, through) := EnsureConfigMap(sl.Config(h), owner.Owner(), data, fails);
              OnlyTouches(old(store), store, owner.name) && Get(store, owner.name) == sl.WithConfig(h, o)
                && ok == through
    {
      WriteConfig(store, owner.name, h,
        EnsureConfigMap(Get(store, owner.name).Config(h), owner.Owner(), data, fails).0);
      ok := EnsureResource(owner, ConfigMapChild(owner.name + Harness.ConfigMapSuffix(h), data), fails);
    }

    /** The harness's configuration, generated in an order of its own choosing. */
    method EnsureHarnessConfig(owner: AgentObject, input: ConfigInput, fails: bool)
      returns (ok: bool, ghost orders: KeyOrders)
      requires input.name == owner.name
      modifies this`store
      ensures ValidOrders(orders, input.channels)
      ensures var sl, h := Get(old(store), owner.name), HarnessOf(input);
              var (o, through) := EnsureConfigMap(sl.Config(h), owner.Owner(), ConfigData(input, orders), fails);
              OnlyTouches(old(store), store, owner.name) && Get(store, owner.name) == sl.WithConfig(h, o)
                && ok == through
    {
      var h := HarnessOf(input);
      var doc := Harness.BuildConfig(h, input);
      orders :| ValidOrders(orders, input.channels) && doc == Harness.Config(h, input, orders);
      ok := ApplyConfig(owner, h, ConfigDataFor(h, input, doc), fails);
    }

    method EnsureConfigMaps(owner: AgentObject, input: ConfigInput, faults: Faults)
      returns (ok: bool, ghost orders: KeyOrders)
      requires input.name == owner.name
      modifies this`store
      ensures ValidOrders(orders, input.channels)
      ensures var (sl, through) := Prologue(Get(old(store), owner.name), owner.Owner(), input, orders, faults);
              OnlyTouches(old(store), store, owner.name) && Get(store, owner.name) == sl && ok == through
    {
      ghost var sl := Get(store, owner.name);
      orders := Hermes.SomeOrders(input.channels);
      PrologueStops(sl, owner.Owner(), input, orders, faults);
      var identity := IdentityConfigMap(input.spec.identity);
      ok := ApplyIdentity(owner, identity, PutIdentity in faults);
      if !ok { return; }
      ghost var s1 := store;
      var skills := SkillsConfigMap(input.skills);
      ok := ApplySkills(owner, skills, PutSkills in faults);
      OnlyTouchesTransitive(old(store), s1, store, owner.name);
      if !ok { return; }
      ghost var s2 := store;
      ok, orders := EnsureHarnessConfig(owner, input, PutConfig in faults);
      PrologueEnds(sl, owner.Owner(), input, orders, faults);
      OnlyTouchesTransitive(old(store), s2, store, owner.name);
    }

    /** The status write at the end, skipped when nothing changed. */
    method WriteStatus(owner: AgentObject, oldStatus: AgentStatus, activePVC: string, fails: bool) returns (ok: bool)
      requires Get(store, owner.name).agent == Some(Agent(owner.uid, owner.spec, oldStatus))
      modifies this`store, owner`status
      ensures var n := owner.name;
              var sl := Get(old(store), n);
              var status := AgentStatus(Phase(sl.deployment), PodName(n, sl.deployment), activePVC);
              && ok == !(status != oldStatus && fails)
              && OnlyTouches(old(store), store, n)
              && Get(store, n) == if ok then sl.(agent := Some(Agent(owner.uid, owner.spec, status))) else sl
    {
      var n := owner.name;
      PutGet(store, n);
      var phase, podName := ResolveAgentStatus(n);
      owner.status := AgentStatus(phase, podName, activePVC);
      if phase != oldStatus.phase || podName != oldStatus.podName || activePVC != oldStatus.workspacePVC {
        if fails { return false; }
        WriteAgent(store, n, Some(owner.Value()));
        store := store.(agents := store.agents[n := owner.Value()]);
      }
      return true;
    }

    /** ensureResource on the agent's Deployment, seen through the slice. */
    method ApplyDeployment(owner: AgentObject, spec: DeploymentSpec, fails: bool) returns (ok: bool)
      modifies this`store
      ensures var sl := Get(old(store), owner.name);
              var (o, through) := EnsureWorkload(sl.deployment, owner.Owner(), spec, fails);
              OnlyTouches(old(store), store, owner.name) && Get(store, owner.name) == sl.(deployment := o)
                && ok == through
    {
      WriteWorkload(store, owner.name, EnsureWorkload(Get(store, owner.name).deployment, owner.Owner(), spec, fails).0);
      ok := EnsureResource(owner, WorkloadChild(owner.name, spec), fails);
    }

    method ApplyService(owner: AgentObject, spec: ServiceSpec, fails: bool) returns (ok: bool)
      modifies this`store
      ensures var sl := Get(old(store), owner.name);
              var (o, through) := EnsureService(sl.service, owner.Owner(), spec, fails);
              OnlyTouches(old(store), store, owner.name) && Get(store, owner.name) == sl.(service := o) && ok == through
    {
      WriteService(store, owner.name, EnsureService(Get(store, owner.name).service, owner.Owner(), spec, fails).0);
      ok := EnsureResource(owner, ServiceChild(owner.name, spec), fails);
    }

    /** Deployment, Service and status. */
    method Finish(owner: AgentObject, input: ConfigInput, oldStatus: AgentStatus, activePVC: string, faults: Faults)
      returns (outcome: Outcome)
      requires input.name == owner.name
      requires Get(store, owner.name).agent == Some(Agent(owner.uid, owner.spec, oldStatus))
      modifies this`store, owner`status
      ensures var n := owner.name;
              var a := Agent(owner.uid, owner.spec, oldStatus);
              var (sl, o) := Epilogue(Get(old(store), n), n, a, input, activePVC, faults);
              OnlyTouches(old(store), store, n) && Get(store, n) == sl && outcome == o
    {
      var n := owner.name;
      var dep := AgentDeployment(input, activePVC);
      var ok := ApplyDeployment(owner, dep, PutDeployment in faults);
      if !ok { return Error; }
      ghost var s1 := store;
      ok := ApplyService(owner, ServiceFor(input), PutService in faults);
      OnlyTouchesTransitive(old(store), s1, store, n);
      if !ok { return Error; }
      ghost var s2 := store;
      ok := WriteStatus(owner, oldStatus, activePVC, PutStatus in faults);
      OnlyTouchesTransitive(old(store), s2, store, n);
      return if ok then Done else Error;
    }

    /** The workspace storage branch of Reconcile. */
    method EnsureWorkspace(owner: AgentObject, faults: Faults) returns (err: Err, activePVC: string)
      requires StatusOk(owner.name, owner.status)
      modifies this`store, owner`status
      ensures var n := owner.name;
              var (sl, m) := WorkspaceStep(Get(old(store), n), n, old(owner.Value()), faults);
              && OnlyTouches(old(store), store, n) && Get(store, n) == sl
              && m == match err case NoErr => Mount(activePVC) case RequeueNeeded => Later case Failure => Broken
    {
      activePVC := "";
      if owner.spec.workspace.IsPersistent() {
        err := EnsurePVC(owner, faults);
        if err == NoErr { activePVC := ActivePVCName(owner.name, owner.status); }
      } else {
        var ok := CleanupOrphanedPVC(owner.name, faults);
        err := if ok then NoErr else Failure;
      }
    }

    /** Everything after the ConfigMaps: storage, then Deployment, Service and status. */
    method DeployAgent(owner: AgentObject, input: ConfigInput, faults: Faults) returns (outcome: Outcome)
      requires StatusOk(owner.name, owner.status) && input.name == owner.name
      requires Get(store, owner.name).agent == Some(owner.Value())
      modifies this`store, owner`status
      ensures var n := owner.name;
              var (sl, o) := AfterPrologue(Get(old(store), n), n, old(owner.Value()), input, faults);
              OnlyTouches(old(store), store, n) && Get(store, n) == sl && outcome == o
    {
      var n, oldStatus := owner.name, owner.status;
      var err, activePVC := EnsureWorkspace(owner, faults);
      if err == RequeueNeeded { return RequeueAfter(5); }
      if err == Failure { return Error; }
      ghost var s1 := store;
      WorkspaceKeepsAgent(Get(old(store), n), n, old(owner.Value()), faults);
      outcome := Finish(owner, input, oldStatus, activePVC, faults);
      OnlyTouchesTransitive(old(store), s1, store, n);
    }

    /** Reconcile, up to the dashboard: the store afterwards is the one ReconcileStore describes. */
    method ReconcileAgent(n: string, faults: Faults) returns (outcome: Outcome, ghost orders: KeyOrders)
      requires n in store.agents ==> StatusOk(n, store.agents[n].status)
      modifies this`store
      ensures n in old(store).agents ==>
                ValidOrders(orders, Resolve.Resolved(old(store).objects, n, old(store).ns,
                  old(store).agents[n].spec).channels)
      ensures (store, outcome) == ReconcileStore(old(store), n, orders, faults)
    {
      PutGet(store, n);
      if n !in store.agents { orders := []; return Done, orders; }
      var owner := new AgentObject(n, store.agents[n]);
      var input := Resolve.ResolveInput(store.objects, n, store.ns, owner.spec);
      var ok;
      ok, orders := EnsureConfigMaps(owner, input, faults);
      if !ok { return Error, orders; }
      ghost var s1 := store;
      PrologueKeepsRest(Get(old(store), n), owner.Owner(), input, orders, faults);
      outcome := DeployAgent(owner, input, faults);
      OnlyTouchesTransitive(old(store), s1, store, n);
    }

    // ------------------------------------------------------------- the dashboard

    /** Lists the agents, renders the page, and writes it under the mutex unless the digest is unchanged. */
    method UpdateFleetDashboard(listed: seq<string>, attempt: Dashboard.Attempt) returns (ok: bool)
      modifies this`store, this`lastDashboardHash
      ensures (store, lastDashboardHash) == Fleet.Updated(hash, old(store), old(lastDashboardHash), listed, attempt)
    {
      var rows: seq<Row> := [];
      for i := 0 to |listed|
        invariant rows == Fleet.Rows(store, listed[..i])
      {
        assert listed[..i + 1][..i] == listed[..i];
        if listed[i] in store.agents {
          rows := rows + [Fleet.RowOf(store.objects, listed[i], store.agents[listed[i]])];
        }
      }
      assert listed[..|listed|] == listed;
      var data := map[Fleet.PAGE_KEY := Page(rows)];
      var digest := hash(data);
      if digest == lastDashboardHash { return true; }
      if attempt.getFails { return false; }
      if DASHBOARD_NAME !in store.configMaps {
        lastDashboardHash := digest;
        if attempt.createFails { return false; }
        store := store.(configMaps := store.configMaps[DASHBOARD_NAME := ConfigMap([], data, map[])]);
        return true;
      }
      if attempt.updateFails { return false; }
      var existing := store.configMaps[DASHBOARD_NAME];
      store := store.(configMaps := store.configMaps[DASHBOARD_NAME := existing.(data := data)]);
      lastDashboardHash := digest;
      return true;
    }

    /** Reconcile: the agent's slice first; the dashboard only after a complete pass, and never fatal. */
    method Reconcile(n: string, faults: Faults, listed: seq<string>, attempt: Dashboard.Attempt)
      returns (outcome: Outcome, ghost orders: KeyOrders)
      requires n in store.agents ==> StatusOk(n, store.agents[n].status)
      modifies this`store, this`lastDashboardHash
      ensures n in old(store).agents ==>
                ValidOrders(orders, Resolve.Resolved(old(store).objects, n, old(store).ns,
                  old(store).agents[n].spec).channels)
      ensures (store, lastDashboardHash, outcome)
              == FullReconcile(hash, old(store), old(lastDashboardHash), n, orders, faults, listed, attempt)
    {
      var known := n in store.agents;
      outcome, orders := ReconcileAgent(n, faults);
      if known && outcome == Done {
        var _ := UpdateFleetDashboard(listed, attempt);
      }
    }
  }

  /** One Reconcile call on store and digest. */
  function FullReconcile(hash: Fleet.Data -> string, s: Store, last: string, n: string, orders: KeyOrders,
                         faults: Faults, listed: seq<string>, attempt: Dashboard.Attempt): (Store, string, Outcome) {
    var (s', outcome) := ReconcileStore(s, n, orders, faults);
    if n in s.agents && outcome == Done then
      var (s'', last') := Fleet.Updated(hash, s', last, listed, attempt);
      (s'', last', outcome)
    else (s', last, outcome)
  }

  /** How a result of ensurePVC or resizePVC shows in its error value and in the agent's status. */
  ghost predicate Ended(n: string, before: AgentStatus, after: AgentStatus, p: Progress, err: Err) {
    match p
    case Proceed(v) => err == NoErr && StatusOk(n, after) && ActivePVCName(n, after) == VolName(n, v)
                       && after == before.(workspacePVC := after.workspacePVC)
    case Requeue => err == RequeueNeeded && after == before
    case Abort => err == Failure && after == before
  }
}
