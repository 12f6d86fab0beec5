/**
 What becomes of an agent's home volume when the agent is deleted: garbage collection by owner
 references, the reclaim policy, and the promise that re-creating the agent under the same
 name finds its files again.
 */
module Reclaim {
  import opened Prelude
  import opened Api
  import opened Cluster
  import opened Workspace
  import opened Reconcile
  import opened Collector
  import opened Runs
  import Resolve

  /** The user deletes the agent and the collector runs. */
  function Deleted(sl: Slice, live: set<nat>): Slice { Collected(sl.(agent := None), live) }

  predicate OwnersFine(p: Option<PVC>, uid: nat, live: set<nat>) {
    p.Some? ==> forall i :: 0 <= i < |p.value.owners| ==> p.value.owners[i].uid == uid || p.value.owners[i].uid !in live
  }

  /** No volume of the agent is owned by some other live object. */
  predicate OwnedByNoOther(sl: Slice, uid: nat, live: set<nat>) {
    OwnersFine(sl.home, uid, live) && OwnersFine(sl.homeV2, uid, live)
  }

  lemma EnsurePVCKeepsOwners(sl: Slice, n: string, a: Agent, faults: Faults, live: set<nat>)
    requires OwnedByNoOther(sl, a.uid, live)
    ensures OwnedByNoOther(EnsurePVC(sl, n, a, faults).0, a.uid, live)
  {
  }

  lemma AfterPrologueKeepsOwners(s1: Slice, n: string, a: Agent, input: ConfigInput, faults: Faults, live: set<nat>)
    requires s1.agent == Some(a) && OwnedByNoOther(s1, a.uid, live)
    ensures var t := AfterPrologue(s1, n, a, input, faults).0;
            t.agent.Some? && t.agent.value.uid == a.uid && OwnedByNoOther(t, a.uid, live)
  {
    var (s2, m) := WorkspaceStep(s1, n, a, faults);
    EnsurePVCKeepsOwners(s1, n, a, faults, live);
    WorkspaceKeepsAgent(s1, n, a, faults);
    if m.Mount? { EpilogueKeepsVolumes(s2, n, a, input, m.pvc, faults); }
  }

  /** No reconcile, in any mode and with any failures, puts another owner on a volume. */
  lemma ReconcileKeepsOwners(sl: Slice, n: string, ns: string, objs: Resolve.Objects, orders: KeyOrders, faults: Faults,
                             live: set<nat>)
    requires sl.agent.Some? && OwnedByNoOther(sl, sl.agent.value.uid, live)
    ensures var t := ReconcileSlice(sl, n, ns, objs, orders, faults).0;
            t.agent.Some? && t.agent.value.uid == sl.agent.value.uid && OwnedByNoOther(t, sl.agent.value.uid, live)
  {
    var a := sl.agent.value;
    var input := Resolve.Resolved(objs, n, ns, a.spec);
    var (s1, ok) := Prologue(sl, OwnerRef(n, a.uid), input, orders, faults);
    PrologueKeepsRest(sl, OwnerRef(n, a.uid), input, orders, faults);
    if ok { AfterPrologueKeepsOwners(s1, n, a, input, faults, live); }
  }

  lemma StepKeepsOwners(sl: Slice, n: string, ns: string, ev: Event, live: set<nat>)
    requires sl.agent.Some? && OwnedByNoOther(sl, sl.agent.value.uid, live)
    ensures var t := Step(sl, n, ns, ev);
            t.agent.Some? && t.agent.value.uid == sl.agent.value.uid && OwnedByNoOther(t, sl.agent.value.uid, live)
  {
    match ev
    case Reconciled(objs, orders, faults) => ReconcileKeepsOwners(sl, n, ns, objs, orders, faults, live);
    case _ =>
  }

  /** Over every run, switches, ephemeral phases and failures included. */
  lemma {:induction false} RunKeepsOwners(sl: Slice, n: string, ns: string, evs: seq<Event>, live: set<nat>)
    requires sl.agent.Some? && OwnedByNoOther(sl, sl.agent.value.uid, live)
    ensures var t := Run(sl, n, ns, evs);
            t.agent.Some? && t.agent.value.uid == sl.agent.value.uid && OwnedByNoOther(t, sl.agent.value.uid, live)
  {
    if evs != [] {
      RunKeepsOwners(sl, n, ns, evs[..|evs| - 1], live);
      StepKeepsOwners(Run(sl, n, ns, evs[..|evs| - 1]), n, ns, evs[|evs| - 1], live);
    }
  }

  /** The last pass is made by a persistent agent with an admitted policy, and no resize is due. */
  predicate PlainPass(sl: Slice, n: string) {
    && sl.agent.Some? && sl.agent.value.spec.workspace.mode == "persistent"
    && sl.agent.value.spec.workspace.reclaimPolicy in {"", "retain", "delete"} && !NeedsResize(sl, n, sl.agent.value)
  }

  /** After the pass from `sl` to `t`: deletion takes the active volume iff the policy says so. */
  predicate PolicyDecides(sl: Slice, n: string, t: Slice, live: set<nat>)
    requires sl.agent.Some?
  {
    var v := ActiveVolume(n, sl.agent.value.status);
    var gone := Deleted(t, live).Vol(v);
    && t.Vol(v).Some?
    && (gone.None? <==> sl.agent.value.spec.workspace.reclaimPolicy == "delete")
    && (gone.Some? ==> gone == t.Vol(v))
    && (sl.Vol(v).Some? ==> t.Vol(v).value.files == sl.Vol(v).value.files)
  }

  lemma PassDecides(sl: Slice, n: string, ns: string, objs: Resolve.Objects, orders: KeyOrders, live: set<nat>)
    requires PlainPass(sl, n) && sl.agent.value.uid !in live && OwnedByNoOther(sl, sl.agent.value.uid, live)
    ensures PolicyDecides(sl, n, ReconcileSlice(sl, n, ns, objs, orders, {}).0, live)
  {
    var a := sl.agent.value;
    ReclaimPolicyApplied(sl, n, a);
    EnsurePVCKeepsOwners(sl, n, a, {}, live);
    ReconcileWorkspace(sl, n, ns, objs, orders, {});
    var (t, outcome) := ReconcileSlice(sl, n, ns, objs, orders, {});
    PolicyEffect(sl, n, t, outcome, live);
  }

  /**
   The reclaim policy decides, over any run: whatever the agent's policies, modes and resizes
   were before, when the run ends with an error-free pass that had no resize to make, deleting
   the agent and collecting removes the active volume iff the policy of that pass is delete,
   and otherwise leaves it with its files.
   */
  lemma PolicyDecidesDeletion(start: Slice, n: string, ns: string, evs: seq<Event>, objs: Resolve.Objects,
                              orders: KeyOrders, live: set<nat>)
    requires start.agent.Some? && start.agent.value.uid !in live && OwnedByNoOther(start, start.agent.value.uid, live)
    ensures var sl := Run(start, n, ns, evs);
            PlainPass(sl, n) ==> PolicyDecides(sl, n, ReconcileSlice(sl, n, ns, objs, orders, {}).0, live)
  {
    RunKeepsOwners(start, n, ns, evs, live);
    var sl := Run(start, n, ns, evs);
    if PlainPass(sl, n) { PassDecides(sl, n, ns, objs, orders, live); }
  }

  lemma PolicyEffect(sl: Slice, n: string, t: Slice, outcome: Outcome, live: set<nat>)
    requires sl.agent.Some? && Effect(sl, n, t, outcome, {})
    requires var (w, p) := EnsurePVC(sl, n, sl.agent.value, {});
             var v := ActiveVolume(n, sl.agent.value.status);
             w.Vol(v).Some? && OwnedByNoOther(w, sl.agent.value.uid, live)
    requires sl.agent.value.uid !in live
    ensures var (w, p) := EnsurePVC(sl, n, sl.agent.value, {});
            var v := ActiveVolume(n, sl.agent.value.status);
            && t.Vol(v) == w.Vol(v)
            && Deleted(t, live).Vol(v) == (if w.Vol(v).value.owners != [] then None else w.Vol(v))
  {
  }

  // -------------------------------------------------------- delete and re-create

  /** A new agent of the same name, with an empty status. */
  predicate Fresh(a: Agent) {
    a.spec.workspace.IsPersistent() && a.status.workspacePVC == ""
  }

  /** The volume the first reconcile of the new agent would delete at once. */
  predicate LeftoverMigration(sl: Slice, n: string, a: Agent) {
    && NeedsResize(sl, n, a) && ScaledDown(sl) && sl.homeV2.Some?
    && sl.pod.Some? && sl.pod.value.phase.Succeeded?
  }

  /**
   A re-created agent takes up `name-home`, and only that volume: the files found under that
   name survive its first error-free reconcile iff no finished migration was left behind for
   a larger request, and without a resize the agent is mounted on them right away.
   */
  lemma RecreateAttaches(c: Slice, n: string, ns: string, objs: Resolve.Objects, orders: KeyOrders, a: Agent)
    requires Fresh(a) && c.home.Some?
    ensures var (t, outcome) := ReconcileSlice(c.(agent := Some(a)), n, ns, objs, orders, {});
            && (t.home.Some? <==> !LeftoverMigration(c, n, a))
            && (t.home.Some? ==> t.home.value.files == c.home.value.files)
            && (a.spec.workspace.ResolvedStorageSize() <= c.home.value.size ==>
                  outcome == Done && Mounted(t, n) == Some(Home))
  {
    var sl := c.(agent := Some(a));
    ReconcileWorkspace(sl, n, ns, objs, orders, {});
    var (t, outcome) := ReconcileSlice(sl, n, ns, objs, orders, {});
    AttachEffect(sl, n, a, t, outcome);
  }

  lemma AttachEffect(sl: Slice, n: string, a: Agent, t: Slice, outcome: Outcome)
    requires sl.agent == Some(a) && Fresh(a) && sl.home.Some? && Effect(sl, n, t, outcome, {})
    ensures t.home.Some? <==> !LeftoverMigration(sl, n, a)
    ensures t.home.Some? ==> t.home.value.files == sl.home.value.files
    ensures a.spec.workspace.ResolvedStorageSize() <= sl.home.value.size ==>
              outcome == Done && Mounted(t, n) == Some(Home)
  {
    OwnNamesDistinct(n);
    assert VolName(n, HomeV2) != "" by { assert |VolName(n, HomeV2)| > 0; }
  }

  /** Under retain the owner sync comes before the resize, so the original volume ends without owners. */
  lemma RetainFreesHome(sl: Slice, n: string, a: Agent)
    requires a.spec.workspace.ResolvedReclaimPolicy() == RECLAIM_RETAIN && ActiveVolume(n, a.status) == Home
    ensures var w := EnsurePVC(sl, n, a, {}).0;
            w.home.Some? ==> w.home.value.owners == [] && (sl.home.Some? ==> w.home.value.files == sl.home.value.files)
  {
    assert RECLAIM_DELETE != RECLAIM_RETAIN by { assert RECLAIM_DELETE[0] != RECLAIM_RETAIN[0]; }
  }

  lemma RetainEffect(sl: Slice, n: string, t: Slice, outcome: Outcome)
    requires sl.agent.Some? && sl.agent.value.spec.workspace.ResolvedReclaimPolicy() == RECLAIM_RETAIN
    requires ActiveVolume(n, sl.agent.value.status) == Home && Effect(sl, n, t, outcome, {}) && t.home.Some?
    ensures t.home.value.owners == [] && (sl.home.Some? ==> t.home.value.files == sl.home.value.files)
  {
    RetainFreesHome(sl, n, sl.agent.value);
  }

  /**
   Retain round trip: when the last error-free pass before deletion ran under retain and no
   resize has completed, even if one was under way, deleting the agent and collecting leaves the
   original volume and its files. The re-created agent finds them iff no finished migration for
   its own request was left behind, and is mounted on them at once when its request fits.
   */
  lemma RetainRoundTrip(sl: Slice, n: string, ns: string, objs: Resolve.Objects, orders: KeyOrders, live: set<nat>,
                        a': Agent, objs': Resolve.Objects, orders': KeyOrders)
    requires sl.agent.Some? && sl.agent.value.spec.workspace.mode == "persistent"
    requires sl.agent.value.spec.workspace.reclaimPolicy in {"", "retain"}
    requires ActiveVolume(n, sl.agent.value.status) == Home
    requires ReconcileSlice(sl, n, ns, objs, orders, {}).0.home.Some?
    requires Fresh(a')
    ensures var t := ReconcileSlice(sl, n, ns, objs, orders, {}).0;
            var d := Deleted(t, live);
            var (u, outcome) := ReconcileSlice(d.(agent := Some(a')), n, ns, objs', orders', {});
            && (sl.home.Some? ==> t.home.value.files == sl.home.value.files)
            && d.home == t.home
            && (u.home.Some? <==> !LeftoverMigration(d, n, a'))
            && (u.home.Some? ==> u.home.value.files == t.home.value.files)
            && (a'.spec.workspace.ResolvedStorageSize() <= t.home.value.size ==>
                  outcome == Done && u.home.Some? && Mounted(u, n) == Some(Home))
  {
    ReconcileWorkspace(sl, n, ns, objs, orders, {});
    var (t, outcome) := ReconcileSlice(sl, n, ns, objs, orders, {});
    RetainEffect(sl, n, t, outcome);
    RecreateAttaches(Deleted(t, live), n, ns, objs', orders', a');
  }

  /** The status names the original volume, by name or by default. */
  predicate NamesOriginal(n: string, a: Agent) {
    a.spec.workspace.IsPersistent() && StatusOk(n, a.status) && ActiveVolume(n, a.status) == Home
  }

  /**
   Once the original volume is gone the name is all that counts: an agent re-created after a
   completed resize, or one whose new status was never stored, starts on a fresh empty volume
   while its files stay behind on the resized one.
   */
  lemma SwitchedVolumeForgotten(c: Slice, n: string, ns: string, objs: Resolve.Objects, orders: KeyOrders, a: Agent)
    requires NamesOriginal(n, a) && c.home.None? && c.homeV2.Some?
    ensures var (t, outcome) := ReconcileSlice(c.(agent := Some(a)), n, ns, objs, orders, {});
            && outcome == Done && Mounted(t, n) == Some(Home)
            && t.home.Some? && t.home.value.files == map[] && t.homeV2 == c.homeV2
  {
    var sl := c.(agent := Some(a));
    ReconcileWorkspace(sl, n, ns, objs, orders, {});
    var (t, outcome) := ReconcileSlice(sl, n, ns, objs, orders, {});
    ForgottenEffect(sl, n, a, t, outcome);
  }

  lemma ForgottenEffect(sl: Slice, n: string, a: Agent, t: Slice, outcome: Outcome)
    requires sl.agent == Some(a) && NamesOriginal(n, a) && sl.home.None? && Effect(sl, n, t, outcome, {})
    ensures outcome == Done && Mounted(t, n) == Some(Home)
    ensures t.home.Some? && t.home.value.files == map[] && t.homeV2 == sl.homeV2
  {
    OwnNamesDistinct(n);
  }

  // ------------------------------------------------------------- owners that are gone

  /** The living agent has lost its active volume iff the policy is delete and the owners it came with are all gone. */
  predicate LostToCollector(sl: Slice, n: string, others: set<nat>, t: Slice)
    requires sl.agent.Some? && sl.Vol(ActiveVolume(n, sl.agent.value.status)).Some?
  {
    var v := ActiveVolume(n, sl.agent.value.status);
    && t.agent.Some?
    && (t.Vol(v).None? <==> sl.agent.value.spec.workspace.reclaimPolicy == "delete"
                            && Collectable(sl.Vol(v).value.owners, Live(sl, others)))
  }

  /**
   The owner sync only looks at whether there are owners at all. So after an error-free pass
   without a resize, the collector takes a living agent's active volume iff the policy is delete
   and the owners the volume came with are all gone.
   */
  lemma StaleOwnerExactly(sl: Slice, n: string, ns: string, objs: Resolve.Objects, orders: KeyOrders, others: set<nat>)
    requires PlainPass(sl, n) && sl.Vol(ActiveVolume(n, sl.agent.value.status)).Some?
    ensures LostToCollector(sl, n, others, Collected(ReconcileSlice(sl, n, ns, objs, orders, {}).0, others))
  {
    ReconcileWorkspace(sl, n, ns, objs, orders, {});
    var (t, outcome) := ReconcileSlice(sl, n, ns, objs, orders, {});
    StaleEffect(sl, n, t, outcome, others);
  }

  lemma StaleEffect(sl: Slice, n: string, t: Slice, outcome: Outcome, others: set<nat>)
    requires PlainPass(sl, n) && sl.Vol(ActiveVolume(n, sl.agent.value.status)).Some?
    requires Effect(sl, n, t, outcome, {})
    ensures LostToCollector(sl, n, others, Collected(t, others))
  {
    var a := sl.agent.value;
    ReclaimPolicyApplied(sl, n, a);
    assert RECLAIM_DELETE != RECLAIM_RETAIN by { assert RECLAIM_DELETE[0] != RECLAIM_RETAIN[0]; }
    assert !Collectable([OwnerRef(n, a.uid)], Live(sl, others)) by {
      assert [OwnerRef(n, a.uid)][0].uid in Live(sl, others);
    }
  }

  /** For example, a volume that still carries only the reference of an earlier agent of that name. */
  lemma EarlierOwnerLosesVolume(sl: Slice, n: string, ns: string, objs: Resolve.Objects, orders: KeyOrders,
                                earlier: OwnerRef)
    requires PlainPass(sl, n) && sl.Vol(ActiveVolume(n, sl.agent.value.status)).Some?
    requires sl.agent.value.spec.workspace.reclaimPolicy == RECLAIM_DELETE && earlier.uid != sl.agent.value.uid
    requires sl.Vol(ActiveVolume(n, sl.agent.value.status)).value.owners == [earlier]
    ensures var t := Collected(ReconcileSlice(sl, n, ns, objs, orders, {}).0, {});
            t.agent.Some? && t.Vol(ActiveVolume(n, sl.agent.value.status)).None?
  {
    StaleOwnerExactly(sl, n, ns, objs, orders, {});
  }

  // ------------------------------------------------------- the children without a policy

  /** An agent none of whose children have been made yet. */
  predicate Childless(sl: Slice) {
    && sl.identity.None? && sl.skills.None? && sl.openclaw.None? && sl.observeclaw.None? && sl.hermes.None?
    && sl.deployment.None? && sl.service.None?
  }

  lemma CreatedOwned(n: string, uid: nat, live: set<nat>)
    requires uid !in live
    ensures Collectable([OwnerRef(n, uid)], live)
  {
  }

  lemma PrologueOwns(sl: Slice, n: string, uid: nat, input: ConfigInput, orders: KeyOrders, faults: Faults,
                     live: set<nat>)
    requires Childless(sl) && uid !in live
    ensures var t := Prologue(sl, OwnerRef(n, uid), input, orders, faults).0;
            && KeepConfigMap(t.identity, live).None? && KeepConfigMap(t.skills, live).None?
            && KeepConfigMap(t.openclaw, live).None? && KeepConfigMap(t.observeclaw, live).None?
            && KeepConfigMap(t.hermes, live).None?
  {
    CreatedOwned(n, uid, live);
    PrologueStops(sl, OwnerRef(n, uid), input, orders, faults);
    PrologueEnds(sl, OwnerRef(n, uid), input, orders, faults);
  }

  lemma EpilogueOwns(s2: Slice, n: string, a: Agent, input: ConfigInput, pvc: string, faults: Faults, live: set<nat>)
    requires s2.deployment.None? && s2.service.None? && a.uid !in live
    ensures var t := Epilogue(s2, n, a, input, pvc, faults).0;
            && KeepWorkload(t.deployment, live).None? && KeepService(t.service, live).None?
            && t.identity == s2.identity && t.skills == s2.skills && t.openclaw == s2.openclaw
            && t.observeclaw == s2.observeclaw && t.hermes == s2.hermes
  {
    CreatedOwned(n, a.uid, live);
  }

  lemma AfterPrologueOwns(s1: Slice, n: string, a: Agent, input: ConfigInput, faults: Faults, live: set<nat>)
    requires s1.deployment.None? && s1.service.None? && a.uid !in live
    ensures var t := AfterPrologue(s1, n, a, input, faults).0;
            && KeepWorkload(t.deployment, live).None? && KeepService(t.service, live).None?
            && t.identity == s1.identity && t.skills == s1.skills && t.openclaw == s1.openclaw
            && t.observeclaw == s1.observeclaw && t.hermes == s1.hermes
  {
    var (s2, m) := WorkspaceStep(s1, n, a, faults);
    WorkspaceKeepsAgent(s1, n, a, faults);
    NoDeploymentMade(s1, n, a, faults);
    if m.Mount? { EpilogueOwns(s2, n, a, input, m.pvc, faults, live); }
  }

  lemma NoDeploymentMade(s1: Slice, n: string, a: Agent, faults: Faults)
    requires s1.deployment.None?
    ensures WorkspaceStep(s1, n, a, faults).0.deployment.None?
  {
  }

  /**
   Everything a reconcile makes for an agent without children, but for its volumes and its pod, goes
   with the agent: deleting it and collecting leaves no ConfigMap, Deployment or Service.
   */
  lemma ChildrenGoWithAgent(sl: Slice, n: string, ns: string, objs: Resolve.Objects, orders: KeyOrders, faults: Faults,
                            live: set<nat>)
    requires sl.agent.Some? && Childless(sl) && sl.agent.value.uid !in live
    ensures Childless(Deleted(ReconcileSlice(sl, n, ns, objs, orders, faults).0, live))
  {
    var a := sl.agent.value;
    var input := Resolve.Resolved(objs, n, ns, a.spec);
    var (s1, ok) := Prologue(sl, OwnerRef(n, a.uid), input, orders, faults);
    PrologueOwns(sl, n, a.uid, input, orders, faults, live);
    PrologueKeepsRest(sl, OwnerRef(n, a.uid), input, orders, faults);
    if ok { AfterPrologueOwns(s1, n, a, input, faults, live); }
  }
}
