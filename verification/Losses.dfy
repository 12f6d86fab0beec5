/**
 Runs in which an agent's files go, each from an ordinary start: a second resize deletes the
 volume it has just switched to, a migration that finished before the agent was deleted is
 acted on by the first reconcile of its successor, and one that finished before a change of
 mode is taken for the migration of volumes made since.
 */
module Losses {
  import opened Prelude
  import opened Api
  import opened Cluster
  import opened Workspace
  import opened Reconcile
  import opened Runs
  import opened ResizeRuns
  import opened Reclaim
  import opened Modes
  import Resolve

  /** A resize with `m` steps to go, for a spec that stays; the resized volume is as large as the spec asks. */
  predicate Underway(sl: Slice, n: string, spec: AgentSpec, uid: nat, m: nat, pod: Option<PodPhase>) {
    && Resizing(sl, n) && Measure(sl) == m && sl.agent.value.spec == spec && sl.agent.value.uid == uid
    && (sl.homeV2.Some? ==> sl.homeV2.value.size == spec.workspace.ResolvedStorageSize()
                            && sl.homeV2.value.owners == OwnersFor(spec.workspace.ResolvedReclaimPolicy(),
                              OwnerRef(n, uid)))
    && (m < 4 && spec.workspace.ResolvedReclaimPolicy() == RECLAIM_RETAIN ==> sl.home.value.owners == [])
    && pod == (if sl.pod.Some? then Some(sl.pod.value.phase) else None)
  }

  function PodNext(m: nat, pod: Option<PodPhase>): Option<PodPhase> { if m == 2 then Some(Pending) else pod }

  lemma EffectUnderway(sl: Slice, n: string, spec: AgentSpec, uid: nat, m: nat, pod: Option<PodPhase>, t: Slice,
                       outcome: Outcome)
    requires Underway(sl, n, spec, uid, m, pod) && m > 0 && Effect(sl, n, t, outcome, {})
    ensures Underway(t, n, spec, uid, m - 1, PodNext(m, pod))
  {
    OwnNamesDistinct(n);
    ReconcileProgress(sl, n, t, outcome);
    if spec.workspace.ResolvedReclaimPolicy() == RECLAIM_RETAIN { RetainEffect(sl, n, t, outcome); }
  }

  lemma Advance(sl: Slice, n: string, ns: string, objs: Resolve.Objects, orders: KeyOrders, spec: AgentSpec, uid: nat,
                m: nat, pod: Option<PodPhase>)
    requires Underway(sl, n, spec, uid, m, pod) && m > 0
    ensures Underway(Step(sl, n, ns, Reconciled(objs, orders, {})), n, spec, uid, m - 1, PodNext(m, pod))
  {
    ReconcileWorkspace(sl, n, ns, objs, orders, {});
    var (t, outcome) := ReconcileSlice(sl, n, ns, objs, orders, {});
    EffectUnderway(sl, n, spec, uid, m, pod, t, outcome);
  }

  lemma PodDone(sl: Slice, n: string, ns: string, spec: AgentSpec, uid: nat, m: nat)
    requires Underway(sl, n, spec, uid, m, Some(Pending))
    ensures Underway(Step(sl, n, ns, PodSucceeded), n, spec, uid, m, Some(Succeeded))
  {
    OwnNamesDistinct(n);
  }

  /** A larger request, before anything has been made for it. */
  predicate Requested(sl: Slice, n: string) {
    Initial(sl, n) && sl.home.Some? && NeedsResize(sl, n, sl.agent.value)
  }

  /** The run up to the point where the next reconcile switches; a running agent is stopped first. */
  function ToTheSwitch(sl: Slice, rec: Event): seq<Event> {
    (if ScaledDown(sl) then [] else [rec]) + ([rec, rec, rec] + [PodSucceeded, rec])
  }

  lemma PodMade(sl: Slice, n: string, ns: string, objs: Resolve.Objects, orders: KeyOrders, spec: AgentSpec, uid: nat)
    requires Underway(sl, n, spec, uid, 4, None)
    ensures var rec := Reconciled(objs, orders, {});
            Underway(Run(sl, n, ns, [rec, rec, rec]), n, spec, uid, 1, Some(Pending))
  {
    var rec := Reconciled(objs, orders, {});
    var s1 := Step(sl, n, ns, rec);
    Advance(sl, n, ns, objs, orders, spec, uid, 4, None);
    var s2 := Step(s1, n, ns, rec);
    Advance(s1, n, ns, objs, orders, spec, uid, 3, None);
    Advance(s2, n, ns, objs, orders, spec, uid, 2, None);
    RunOfThree(sl, n, ns, rec, rec, rec);
  }

  lemma PodFinishes(sl: Slice, n: string, ns: string, objs: Resolve.Objects, orders: KeyOrders, spec: AgentSpec,
                    uid: nat)
    requires Underway(sl, n, spec, uid, 1, Some(Pending))
    ensures Underway(Run(sl, n, ns, [PodSucceeded, Reconciled(objs, orders, {})]), n, spec, uid, 0, Some(Succeeded))
  {
    PodDone(sl, n, ns, spec, uid, 1);
    Advance(Step(sl, n, ns, PodSucceeded), n, ns, objs, orders, spec, uid, 1, Some(Succeeded));
    RunOfTwo(sl, n, ns, PodSucceeded, Reconciled(objs, orders, {}));
  }

  lemma StoppedDone(sl: Slice, n: string, ns: string, objs: Resolve.Objects, orders: KeyOrders, spec: AgentSpec,
                    uid: nat)
    requires Underway(sl, n, spec, uid, 4, None)
    ensures var rec := Reconciled(objs, orders, {});
            Underway(Run(sl, n, ns, [rec, rec, rec] + [PodSucceeded, rec]), n, spec, uid, 0, Some(Succeeded))
  {
    var rec := Reconciled(objs, orders, {});
    PodMade(sl, n, ns, objs, orders, spec, uid);
    PodFinishes(Run(sl, n, ns, [rec, rec, rec]), n, ns, objs, orders, spec, uid);
    RunConcat(sl, n, ns, [rec, rec, rec], [PodSucceeded, rec]);
  }

  lemma MigrationDone(sl: Slice, n: string, ns: string, objs: Resolve.Objects, orders: KeyOrders)
    requires Requested(sl, n)
    ensures var t := Run(sl, n, ns, ToTheSwitch(sl, Reconciled(objs, orders, {})));
            Underway(t, n, sl.agent.value.spec, sl.agent.value.uid, 0, Some(Succeeded))
  {
    var rec, spec, uid := Reconciled(objs, orders, {}), sl.agent.value.spec, sl.agent.value.uid;
    var tail := [rec, rec, rec] + [PodSucceeded, rec];
    if ScaledDown(sl) {
      StoppedDone(sl, n, ns, objs, orders, spec, uid);
      assert [] + tail == tail;
    } else {
      Advance(sl, n, ns, objs, orders, spec, uid, 5, None);
      RunOfOne(sl, n, ns, rec);
      StoppedDone(Run(sl, n, ns, [rec]), n, ns, objs, orders, spec, uid);
      RunConcat(sl, n, ns, [rec], tail);
    }
  }

  // ------------------------------------------------------------ the second resize

  /** Switched to the resized volume, with a succeeded pod left over. */
  predicate LeftPod(sl: Slice, n: string) {
    && sl.agent.Some? && sl.agent.value.spec.workspace.IsPersistent() && StatusOk(n, sl.agent.value.status)
    && ActiveVolume(n, sl.agent.value.status) == HomeV2 && sl.home.None? && sl.homeV2.Some?
    && sl.pod.Some? && sl.pod.value.phase.Succeeded?
  }

  lemma EffectLeavesPod(sl: Slice, n: string, spec: AgentSpec, uid: nat, t: Slice, outcome: Outcome)
    requires Underway(sl, n, spec, uid, 0, Some(Succeeded)) && Effect(sl, n, t, outcome, {DeletePod})
    ensures outcome == Done && LeftPod(t, n) && !ScaledDown(t) && t.agent.value.spec == spec
    ensures t.homeV2.value.size == spec.workspace.ResolvedStorageSize()
  {
    OwnNamesDistinct(n);
  }

  lemma SwitchLeavesPod(sl: Slice, n: string, ns: string, objs: Resolve.Objects, orders: KeyOrders, spec: AgentSpec,
                        uid: nat)
    requires Underway(sl, n, spec, uid, 0, Some(Succeeded))
    ensures var (t, outcome) := ReconcileSlice(sl, n, ns, objs, orders, {DeletePod});
            && outcome == Done && LeftPod(t, n) && !ScaledDown(t) && t.agent.value.spec == spec
            && t.homeV2.value.size == spec.workspace.ResolvedStorageSize()
  {
    ReconcileWorkspace(sl, n, ns, objs, orders, {DeletePod});
    var (t, outcome) := ReconcileSlice(sl, n, ns, objs, orders, {DeletePod});
    EffectLeavesPod(sl, n, spec, uid, t, outcome);
  }

  /** With a larger request the agent is stopped first, and then its only volume goes. */
  lemma EffectSecondResize(sl: Slice, n: string, t: Slice, outcome: Outcome)
    requires LeftPod(sl, n) && NeedsResize(sl, n, sl.agent.value) && Effect(sl, n, t, outcome, {})
    ensures !ScaledDown(sl) ==>
              LeftPod(t, n) && ScaledDown(t) && t.agent == sl.agent && t.homeV2.value.size == sl.homeV2.value.size
    ensures ScaledDown(sl) ==>
              outcome == Done && t.agent.Some? && t.home.None? && t.homeV2.None? && Mounted(t, n) == Some(HomeV2)
  {
    OwnNamesDistinct(n);
  }

  lemma SecondResizeStep(sl: Slice, n: string, ns: string, objs: Resolve.Objects, orders: KeyOrders)
    requires LeftPod(sl, n) && NeedsResize(sl, n, sl.agent.value)
    ensures var t := Step(sl, n, ns, Reconciled(objs, orders, {}));
            && (!ScaledDown(sl) ==> LeftPod(t, n) && ScaledDown(t) && NeedsResize(t, n, t.agent.value))
            && (ScaledDown(sl) ==> t.agent.Some? && t.home.None? && t.homeV2.None? && Mounted(t, n) == Some(HomeV2))
  {
    ReconcileWorkspace(sl, n, ns, objs, orders, {});
    var (t, outcome) := ReconcileSlice(sl, n, ns, objs, orders, {});
    EffectSecondResize(sl, n, t, outcome);
  }

  lemma AfterTheSwitch(sl: Slice, n: string, ns: string, objs: Resolve.Objects, orders: KeyOrders, spec: AgentSpec,
                       uid: nat,
                       larger: AgentSpec)
    requires Underway(sl, n, spec, uid, 0, Some(Succeeded)) && larger.workspace.IsPersistent()
    requires larger.workspace.ResolvedStorageSize() > spec.workspace.ResolvedStorageSize()
    ensures var rec := Reconciled(objs, orders, {});
            var t := Run(sl, n, ns, [Reconciled(objs, orders, {DeletePod}), Edited(larger)] + [rec, rec]);
            t.agent.Some? && t.home.None? && t.homeV2.None? && Mounted(t, n) == Some(HomeV2)
  {
    var rec, switch := Reconciled(objs, orders, {}), Reconciled(objs, orders, {DeletePod});
    SwitchLeavesPod(sl, n, ns, objs, orders, spec, uid);
    var s2 := Step(Step(sl, n, ns, switch), n, ns, Edited(larger));
    SecondResizeStep(s2, n, ns, objs, orders);
    SecondResizeStep(Step(s2, n, ns, rec), n, ns, objs, orders);
    RunOfTwo(sl, n, ns, switch, Edited(larger));
    RunOfTwo(s2, n, ns, rec, rec);
    RunConcat(sl, n, ns, [switch, Edited(larger)], [rec, rec]);
  }

  /**
   The second resize, in one run from an ordinary start: the only failure is that of deleting
   the finished pod, which the controller ignores, and the only edit asks for more space. At the
   end neither volume exists, and the agent runs on the name of one that is gone.
   */
  lemma SecondResizeLosesVolumes(sl: Slice, n: string, ns: string, objs: Resolve.Objects, orders: KeyOrders,
                                 larger: AgentSpec)
    requires Requested(sl, n) && larger.workspace.IsPersistent()
    requires larger.workspace.ResolvedStorageSize() > sl.agent.value.spec.workspace.ResolvedStorageSize()
    ensures var rec := Reconciled(objs, orders, {});
            var t := Run(sl, n, ns, ToTheSwitch(sl, rec)
              + ([Reconciled(objs, orders, {DeletePod}), Edited(larger)] + [rec, rec]));
            t.agent.Some? && t.home.None? && t.homeV2.None? && Mounted(t, n) == Some(HomeV2)
  {
    var rec := Reconciled(objs, orders, {});
    var spec, uid := sl.agent.value.spec, sl.agent.value.uid;
    MigrationDone(sl, n, ns, objs, orders);
    AfterTheSwitch(Run(sl, n, ns, ToTheSwitch(sl, rec)), n, ns, objs, orders, spec, uid, larger);
    RunConcat(sl, n, ns, ToTheSwitch(sl, rec), [Reconciled(objs, orders, {DeletePod}), Edited(larger)] + [rec, rec]);
  }

  // ------------------------------------------------------- the successor's first act

  lemma DeletedMigration(sl: Slice, n: string, spec: AgentSpec, uid: nat, live: set<nat>, successor: Agent)
    requires Underway(sl, n, spec, uid, 0, Some(Succeeded)) && spec.workspace.ResolvedReclaimPolicy() == RECLAIM_RETAIN
    requires Fresh(successor) && successor.spec == spec
    ensures var d := Deleted(sl, live); d.home.Some? && LeftoverMigration(d, n, successor)
  {
    assert RECLAIM_DELETE != RECLAIM_RETAIN by { assert RECLAIM_DELETE[0] != RECLAIM_RETAIN[0]; }
    OwnNamesDistinct(n);
    assert VolName(n, HomeV2) != "" by { assert |VolName(n, HomeV2)| > 0; }
  }

  /**
   An agent under retain is deleted when its migration has finished but the switch is still to
   come. Its successor, created with the very same spec, deletes the retained original volume
   in its first reconcile.
   */
  lemma SuccessorDropsOriginal(sl: Slice, n: string, ns: string, objs: Resolve.Objects, orders: KeyOrders,
                               live: set<nat>,
                               successor: Agent)
    requires Requested(sl, n) && sl.agent.value.spec.workspace.ResolvedReclaimPolicy() == RECLAIM_RETAIN
    requires Fresh(successor) && successor.spec == sl.agent.value.spec
    ensures var d := Deleted(Run(sl, n, ns, ToTheSwitch(sl, Reconciled(objs, orders, {}))), live);
            && d.home.Some? && LeftoverMigration(d, n, successor)
            && ReconcileSlice(d.(agent := Some(successor)), n, ns, objs, orders, {}).0.home.None?
  {
    var t := Run(sl, n, ns, ToTheSwitch(sl, Reconciled(objs, orders, {})));
    MigrationDone(sl, n, ns, objs, orders);
    DeletedMigration(t, n, sl.agent.value.spec, sl.agent.value.uid, live, successor);
    RecreateAttaches(Deleted(t, live), n, ns, objs, orders, successor);
  }

  // --------------------------------------------------------------- a change of mode

  /** A finished pod that is left over, above volumes that are gone. */
  predicate Abandoned(sl: Slice, n: string) { Unswitched(sl, n) && Finished(sl) && sl.home.None? && sl.homeV2.None? }

  lemma EphemeralAbandons(sl: Slice, n: string, ns: string, objs: Resolve.Objects, orders: KeyOrders)
    requires Unswitched(sl, n) && Finished(sl) && Ephemeral(sl)
    ensures Abandoned(Step(sl, n, ns, Reconciled(objs, orders, {})), n)
  {
    var t := ReconcileSlice(sl, n, ns, objs, orders, {}).0;
    EphemeralPass(sl, n, ns, objs, orders, {});
    EphemeralCleans(sl, n, ns, objs, orders);
    EphemeralKeeps(sl, n, t);
  }

  lemma EphemeralCleans(sl: Slice, n: string, ns: string, objs: Resolve.Objects, orders: KeyOrders)
    requires Ephemeral(sl)
    ensures var t := ReconcileSlice(sl, n, ns, objs, orders, {}).0; t.home.None? && t.homeV2.None?
  {
    var a := sl.agent.value;
    var input := Resolve.Resolved(objs, n, ns, a.spec);
    var owner := OwnerRef(n, a.uid);
    PrologueOk(sl, owner, input, orders, {});
    PrologueKeepsRest(sl, owner, input, orders, {});
    var s1 := Prologue(sl, owner, input, orders, {}).0;
    var (s2, m) := WorkspaceStep(s1, n, a, {});
    if m.Mount? { EpilogueKeepsVolumes(s2, n, a, input, m.pvc, {}); }
  }

  /** Back in persistent mode the agent gets a new volume, and writes to it. */
  predicate Revived(sl: Slice, n: string, spec: AgentSpec, files: map<string, string>) {
    && Unswitched(sl, n) && Finished(sl) && sl.agent.value.spec == spec && spec.workspace.IsPersistent()
    && sl.home.Some? && sl.home.value.files == files && sl.home.value.size == spec.workspace.ResolvedStorageSize()
    && sl.homeV2.None? && Mounted(sl, n) == Some(Home)
  }

  lemma EffectRevives(sl: Slice, n: string, t: Slice, outcome: Outcome)
    requires Abandoned(sl, n) && !Ephemeral(sl) && Effect(sl, n, t, outcome, {})
    ensures Revived(t, n, sl.agent.value.spec, map[])
  {
    OwnNamesDistinct(n);
    EnsurePVCKeepsHeld(sl, n, sl.agent.value, {});
  }

  lemma Revives(sl: Slice, n: string, ns: string, objs: Resolve.Objects, orders: KeyOrders)
    requires Abandoned(sl, n) && !Ephemeral(sl)
    ensures Revived(Step(sl, n, ns, Reconciled(objs, orders, {})), n, sl.agent.value.spec, map[])
  {
    ReconcileWorkspace(sl, n, ns, objs, orders, {});
    var (t, outcome) := ReconcileSlice(sl, n, ns, objs, orders, {});
    EffectRevives(sl, n, t, outcome);
  }

  /** A larger request over a pod that has nothing to do with it; `m` reconciles to go. */
  predicate Misled(sl: Slice, n: string, files: map<string, string>, m: nat) {
    && Unswitched(sl, n) && Finished(sl) && !Ephemeral(sl) && NeedsResize(sl, n, sl.agent.value)
    && sl.home.Some? && sl.home.value.files == files
    && (sl.homeV2.Some? ==> sl.homeV2.value.files == map[])
    && m == (if sl.homeV2.None? then 2 else 0) + (if ScaledDown(sl) then 0 else 1)
  }

  lemma EffectMisleads(sl: Slice, n: string, files: map<string, string>, m: nat, t: Slice, outcome: Outcome)
    requires Misled(sl, n, files, m) && Effect(sl, n, t, outcome, {})
    ensures outcome != Error
    ensures m > 0 ==> Misled(t, n, files, m - 1)
    ensures m == 0 ==> t.home.None? && t.homeV2.Some? && t.homeV2.value.files == map[] && Mounted(t, n) == Some(HomeV2)
  {
    OwnNamesDistinct(n);
    EnsurePVCKeepsHeld(sl, n, sl.agent.value, {});
  }

  lemma Misleads(sl: Slice, n: string, ns: string, objs: Resolve.Objects, orders: KeyOrders,
                 files: map<string, string>, m: nat)
    requires Misled(sl, n, files, m)
    ensures var (t, outcome) := ReconcileSlice(sl, n, ns, objs, orders, {});
            && outcome != Error && (m > 0 ==> Misled(t, n, files, m - 1))
            && (m == 0 ==> t.home.None? && t.homeV2.Some? && t.homeV2.value.files == map[]
                           && Mounted(t, n) == Some(HomeV2))
  {
    ReconcileWorkspace(sl, n, ns, objs, orders, {});
    var (t, outcome) := ReconcileSlice(sl, n, ns, objs, orders, {});
    EffectMisleads(sl, n, files, m, t, outcome);
  }

  /** To ephemeral and back, with a reconcile after each edit; the agent writes; then more space is asked for. */
  function ThereAndBack(rec: Event, ephemeral: AgentSpec, back: AgentSpec): seq<Event> {
    [Edited(ephemeral), rec] + [Edited(back), rec]
  }

  function WriteAndGrow(rec: Event, files: map<string, string>, larger: AgentSpec): seq<Event> {
    [AgentWrote(files), Edited(larger)] + [rec, rec, rec]
  }

  lemma ThereAndBackRevives(sl: Slice, n: string, ns: string, objs: Resolve.Objects, orders: KeyOrders,
                            ephemeral: AgentSpec, back: AgentSpec)
    requires Unswitched(sl, n) && Finished(sl)
    requires !ephemeral.workspace.IsPersistent() && back.workspace.IsPersistent()
    ensures Revived(Run(sl, n, ns, ThereAndBack(Reconciled(objs, orders, {}), ephemeral, back)), n, back, map[])
  {
    var rec := Reconciled(objs, orders, {});
    var s1 := Step(sl, n, ns, Edited(ephemeral));
    EphemeralAbandons(s1, n, ns, objs, orders);
    var s2 := Step(s1, n, ns, rec);
    var s3 := Step(s2, n, ns, Edited(back));
    Revives(s3, n, ns, objs, orders);
    RunOfTwo(sl, n, ns, Edited(ephemeral), rec);
    RunOfTwo(s2, n, ns, Edited(back), rec);
    RunConcat(sl, n, ns, [Edited(ephemeral), rec], [Edited(back), rec]);
  }

  lemma WrittenAndGrown(sl: Slice, n: string, ns: string, back: AgentSpec, files: map<string, string>,
                        larger: AgentSpec)
    requires Revived(sl, n, back, map[]) && larger.workspace.IsPersistent()
    requires larger.workspace.ResolvedStorageSize() > back.workspace.ResolvedStorageSize()
    ensures Misled(Step(Step(sl, n, ns, AgentWrote(files)), n, ns, Edited(larger)), n, files, 3)
  {
  }

  lemma GrowsToTheSwitch(sl: Slice, n: string, ns: string, objs: Resolve.Objects, orders: KeyOrders, back: AgentSpec,
                         files: map<string, string>, larger: AgentSpec)
    requires Revived(sl, n, back, map[]) && larger.workspace.IsPersistent()
    requires larger.workspace.ResolvedStorageSize() > back.workspace.ResolvedStorageSize()
    ensures Misled(Run(sl, n, ns, WriteAndGrow(Reconciled(objs, orders, {}), files, larger)), n, files, 0)
  {
    var rec := Reconciled(objs, orders, {});
    WrittenAndGrown(sl, n, ns, back, files, larger);
    RunOfTwo(sl, n, ns, AgentWrote(files), Edited(larger));
    var s3 := Run(sl, n, ns, [AgentWrote(files), Edited(larger)]);
    Misleads(s3, n, ns, objs, orders, files, 3);
    var s2 := Step(s3, n, ns, rec);
    Misleads(s2, n, ns, objs, orders, files, 2);
    Misleads(Step(s2, n, ns, rec), n, ns, objs, orders, files, 1);
    RunOfThree(s3, n, ns, rec, rec, rec);
    RunConcat(sl, n, ns, [AgentWrote(files), Edited(larger)], [rec, rec, rec]);
  }

  /**
   The mode switch, in one run from an ordinary start in which every call succeeds: the migration
   finishes, the mode goes to ephemeral and back, the agent writes its files, and more space is
   asked for. The last reconcile finds the safe state, takes the only volume with those files,
   and leaves the agent on one that nothing was ever copied to.
   */
  lemma ModeSwitchLosesFiles(sl: Slice, n: string, ns: string, objs: Resolve.Objects, orders: KeyOrders,
                             ephemeral: AgentSpec, back: AgentSpec, larger: AgentSpec, files: map<string, string>)
    requires Requested(sl, n) && !ephemeral.workspace.IsPersistent()
    requires back.workspace.IsPersistent() && larger.workspace.IsPersistent()
    requires larger.workspace.ResolvedStorageSize() > back.workspace.ResolvedStorageSize()
    ensures var rec := Reconciled(objs, orders, {});
            var evs := ToTheSwitch(sl, rec) + (ThereAndBack(rec, ephemeral, back) + WriteAndGrow(rec, files, larger));
            var before := Run(sl, n, ns, evs);
            var (t, outcome) := ReconcileSlice(before, n, ns, objs, orders, {});
            && before.home.Some? && before.home.value.files == files && outcome != Error
            && t.home.None? && t.homeV2.Some? && t.homeV2.value.files == map[] && Mounted(t, n) == Some(HomeV2)
  {
    var rec := Reconciled(objs, orders, {});
    var there, grow := ThereAndBack(rec, ephemeral, back), WriteAndGrow(rec, files, larger);
    MigrationDone(sl, n, ns, objs, orders);
    var s1 := Run(sl, n, ns, ToTheSwitch(sl, rec));
    ThereAndBackRevives(s1, n, ns, objs, orders, ephemeral, back);
    var s2 := Run(s1, n, ns, there);
    GrowsToTheSwitch(s2, n, ns, objs, orders, back, files, larger);
    Misleads(Run(s2, n, ns, grow), n, ns, objs, orders, files, 0);
    RunConcat(s1, n, ns, there, grow);
    RunConcat(sl, n, ns, ToTheSwitch(sl, rec), there + grow);
  }

  // ------------------------------------------------------------ half a clean-up

  lemma AfterPrologueHalfCleans(s1: Slice, n: string, a: Agent, input: ConfigInput)
    requires s1.agent == Some(a) && !a.spec.workspace.IsPersistent() && s1.homeV2.Some?
    ensures AfterPrologue(s1, n, a, input, {DeleteHomeV2}) == (s1.(home := None), Error)
  {
  }

  lemma HalfCleans(sl: Slice, n: string, ns: string, objs: Resolve.Objects, orders: KeyOrders)
    requires Ephemeral(sl) && sl.homeV2.Some?
    ensures var t := ReconcileSlice(sl, n, ns, objs, orders, {DeleteHomeV2}).0;
            && t.home.None? && t.homeV2 == sl.homeV2 && t.agent == sl.agent
  {
    var a := sl.agent.value;
    var input := Resolve.Resolved(objs, n, ns, a.spec);
    PrologueOk(sl, OwnerRef(n, a.uid), input, orders, {DeleteHomeV2});
    PrologueKeepsRest(sl, OwnerRef(n, a.uid), input, orders, {DeleteHomeV2});
    AfterPrologueHalfCleans(Prologue(sl, OwnerRef(n, a.uid), input, orders, {DeleteHomeV2}).0, n, a, input);
  }

  lemma EffectOutgrows(sl: Slice, n: string, t: Slice, outcome: Outcome)
    requires sl.agent.Some? && !Ephemeral(sl) && ActiveVolume(n, sl.agent.value.status) == Home
    requires sl.home.None? && sl.homeV2.Some? && Effect(sl, n, t, outcome, {})
    ensures t.homeV2 == sl.homeV2 && t.home.Some?
    ensures t.home.value.size == sl.agent.value.spec.workspace.ResolvedStorageSize()
  {
    OwnNamesDistinct(n);
  }

  lemma Outgrows(sl: Slice, n: string, ns: string, objs: Resolve.Objects, orders: KeyOrders)
    requires sl.agent.Some? && !Ephemeral(sl) && ActiveVolume(n, sl.agent.value.status) == Home
    requires sl.home.None? && sl.homeV2.Some?
    ensures var t := ReconcileSlice(sl, n, ns, objs, orders, {}).0;
            && t.homeV2 == sl.homeV2 && t.home.Some?
            && t.home.value.size == sl.agent.value.spec.workspace.ResolvedStorageSize()
  {
    ReconcileWorkspace(sl, n, ns, objs, orders, {});
    var (t, outcome) := ReconcileSlice(sl, n, ns, objs, orders, {});
    EffectOutgrows(sl, n, t, outcome);
  }

  /**
   A clean-up that stops between its two deletions, followed by a return to persistent mode,
   leaves the old resized volume, files and all, beside a new original that may be the larger
   one: the volume a later resize switches to is then too small.
   */
  lemma HalfCleanUpLeavesSmaller(sl: Slice, n: string, ns: string, objs: Resolve.Objects, orders: KeyOrders,
                                 ephemeral: AgentSpec, back: AgentSpec)
    requires Unswitched(sl, n) && sl.homeV2.Some? && !ephemeral.workspace.IsPersistent()
        && back.workspace.IsPersistent()
    requires back.workspace.ResolvedStorageSize() > sl.homeV2.value.size
    ensures var t := Run(sl, n, ns, [Edited(ephemeral), Reconciled(objs, orders, {DeleteHomeV2})]
                                    + [Edited(back), Reconciled(objs, orders, {})]);
            t.home.Some? && t.homeV2 == sl.homeV2 && t.homeV2.value.size < t.home.value.size
  {
    var half, rec := Reconciled(objs, orders, {DeleteHomeV2}), Reconciled(objs, orders, {});
    var s1 := Step(sl, n, ns, Edited(ephemeral));
    HalfCleans(s1, n, ns, objs, orders);
    var s2 := Step(s1, n, ns, half);
    Outgrows(Step(s2, n, ns, Edited(back)), n, ns, objs, orders);
    RunOfTwo(sl, n, ns, Edited(ephemeral), half);
    RunOfTwo(s2, n, ns, Edited(back), rec);
    RunConcat(sl, n, ns, [Edited(ephemeral), half], [Edited(back), rec]);
  }
}
