/**
 The life of an agent's home volume: creation, owner-reference sync, the re-entrant resize
 with its migration pod, and the clean-up of ephemeral agents. These functions say what one
 call does to the agent's slice; `faults` names the API writes that fail during the call.
 */
module Workspace {
  import opened Prelude
  import opened Api
  import opened Names
  import opened Cluster

  /** The call sites at which Reconcile writes to the API server. */
  datatype ApiCall =
    | PutIdentity | PutSkills | PutConfig
    | CreateHome | SyncOwners | ScaleDown | CreateResized | CreatePod | DeletePod | DeleteOld
    | DeleteHome | DeleteHomeV2
    | PutDeployment | PutService | PutStatus

  type Faults = set<ApiCall>

  /** How ensurePVC ends: the name to mount, a requeue, or an error. */
  datatype Progress = Proceed(active: HomeVolume) | Requeue | Abort

  /** The status only ever holds a name this controller wrote. */
  predicate StatusOk(n: string, st: AgentStatus) {
    st.workspacePVC in {"", VolName(n, Home), VolName(n, HomeV2)}
  }

  /** activePVCName. */
  function ActivePVCName(n: string, st: AgentStatus): string {
    if st.workspacePVC != "" then st.workspacePVC else n + PVC_SUFFIX
  }

  function ActiveVolume(n: string, st: AgentStatus): HomeVolume {
    if st.workspacePVC == VolName(n, HomeV2) then HomeV2 else Home
  }

  lemma ActiveVolumeNamed(n: string, st: AgentStatus)
    requires StatusOk(n, st)
    ensures ActivePVCName(n, st) == VolName(n, ActiveVolume(n, st))
  {
    OwnNamesDistinct(n);
  }

  function OwnersFor(policy: string, owner: OwnerRef): seq<OwnerRef> {
    if policy == RECLAIM_DELETE then [owner] else []
  }

  /** syncPVCOwnerRefs. */
  function Synced(p: PVC, policy: string, owner: OwnerRef): PVC {
    if policy == RECLAIM_DELETE && p.owners == [] then p.(owners := [owner])
    else if policy == RECLAIM_RETAIN && p.owners != [] then p.(owners := [])
    else p
  }

  function NewPVC(ws: WorkspaceSpec, owner: OwnerRef): PVC {
    PVC(OwnersFor(ws.ResolvedReclaimPolicy(), owner), ws.ResolvedStorageSize(), ws.storageClassName, map[])
  }

  predicate ScaledDown(sl: Slice) { sl.deployment.None? || sl.deployment.value.spec.replicas == Some(0) }

  /** resizePVC: the first step whose result is missing decides what this call does. */
  function Resize(sl: Slice, n: string, ws: WorkspaceSpec, owner: OwnerRef, v: HomeVolume,
                  faults: Faults): (Slice, Progress) {
    if !ScaledDown(sl) then
      if ScaleDown in faults then (sl, Abort)
      else (sl.(deployment := Some(sl.deployment.value.(spec := sl.deployment.value.spec.(replicas := Some(0))))),
        Requeue)
    else if sl.homeV2.None? then
      if CreateResized in faults then (sl, Abort) else (sl.(homeV2 := Some(NewPVC(ws, owner))), Proceed(v))
    else if sl.pod.None? then
      if CreatePod in faults then (sl, Abort)
      else (sl.(pod := Some(MigrationPod(VolName(n, v), VolName(n, HomeV2), Pending))), Proceed(v))
    else
      var noPod := if DeletePod in faults then sl else sl.(pod := None);
      match sl.pod.value.phase
      case Succeeded => if DeleteOld in faults then (noPod, Abort) else (noPod.WithVol(v, None), Proceed(HomeV2))
      case Failed => (noPod, Abort)
      case _ => (sl, Requeue)
  }

  /** ensurePVC. */
  function EnsurePVC(sl: Slice, n: string, a: Agent, faults: Faults): (Slice, Progress) {
    var ws := a.spec.workspace;
    var owner := OwnerRef(n, a.uid);
    var v := ActiveVolume(n, a.status);
    if sl.Vol(v).None? then
      if CreateHome in faults then (sl, Abort) else (sl.WithVol(v, Some(NewPVC(ws, owner))), Proceed(v))
    else
      var p := sl.Vol(v).value;
      var synced := Synced(p, ws.ResolvedReclaimPolicy(), owner);
      if synced != p && SyncOwners in faults then (sl, Abort)
      else
        var sl' := sl.WithVol(v, Some(synced));
        if ws.ResolvedStorageSize() > p.size then Resize(sl', n, ws, owner, v, faults) else (sl', Proceed(v))
  }

  /** cleanupOrphanedPVC; the flag says whether it got through. */
  function Cleanup(sl: Slice, faults: Faults): (Slice, bool) {
    if sl.home.Some? && DeleteHome in faults then (sl, false)
    else if sl.homeV2.Some? && DeleteHomeV2 in faults then (sl.(home := None), false)
    else (sl.(home := None, homeV2 := None), true)
  }

  /** The active volume exists and the agent asks for more than it has. */
  predicate NeedsResize(sl: Slice, n: string, a: Agent) {
    && sl.Vol(ActiveVolume(n, a.status)).Some?
    && a.spec.workspace.ResolvedStorageSize() > sl.Vol(ActiveVolume(n, a.status)).value.size
  }

  // ------------------------------------------------------------- single-call facts

  /**
   After an error-free call that did not have to resize, the active volume has owner
   references iff the policy is delete, whatever the policy was before.
   */
  lemma ReclaimPolicyApplied(sl: Slice, n: string, a: Agent)
    requires a.spec.workspace.reclaimPolicy in {"", "retain", "delete"} && !NeedsResize(sl, n, a)
    ensures var (sl', r) := EnsurePVC(sl, n, a, {});
            var v := ActiveVolume(n, a.status);
            && r == Proceed(v) && sl'.Vol(v).Some?
            && (sl'.Vol(v).value.owners != [] <==> a.spec.workspace.reclaimPolicy == "delete")
            && (sl.Vol(v).Some? ==> sl'.Vol(v).value.files == sl.Vol(v).value.files
                                    && sl'.Vol(v).value.size == sl.Vol(v).value.size)
  {
    assert RECLAIM_DELETE != RECLAIM_RETAIN by { assert RECLAIM_DELETE[0] != RECLAIM_RETAIN[0]; }
  }

  /**
   Volumes are made as the agent asks: of its size, 5Gi when it names none, of its storage class,
   empty, and owned by it iff its policy is delete; and a volume that is there keeps its size,
   class and files as long as it stays.
   */
  lemma VolumesAsRequested(sl: Slice, n: string, a: Agent, faults: Faults, v: HomeVolume)
    requires a.spec.workspace.reclaimPolicy in {"", "retain", "delete"}
    ensures var ws, t := a.spec.workspace, EnsurePVC(sl, n, a, faults).0.Vol(v);
            && (sl.Vol(v).None? && t.Some? ==>
                  t == Some(PVC(if ws.reclaimPolicy == "delete" then [OwnerRef(n, a.uid)] else [],
                                if ws.storageSize.None? then 5368709120 else ws.storageSize.value,
                                ws.storageClassName, map[])))
            && (sl.Vol(v).Some? && t.Some? ==> t == Some(sl.Vol(v).value.(owners := t.value.owners)))
  {
    assert RECLAIM_DELETE != RECLAIM_RETAIN by { assert RECLAIM_DELETE[0] != RECLAIM_RETAIN[0]; }
  }

  /**
   The only way this call deletes a volume the agent may hold data on: the resized volume is
   there, a migration pod has succeeded, and the Deployment was absent or scaled to zero.
   */
  lemma DeletionIsGuarded(sl: Slice, n: string, a: Agent, faults: Faults)
    requires sl.Vol(ActiveVolume(n, a.status)).Some?
    ensures var (sl', r) := EnsurePVC(sl, n, a, faults);
            var v := ActiveVolume(n, a.status);
            sl'.Vol(v).None? ==>
              && ScaledDown(sl) && sl.homeV2.Some? && sl.pod.Some? && sl.pod.value.phase.Succeeded?
              && NeedsResize(sl, n, a) && r == Proceed(HomeV2)
  {
  }

  /**
   A completed switch leaves the agent with a volume iff the volume it left was not already
   the resized one: the new name is fixed, so a second resize deletes its own destination.
   */
  lemma SwitchKeepsVolumeExactly(sl: Slice, n: string, a: Agent, faults: Faults)
    requires NeedsResize(sl, n, a) && ScaledDown(sl) && sl.homeV2.Some?
    requires sl.pod.Some? && sl.pod.value.phase.Succeeded? && DeleteOld !in faults
    requires Synced(sl.Vol(ActiveVolume(n, a.status)).value, a.spec.workspace.ResolvedReclaimPolicy(),
        OwnerRef(n, a.uid))
             == sl.Vol(ActiveVolume(n, a.status)).value || SyncOwners !in faults
    ensures var (sl', r) := EnsurePVC(sl, n, a, faults);
            && r == Proceed(HomeV2)
            && (sl'.homeV2.Some? <==> ActiveVolume(n, a.status) == Home)
  {
  }
}
