/**
 Runs in which the workspace mode changes. An ephemeral pass deletes the volumes and leaves the
 migration pod, so a pod that had already succeeded can later pass for the migration of volumes
 it has never seen. This module follows the two facts that matter about the pod in place and
 says exactly when the original volume is taken away safely.
 */
module Modes {
  import opened Prelude
  import opened Api
  import opened Cluster
  import opened Workspace
  import opened Reconcile
  import opened Collector
  import opened Runs
  import Resolve

  predicate Finished(sl: Slice) { sl.pod.Some? && sl.pod.value.phase.Succeeded? }

  /**
   About the pod in place: whether it succeeded after the present resized volume was made, and
   whether an ephemeral pass went through after it had succeeded.
   */
  datatype Flags = Flags(copied: bool, leftOver: bool)

  const NO_POD: Flags := Flags(false, false)

  /** The flags after a change of the slice; `cleaned` says that it was an ephemeral pass going through. */
  function NextFlags(f: Flags, sl: Slice, t: Slice, cleaned: bool): Flags {
    if !Finished(t) then NO_POD
    else if !Finished(sl) then Flags(true, false)
    else Flags(f.copied && !(sl.homeV2.None? && t.homeV2.Some?), f.leftOver || cleaned)
  }

  /** A succeeded pod without its volume is left over, and with one it has copied it iff it is not. */
  predicate FlagsOk(sl: Slice, f: Flags) {
    Finished(sl) ==> if sl.homeV2.None? then f.leftOver else f.copied <==> !f.leftOver
  }

  /** A pod succeeds only on a volume, and only an ephemeral pass takes the volume from a succeeded pod. */
  predicate PodsFollow(sl: Slice, t: Slice, cleaned: bool) {
    && (Finished(t) && !Finished(sl) ==> t.homeV2.Some?)
    && (Finished(t) && Finished(sl) && sl.homeV2.Some? && t.homeV2.None? ==> cleaned)
    && (cleaned ==> t.homeV2.None?)
  }

  lemma FlagsStayOk(f: Flags, sl: Slice, t: Slice, cleaned: bool)
    requires FlagsOk(sl, f) && PodsFollow(sl, t, cleaned)
    ensures FlagsOk(t, NextFlags(f, sl, t, cleaned))
  {
  }

  // ------------------------------------------------------------- what holds in any mode

  /** What holds until the first switch, whatever the mode. */
  predicate Unswitched(sl: Slice, n: string) {
    && sl.agent.Some? && StatusOk(n, sl.agent.value.status) && ActiveVolume(n, sl.agent.value.status) == Home
    && (sl.pod.Some? ==> sl.pod.value.src == VolName(n, Home) && sl.pod.value.dst == VolName(n, HomeV2))
    && (sl.homeV2.Some? ==> sl.home.Some? && sl.homeV2.value.size > sl.home.value.size)
    && VolumesHeld(sl)
  }

  predicate Ephemeral(sl: Slice) { sl.agent.Some? && !sl.agent.value.spec.workspace.IsPersistent() }

  /** An ephemeral pass either deletes both volumes or neither, keeps the pod, and forgets the name or nothing. */
  predicate EphemeralEffect(sl: Slice, t: Slice) {
    && t.pod == sl.pod && t.agent.Some? && sl.agent.Some? && t.agent.value.uid == sl.agent.value.uid
    && (t.agent.value.status == sl.agent.value.status || t.agent.value.status.workspacePVC == "")
    && ((t.home == sl.home && t.homeV2 == sl.homeV2) || (t.home.None? && t.homeV2.None?))
  }

  lemma AfterPrologueEphemeral(s1: Slice, n: string, a: Agent, input: ConfigInput, faults: Faults)
    requires s1.agent == Some(a) && !a.spec.workspace.IsPersistent()
    requires DeleteHomeV2 !in faults
    ensures EphemeralEffect(s1, AfterPrologue(s1, n, a, input, faults).0)
  {
    var (s2, m) := WorkspaceStep(s1, n, a, faults);
    WorkspaceKeepsAgent(s1, n, a, faults);
    if m.Mount? { EpilogueKeepsVolumes(s2, n, a, input, m.pvc, faults); }
  }

  lemma EphemeralPass(sl: Slice, n: string, ns: string, objs: Resolve.Objects, orders: KeyOrders, faults: Faults)
    requires Ephemeral(sl) && DeleteHomeV2 !in faults
    ensures EphemeralEffect(sl, ReconcileSlice(sl, n, ns, objs, orders, faults).0)
  {
    var a := sl.agent.value;
    var input := Resolve.Resolved(objs, n, ns, a.spec);
    var (s1, ok) := Prologue(sl, OwnerRef(n, a.uid), input, orders, faults);
    PrologueKeepsRest(sl, OwnerRef(n, a.uid), input, orders, faults);
    if ok { AfterPrologueEphemeral(s1, n, a, input, faults); }
  }

  /** A persistent pass that does not switch keeps the invariant, and what it makes of the pod is in order. */
  lemma PersistentKeeps(sl: Slice, n: string, t: Slice, outcome: Outcome, faults: Faults)
    requires Unswitched(sl, n) && !Ephemeral(sl) && Effect(sl, n, t, outcome, faults)
    requires sl.home.Some? ==> t.home.Some?
    ensures Unswitched(t, n) && PodsFollow(sl, t, false)
  {
    OwnNamesDistinct(n);
    EnsurePVCKeepsHeld(sl, n, sl.agent.value, faults);
  }

  lemma EphemeralKeeps(sl: Slice, n: string, t: Slice)
    requires Unswitched(sl, n) && EphemeralEffect(sl, t)
    ensures Unswitched(t, n) && PodsFollow(sl, t, t.home.None? && t.homeV2.None?)
  {
    OwnNamesDistinct(n);
    assert VolName(n, HomeV2) != "" by { assert |VolName(n, HomeV2)| > 0; }
  }

  /** Edits, pods, writes and the collector keep the invariant in every mode. */
  lemma OtherEventsKeep(sl: Slice, n: string, ns: string, ev: Event)
    requires Unswitched(sl, n) && !ev.Reconciled?
    ensures var t := Step(sl, n, ns, ev);
            && Unswitched(t, n) && PodsFollow(sl, t, false) && (sl.home.Some? <==> t.home.Some?)
            && t.agent.value.uid == sl.agent.value.uid && t.agent.value.status == sl.agent.value.status
  {
    OwnNamesDistinct(n);
    if ev.GarbageCollected? { HeldVolumesStay(sl, ev.others); }
  }

  /** A switch, in any mode's history: the persistent pass finds the safe state. */
  lemma SwitchIsSafe(sl: Slice, n: string, t: Slice, outcome: Outcome, faults: Faults)
    requires Unswitched(sl, n) && !Ephemeral(sl) && Effect(sl, n, t, outcome, faults)
    requires sl.home.Some? && t.home.None?
    ensures SafeToDrop(sl, n) && t.homeV2 == sl.homeV2
  {
    OwnNamesDistinct(n);
    DeletionIsGuarded(sl, n, sl.agent.value, faults);
  }

  // ------------------------------------------------------------------------- runs

  /** An ephemeral pass that gets through its clean-up. */
  predicate CleansUp(sl: Slice, n: string, ns: string, ev: Event) {
    ev.Reconciled? && Ephemeral(sl) && Step(sl, n, ns, ev).home.None? && Step(sl, n, ns, ev).homeV2.None?
  }

  /** A persistent pass that takes the original volume. */
  predicate Switches(sl: Slice, n: string, ns: string, ev: Event) {
    ev.Reconciled? && !Ephemeral(sl) && DropsHome(sl, n, ns, ev)
  }

  /** An ephemeral clean-up does not stop between its two deletions. */
  predicate WholeCleanUp(sl: Slice, ev: Event) { ev.Reconciled? && Ephemeral(sl) ==> DeleteHomeV2 !in ev.faults }

  /** No event of the run switches, and no clean-up stops half-way. */
  predicate UpToTheSwitch(sl: Slice, n: string, ns: string, evs: seq<Event>) {
    evs == []
    || (var before := Run(sl, n, ns, evs[..|evs| - 1]);
        var ev := evs[|evs| - 1];
        UpToTheSwitch(sl, n, ns, evs[..|evs| - 1]) && !Switches(before, n, ns, ev) && WholeCleanUp(before, ev))
  }

  /** The flags at the end of a run that starts without a pod. */
  function FlagsOf(sl: Slice, n: string, ns: string, evs: seq<Event>): Flags {
    if evs == [] then NO_POD
    else
      var before := Run(sl, n, ns, evs[..|evs| - 1]);
      var ev := evs[|evs| - 1];
      NextFlags(FlagsOf(sl, n, ns, evs[..|evs| - 1]), before, Step(before, n, ns, ev), CleansUp(before, n, ns, ev))
  }

  lemma PassKeeps(sl: Slice, n: string, ns: string, ev: Event)
    requires Unswitched(sl, n) && ev.Reconciled? && !Switches(sl, n, ns, ev) && WholeCleanUp(sl, ev)
    ensures Unswitched(Step(sl, n, ns, ev), n) && PodsFollow(sl, Step(sl, n, ns, ev), CleansUp(sl, n, ns, ev))
  {
    var (t, outcome) := ReconcileSlice(sl, n, ns, ev.objs, ev.orders, ev.faults);
    if Ephemeral(sl) {
      EphemeralPass(sl, n, ns, ev.objs, ev.orders, ev.faults);
      EphemeralKeeps(sl, n, t);
    } else {
      ReconcileWorkspace(sl, n, ns, ev.objs, ev.orders, ev.faults);
      PersistentKeeps(sl, n, t, outcome, ev.faults);
    }
  }

  lemma EventKeeps(sl: Slice, n: string, ns: string, ev: Event)
    requires Unswitched(sl, n) && !Switches(sl, n, ns, ev) && WholeCleanUp(sl, ev)
    ensures Unswitched(Step(sl, n, ns, ev), n) && PodsFollow(sl, Step(sl, n, ns, ev), CleansUp(sl, n, ns, ev))
  {
    if ev.Reconciled? { PassKeeps(sl, n, ns, ev); } else { OtherEventsKeep(sl, n, ns, ev); }
  }

  /** The invariant and the meaning of the flags, over every run up to the switch. */
  lemma {:induction false} RunKeepsUnswitched(sl: Slice, n: string, ns: string, evs: seq<Event>)
    requires Unswitched(sl, n) && sl.pod.None? && UpToTheSwitch(sl, n, ns, evs)
    ensures Unswitched(Run(sl, n, ns, evs), n) && FlagsOk(Run(sl, n, ns, evs), FlagsOf(sl, n, ns, evs))
  {
    if evs != [] {
      var init, ev := evs[..|evs| - 1], evs[|evs| - 1];
      RunKeepsUnswitched(sl, n, ns, init);
      var before := Run(sl, n, ns, init);
      EventKeeps(before, n, ns, ev);
      FlagsStayOk(FlagsOf(sl, n, ns, init), before, Step(before, n, ns, ev), CleansUp(before, n, ns, ev));
    }
  }

  /** The event takes the volume as it should: an ephemeral pass, or a persistent one in the safe state. */
  predicate ProperDrop(before: Slice, n: string, ns: string, f: Flags, last: Event) {
    && last.Reconciled?
    && (!Ephemeral(before) ==>
          && SafeToDrop(before, n) && Step(before, n, ns, last).homeV2 == before.homeV2
          && (f.copied <==> !f.leftOver))
  }

  lemma DropIsProper(before: Slice, n: string, ns: string, f: Flags, last: Event)
    requires Unswitched(before, n) && FlagsOk(before, f)
    ensures DropsHome(before, n, ns, last) ==> ProperDrop(before, n, ns, f, last)
  {
    if !last.Reconciled? {
      OtherEventsKeep(before, n, ns, last);
    } else if !Ephemeral(before) && DropsHome(before, n, ns, last) {
      var (t, outcome) := ReconcileSlice(before, n, ns, last.objs, last.orders, last.faults);
      ReconcileWorkspace(before, n, ns, last.objs, last.orders, last.faults);
      SwitchIsSafe(before, n, t, outcome, last.faults);
    }
  }

  /**
   No premature deletion, whatever the modes: in every run that starts without a pod, under any
   edits of spec and mode, garbage collection, interference with the Deployment and failing
   writes, `name-home` is only taken away by a reconcile. While the agent is persistent that
   reconcile finds the larger resized volume in place, the pod from the original to the resized
   volume succeeded and the Deployment absent or at zero; and the pod succeeded after the resized
   volume was made iff no ephemeral pass went through after the pod had succeeded.
   */
  lemma NoPrematureDeletion(sl: Slice, n: string, ns: string, evs: seq<Event>, last: Event)
    requires Unswitched(sl, n) && sl.pod.None? && UpToTheSwitch(sl, n, ns, evs)
    ensures var before := Run(sl, n, ns, evs);
            DropsHome(before, n, ns, last) ==> ProperDrop(before, n, ns, FlagsOf(sl, n, ns, evs), last)
  {
    RunKeepsUnswitched(sl, n, ns, evs);
    DropIsProper(Run(sl, n, ns, evs), n, ns, FlagsOf(sl, n, ns, evs), last);
  }

  // --------------------------------------------------------------- what the flags say

  /** The pod has succeeded after `j` events; event `i` is an ephemeral pass that goes through. */
  predicate FinishedAt(sl: Slice, n: string, ns: string, evs: seq<Event>, j: nat) {
    j <= |evs| && Finished(Run(sl, n, ns, evs[..j]))
  }

  predicate CleansAt(sl: Slice, n: string, ns: string, evs: seq<Event>, i: nat) {
    i < |evs| && CleansUp(Run(sl, n, ns, evs[..i]), n, ns, evs[i])
  }

  /** Some earlier moment cleans up under a succeeded pod that has stayed since. */
  ghost predicate Met(finished: nat -> bool, cleans: nat -> bool, k: nat) {
    exists i: nat :: i < k && cleans(i) && forall j: nat :: i <= j <= k ==> finished(j)
  }

  lemma MetGrows(finished: nat -> bool, cleans: nat -> bool, k: nat)
    ensures Met(finished, cleans, k + 1) <==> finished(k + 1) && finished(k) && (Met(finished, cleans, k) || cleans(k))
  {
    if Met(finished, cleans, k + 1) {
      var i: nat :| i < k + 1 && cleans(i) && forall j: nat :: i <= j <= k + 1 ==> finished(j);
      assert i == k || Met(finished, cleans, k);
    }
  }

  lemma {:induction false} LeftOverIsMet(sl: Slice, n: string, ns: string, evs: seq<Event>, finished: nat -> bool,
                                         cleans: nat -> bool, k: nat)
    requires k <= |evs|
    requires forall j: nat :: finished(j) == FinishedAt(sl, n, ns, evs, j)
    requires forall i: nat :: cleans(i) == CleansAt(sl, n, ns, evs, i)
    ensures FlagsOf(sl, n, ns, evs[..k]).leftOver <==> Met(finished, cleans, k)
  {
    if k > 0 {
      LeftOverIsMet(sl, n, ns, evs, finished, cleans, k - 1);
      MetGrows(finished, cleans, k - 1);
      LeftOverGrows(sl, n, ns, evs, k - 1);
    }
  }

  lemma LeftOverGrows(sl: Slice, n: string, ns: string, evs: seq<Event>, k: nat)
    requires k < |evs|
    ensures FlagsOf(sl, n, ns, evs[..k + 1]).leftOver
            <==> FinishedAt(sl, n, ns, evs, k + 1) && FinishedAt(sl, n, ns, evs, k)
                 && (FlagsOf(sl, n, ns, evs[..k]).leftOver || CleansAt(sl, n, ns, evs, k))
  {
    assert evs[..k + 1][..k] == evs[..k] && evs[..k + 1][k] == evs[k];
  }

  /** A pod is left over iff some ephemeral pass went through when it had succeeded, and it has stayed since. */
  lemma LeftOverExactly(sl: Slice, n: string, ns: string, evs: seq<Event>)
    ensures FlagsOf(sl, n, ns, evs).leftOver
            <==> Met((j: nat) => FinishedAt(sl, n, ns, evs, j), (i: nat) => CleansAt(sl, n, ns, evs, i), |evs|)
  {
    assert evs[..|evs|] == evs;
    LeftOverIsMet(sl, n, ns, evs, (j: nat) => FinishedAt(sl, n, ns, evs, j), (i: nat) => CleansAt(sl, n, ns, evs, i),
                  |evs|);
  }

  // ------------------------------------------------------------------ persistent runs

  /** A run that stays persistent up to the switch never leaves a pod over. */
  lemma {:induction false} PersistentLeavesNoPod(sl: Slice, n: string, ns: string, evs: seq<Event>)
    requires Unswitched(sl, n) && !Ephemeral(sl) && sl.pod.None? && KeepsHome(sl, n, ns, evs)
    requires forall i :: 0 <= i < |evs| ==> Persistent(evs[i])
    ensures UpToTheSwitch(sl, n, ns, evs) && !Ephemeral(Run(sl, n, ns, evs)) && !FlagsOf(sl, n, ns, evs).leftOver
  {
    if evs != [] {
      var init, ev := evs[..|evs| - 1], evs[|evs| - 1];
      PersistentLeavesNoPod(sl, n, ns, init);
      RunKeepsUnswitched(sl, n, ns, init);
      StaysPersistent(Run(sl, n, ns, init), n, ns, ev);
    }
  }

  lemma StaysPersistent(sl: Slice, n: string, ns: string, ev: Event)
    requires sl.agent.Some? && !Ephemeral(sl) && Persistent(ev)
    ensures !Ephemeral(Step(sl, n, ns, ev))
  {
    if ev.Reconciled? { ReconcileWorkspace(sl, n, ns, ev.objs, ev.orders, ev.faults); }
  }

  /**
   In a run that stays persistent the first event to take `name-home` away is a reconcile in the
   safe state, and the pod it finds has succeeded since the resized volume was made.
   */
  lemma PersistentRunsCopy(sl: Slice, n: string, ns: string, evs: seq<Event>, last: Event)
    requires Initial(sl, n) && KeepsHome(sl, n, ns, evs)
    requires forall i :: 0 <= i < |evs| ==> Persistent(evs[i])
    ensures var before := Run(sl, n, ns, evs);
            DropsHome(before, n, ns, last) ==>
              && last.Reconciled? && SafeToDrop(before, n) && Step(before, n, ns, last).homeV2 == before.homeV2
              && FlagsOf(sl, n, ns, evs).copied
  {
    PersistentLeavesNoPod(sl, n, ns, evs);
    NoPrematureDeletion(sl, n, ns, evs, last);
  }

  // ------------------------------------------------------------------- what is copied

  predicate Within(f: map<string, string>, g: map<string, string>) {
    forall p :: p in f ==> p in g && f[p] == g[p]
  }

  /**
   The resized volume holds part of the original; under a succeeded pod all of it or, if that is not its copy,
   nothing.
   */
  predicate Follows(sl: Slice, f: Flags) {
    sl.home.Some? && sl.homeV2.Some? ==>
      && Within(sl.homeV2.value.files, sl.home.value.files)
      && (Finished(sl) ==> sl.homeV2.value.files == if f.copied then sl.home.value.files else map[])
  }

  /** The agent does not write while the resized volume exists. */
  predicate Quiet(sl: Slice, ev: Event) { ev.AgentWrote? ==> sl.homeV2.None? }

  predicate QuietRun(sl: Slice, n: string, ns: string, evs: seq<Event>) {
    evs == []
    || (QuietRun(sl, n, ns, evs[..|evs| - 1]) && Quiet(Run(sl, n, ns, evs[..|evs| - 1]), evs[|evs| - 1]))
  }

  lemma PersistentFollows(sl: Slice, n: string, t: Slice, outcome: Outcome, faults: Faults, f: Flags)
    requires Unswitched(sl, n) && !Ephemeral(sl) && Follows(sl, f) && Effect(sl, n, t, outcome, faults)
    requires sl.home.Some? ==> t.home.Some?
    ensures Follows(t, NextFlags(f, sl, t, false))
  {
    OwnNamesDistinct(n);
  }

  lemma EphemeralFollows(sl: Slice, t: Slice, f: Flags, cleaned: bool)
    requires Follows(sl, f) && EphemeralEffect(sl, t)
    ensures Follows(t, NextFlags(f, sl, t, cleaned))
  {
  }

  lemma PodFollows(sl: Slice, n: string, paths: set<string>, f: Flags)
    requires Unswitched(sl, n) && Follows(sl, f) && PodActive(sl, n)
    ensures var t := Copied(sl, n, paths);
            && t.home == sl.home && t.home.Some? && t.homeV2.Some? && Within(t.homeV2.value.files, sl.home.value.files)
            && (paths == sl.home.value.files.Keys ==> t.homeV2.value.files == sl.home.value.files)
  {
    OwnNamesDistinct(n);
  }

  lemma OtherEventsFollow(sl: Slice, n: string, ns: string, ev: Event, f: Flags)
    requires Unswitched(sl, n) && Follows(sl, f) && !ev.Reconciled? && Quiet(sl, ev)
    ensures Follows(Step(sl, n, ns, ev), NextFlags(f, sl, Step(sl, n, ns, ev), false))
  {
    OwnNamesDistinct(n);
    match ev
    case PodCopied(paths) => if PodActive(sl, n) { PodFollows(sl, n, paths, f); }
    case PodSucceeded => if PodActive(sl, n) { PodFollows(sl, n, sl.home.value.files.Keys, f); }
    case GarbageCollected(others) => HeldVolumesStay(sl, others);
    case _ =>
  }

  lemma EventFollows(sl: Slice, n: string, ns: string, ev: Event, f: Flags)
    requires Unswitched(sl, n) && Follows(sl, f) && Quiet(sl, ev)
    requires !Switches(sl, n, ns, ev) && WholeCleanUp(sl, ev)
    ensures Follows(Step(sl, n, ns, ev), NextFlags(f, sl, Step(sl, n, ns, ev), CleansUp(sl, n, ns, ev)))
  {
    if !ev.Reconciled? {
      OtherEventsFollow(sl, n, ns, ev, f);
    } else {
      var (t, outcome) := ReconcileSlice(sl, n, ns, ev.objs, ev.orders, ev.faults);
      if Ephemeral(sl) {
        EphemeralPass(sl, n, ns, ev.objs, ev.orders, ev.faults);
        EphemeralFollows(sl, t, f, CleansUp(sl, n, ns, ev));
      } else {
        ReconcileWorkspace(sl, n, ns, ev.objs, ev.orders, ev.faults);
        PersistentFollows(sl, n, t, outcome, ev.faults, f);
      }
    }
  }

  lemma {:induction false} RunFollows(sl: Slice, n: string, ns: string, evs: seq<Event>)
    requires Unswitched(sl, n) && sl.pod.None? && sl.homeV2.None?
    requires UpToTheSwitch(sl, n, ns, evs) && QuietRun(sl, n, ns, evs)
    ensures Follows(Run(sl, n, ns, evs), FlagsOf(sl, n, ns, evs))
  {
    if evs != [] {
      var init := evs[..|evs| - 1];
      RunFollows(sl, n, ns, init);
      RunKeepsUnswitched(sl, n, ns, init);
      EventFollows(Run(sl, n, ns, init), n, ns, evs[|evs| - 1], FlagsOf(sl, n, ns, init));
    }
  }

  /**
   In a run in which the agent stays quiet while the resized volume exists, however often the
   migration fails and the mode changes, the switch keeps every file iff there are none or the
   succeeded pod was not left over by an ephemeral pass.
   */
  lemma SwitchKeepsFilesExactly(sl: Slice, n: string, ns: string, evs: seq<Event>, last: Event)
    requires Unswitched(sl, n) && sl.pod.None? && sl.homeV2.None?
    requires UpToTheSwitch(sl, n, ns, evs) && QuietRun(sl, n, ns, evs)
    ensures var before := Run(sl, n, ns, evs);
            Switches(before, n, ns, last) ==>
              && before.home.Some? && Step(before, n, ns, last).homeV2.Some?
              && (Step(before, n, ns, last).homeV2.value.files == before.home.value.files
                  <==> !FlagsOf(sl, n, ns, evs).leftOver || before.home.value.files == map[])
  {
    RunFollows(sl, n, ns, evs);
    NoPrematureDeletion(sl, n, ns, evs, last);
  }
}
