/**
 Garbage collection by owner references, on one agent's slice: an object goes once it has owners
 and all of them are gone. The agent's own reference counts as long as the agent exists.
 */
module Collector {
  import opened Prelude
  import opened Cluster

  predicate Collectable(owners: seq<OwnerRef>, live: set<nat>) {
    owners != [] && forall i :: 0 <= i < |owners| ==> owners[i].uid !in live
  }

  function KeepPVC(p: Option<PVC>, live: set<nat>): Option<PVC> {
    if p.Some? && Collectable(p.value.owners, live) then None else p
  }

  function KeepConfigMap(c: Option<ConfigMap>, live: set<nat>): Option<ConfigMap> {
    if c.Some? && Collectable(c.value.owners, live) then None else c
  }

  function KeepWorkload(w: Option<Workload>, live: set<nat>): Option<Workload> {
    if w.Some? && Collectable(w.value.owners, live) then None else w
  }

  function KeepService(s: Option<Service>, live: set<nat>): Option<Service> {
    if s.Some? && Collectable(s.value.owners, live) then None else s
  }

  /** The objects alive besides the agent, and the agent while it exists. */
  function Live(sl: Slice, others: set<nat>): set<nat> {
    if sl.agent.Some? then others + {sl.agent.value.uid} else others
  }

  /** The collector's effect on a slice; the migration pod never has an owner. */
  function Collected(sl: Slice, others: set<nat>): Slice {
    var live := Live(sl, others);
    sl.(identity := KeepConfigMap(sl.identity, live), skills := KeepConfigMap(sl.skills, live),
        openclaw := KeepConfigMap(sl.openclaw, live), observeclaw := KeepConfigMap(sl.observeclaw, live),
        hermes := KeepConfigMap(sl.hermes, live),
        deployment := KeepWorkload(sl.deployment, live), service := KeepService(sl.service, live),
        home := KeepPVC(sl.home, live), homeV2 := KeepPVC(sl.homeV2, live))
  }

  /** The agent is among the owners, or there are none. */
  predicate Held(p: Option<PVC>, uid: nat) {
    p.Some? && p.value.owners != [] ==> exists i :: 0 <= i < |p.value.owners| && p.value.owners[i].uid == uid
  }

  /** Both volumes are safe from the collector while the agent exists. */
  predicate VolumesHeld(sl: Slice) {
    sl.agent.Some? ==> Held(sl.home, sl.agent.value.uid) && Held(sl.homeV2, sl.agent.value.uid)
  }

  /** Volumes the agent holds are not collected while it exists, whatever else is alive. */
  lemma HeldVolumesStay(sl: Slice, others: set<nat>)
    requires sl.agent.Some? && VolumesHeld(sl)
    ensures Collected(sl, others).home == sl.home && Collected(sl, others).homeV2 == sl.homeV2
  {
  }
}
