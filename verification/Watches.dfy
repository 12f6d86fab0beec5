/**
 The watches on an agent and on the objects that carry its owner reference: which changes of
 an agent's slice put the agent back on the work queue.
 */
module Watches {
  import opened Prelude
  import opened Cluster

  predicate NamesOwner(owners: seq<OwnerRef>, n: string) {
    exists i :: 0 <= i < |owners| && owners[i].name == n
  }

  predicate ConfigMapOwned(c: Option<ConfigMap>, n: string) { c.Some? && NamesOwner(c.value.owners, n) }
  predicate WorkloadOwned(w: Option<Workload>, n: string) { w.Some? && NamesOwner(w.value.owners, n) }
  predicate ServiceOwned(s: Option<Service>, n: string) { s.Some? && NamesOwner(s.value.owners, n) }

  /** A change of a ConfigMap re-queues the owner named before or after it. */
  predicate ConfigMapEvent(c: Option<ConfigMap>, d: Option<ConfigMap>, n: string) {
    c != d && (ConfigMapOwned(c, n) || ConfigMapOwned(d, n))
  }

  predicate WorkloadEvent(v: Option<Workload>, w: Option<Workload>, n: string) {
    v != w && (WorkloadOwned(v, n) || WorkloadOwned(w, n))
  }

  predicate ServiceEvent(r: Option<Service>, s: Option<Service>, n: string) {
    r != s && (ServiceOwned(r, n) || ServiceOwned(s, n))
  }

  /** The watches on the agent and on its owned children re-queue the agent. */
  predicate Notifies(x: Slice, y: Slice, n: string) {
    || x.agent != y.agent
    || ConfigMapEvent(x.identity, y.identity, n) || ConfigMapEvent(x.skills, y.skills, n)
    || ConfigMapEvent(x.openclaw, y.openclaw, n) || ConfigMapEvent(x.observeclaw, y.observeclaw, n)
    || ConfigMapEvent(x.hermes, y.hermes, n)
    || WorkloadEvent(x.deployment, y.deployment, n)
    || ServiceEvent(x.service, y.service, n)
  }
}
