/**
 The other controllers of the operator put objects of fixed names into the same namespace. An
 agent's ConfigMaps never meet theirs; its Deployment and Service do for certain agent names,
 and are then overwritten, because ensureResource updates whatever it finds.
 */
module Neighbours {
  import opened Prelude
  import opened Api
  import opened Names
  import opened Cluster
  import opened Deployment
  import opened Workspace
  import opened Reconcile
  import opened Complete
  import Resolve
  import Text

  /** A Deployment with its Service: a gateway's proxy and model server, and the telemetry stack. */
  datatype Neighbour = Proxy(gateway: string) | Ollama(gateway: string) | Tempo | Grafana

  const PROXY_SUFFIX := "-gateway"
  const OLLAMA_SUFFIX := "-ollama"
  const TEMPO := "tempo"
  const GRAFANA := "grafana"

  function WorkloadName(nb: Neighbour): string {
    match nb
    case Proxy(gateway) => gateway + PROXY_SUFFIX
    case Ollama(gateway) => gateway + OLLAMA_SUFFIX
    case Tempo => TEMPO
    case Grafana => GRAFANA
  }

  /** The port of a gateway's Service. */
  function ProxyPort(gateway: GatewaySpec): int { if gateway.port == 0 then 8443 else gateway.port }

  /** The address an agent calls its gateway by is that of the Service the gateway's controller makes. */
  lemma GatewayAddressed(objs: Resolve.Objects, n: string, ns: string, spec: AgentSpec, gateway: GatewaySpec)
    requires spec.gateway != "" && Lookup(objs, GatewayRef(spec.gateway)) == Some(GatewayObject(gateway))
    ensures Resolve.Resolved(objs, n, ns, spec).gatewayURL
            == "http://" + WorkloadName(Proxy(spec.gateway)) + "." + ns + ".svc.cluster.local:"
               + Text.Decimal(ProxyPort(gateway))
  {
    assert "http://" + spec.gateway + "-gateway." + ns == "http://" + (spec.gateway + "-gateway") + "." + ns;
  }

  predicate EndsIn(name: string, suffix: string) {
    |suffix| <= |name| && name[|name| - |suffix|..] == suffix
  }

  /** An agent name no other controller uses for a Deployment or Service, checked on the name alone. */
  predicate SafeName(name: string) {
    !EndsIn(name, PROXY_SUFFIX) && !EndsIn(name, OLLAMA_SUFFIX) && name != TEMPO && name != GRAFANA
  }

  lemma EndsInExactly(name: string, suffix: string)
    ensures EndsIn(name, suffix) <==> exists x: string :: name == x + suffix
  {
    if EndsIn(name, suffix) { assert name == name[..|name| - |suffix|] + suffix; }
    if x: string :| name == x + suffix { assert name[|name| - |suffix|..] == suffix; }
  }

  /**
   The agent shares no Deployment or Service with another controller, whatever gateways there are, iff its
   name is safe.
   */
  lemma SafeNameExactly(name: string)
    ensures SafeName(name) <==> forall nb :: name != WorkloadName(nb)
  {
    EndsInExactly(name, PROXY_SUFFIX);
    EndsInExactly(name, OLLAMA_SUFFIX);
    if EndsIn(name, PROXY_SUFFIX) {
      var x: string :| name == x + PROXY_SUFFIX;
      assert name == WorkloadName(Proxy(x));
    }
    if EndsIn(name, OLLAMA_SUFFIX) {
      var x: string :| name == x + OLLAMA_SUFFIX;
      assert name == WorkloadName(Ollama(x));
    }
    assert WorkloadName(Tempo) == TEMPO && WorkloadName(Grafana) == GRAFANA;
  }

  /** The ConfigMaps of the other controllers, by what they end in. */
  datatype NeighbourText = Script(gateway: string) | TempoConfig | Datasources | Dashboards | DashboardJson

  function TextName(t: NeighbourText): string {
    match t
    case Script(gateway) => gateway + "-gateway-script"
    case TempoConfig => "tempo-config"
    case Datasources => "grafana-datasources"
    case Dashboards => "grafana-dashboards"
    case DashboardJson => "grafana-dashboard-json"
  }

  /** No agent's ConfigMap is one of them, whatever the agent and the gateways are called. */
  lemma TextsNeverMeet(agent: string, suffix: string, t: NeighbourText)
    requires suffix in CONFIG_MAP_SUFFIXES
    ensures agent + suffix != TextName(t)
  {
    assert FromEnd(agent + suffix, 0) == FromEnd(suffix, 0);
    assert FromEnd(agent + suffix, 2) == FromEnd(suffix, 2);
  }

  /** What a complete call does to a Deployment it found under the agent's name, whoever made it. */
  lemma FoundIsOverwritten(sl: Slice, n: string, ns: string, objs: Resolve.Objects, orders: KeyOrders, faults: Faults)
    requires sl.agent.Some? && sl.deployment.Some?
    ensures var (t, outcome) := ReconcileSlice(sl, n, ns, objs, orders, faults);
            outcome == Done ==>
              && t.agent.Some? && t.deployment.Some? && t.deployment.value.owners == sl.deployment.value.owners
              && t.deployment.value.spec == DeploymentFor(Resolve.Resolved(objs, n, ns, sl.agent.value.spec),
                                                          t.agent.value.status.workspacePVC)
  {
    var (t, outcome) := ReconcileSlice(sl, n, ns, objs, orders, faults);
    var a := sl.agent.value;
    var input := Resolve.Resolved(objs, n, ns, a.spec);
    DoneIsComplete(sl, n, ns, objs, orders, faults);
    if outcome == Done {
      var s1 := Prologue(sl, OwnerRef(n, a.uid), input, orders, faults).0;
      PrologueKeepsRest(sl, OwnerRef(n, a.uid), input, orders, faults);
      var (s2, m) := WorkspaceStep(s1, n, a, faults);
      StorageKeepsOwners(s1, n, a, faults);
      EndsWithDeployment(s2, n, a, input, m.pvc, t);
      EndKeepsOwners(s2, n, a, input, m.pvc, t);
    }
  }

  lemma StorageKeepsOwners(s1: Slice, n: string, a: Agent, faults: Faults)
    requires s1.deployment.Some?
    ensures var (s2, _) := WorkspaceStep(s1, n, a, faults);
            s2.deployment.Some? && s2.deployment.value.owners == s1.deployment.value.owners
  {
  }

  lemma EndKeepsOwners(s2: Slice, n: string, a: Agent, input: ConfigInput, pvc: string, t: Slice)
    requires s2.deployment.Some? && EndsMounted(s2, n, a, input, pvc, t)
    ensures t.deployment.Some? && t.deployment.value.owners == s2.deployment.value.owners
  {
  }
}
