/**
 Reconcile cut at its API writes: one function per phase, so that other activity can be
 placed between them. Run back to back the phases are the whole call.
 */
module Phases {
  import opened Prelude
  import opened Api
  import opened Cluster
  import opened Deployment
  import opened Workspace
  import opened Reconcile
  import Resolve

  /** The write phases in order. */
  datatype WritePhase = Identity | Skills | Configuration | Storage | Rollout | Endpoint | Report

  /** Go on to the next phase with the volume to mount, or stop with an outcome. */
  datatype Next = Continue(pvc: string) | Stop(outcome: Outcome)

  function OrStop(ok: bool, pvc: string): Next { if ok then Continue(pvc) else Stop(Error) }

  function RunPhase(ph: WritePhase, sl: Slice, n: string, a: Agent, input: ConfigInput, pvc: string,
                    orders: KeyOrders, faults: Faults): (Slice, Next)
  {
    var owner := OwnerRef(n, a.uid);
    match ph
    case Identity =>
      var (o, ok) := EnsureConfigMap(sl.identity, owner, IdentityData(input.spec.identity), PutIdentity in faults);
      (sl.(identity := o), OrStop(ok, pvc))
    case Skills =>
      var (o, ok) := EnsureConfigMap(sl.skills, owner, SkillsData(input.skills), PutSkills in faults);
      (sl.(skills := o), OrStop(ok, pvc))
    case Configuration =>
      var h := HarnessOf(input);
      var (o, ok) := EnsureConfigMap(sl.Config(h), owner, ConfigData(input, orders), PutConfig in faults);
      (sl.WithConfig(h, o), OrStop(ok, pvc))
    case Storage =>
      var (t, m) := WorkspaceStep(sl, n, a, faults);
      (t, match m case Mount(p) => Continue(p) case Later => Stop(RequeueAfter(5)) case Broken => Stop(Error))
    case Rollout =>
      var (o, ok) := EnsureWorkload(sl.deployment, owner, DeploymentFor(input, pvc), PutDeployment in faults);
      (sl.(deployment := o), OrStop(ok, pvc))
    case Endpoint =>
      var (o, ok) := EnsureService(sl.service, owner, ServiceFor(input), PutService in faults);
      (sl.(service := o), OrStop(ok, pvc))
    case Report =>
      var status := AgentStatus(Phase(sl.deployment), PodName(n, sl.deployment), pvc);
      if status == a.status then (sl, Stop(Done))
      else if PutStatus in faults || sl.agent != Some(a) then (sl, Stop(Error))  // a newer agent is a conflict
      else (sl.(agent := Some(a.(status := status))), Stop(Done))
  }

  function After(ph: WritePhase): WritePhase {
    match ph
    case Identity => Skills
    case Skills => Configuration
    case Configuration => Storage
    case Storage => Rollout
    case Rollout => Endpoint
    case _ => Report
  }

  function Remaining(ph: WritePhase): nat {
    match ph
    case Identity => 6
    case Skills => 5
    case Configuration => 4
    case Storage => 3
    case Rollout => 2
    case Endpoint => 1
    case Report => 0
  }

  /** The phases from `ph` on, without interruption. */
  function RunFrom(ph: WritePhase, sl: Slice, n: string, a: Agent, input: ConfigInput, pvc: string,
                   orders: KeyOrders, faults: Faults): (Slice, Outcome)
    decreases Remaining(ph)
  {
    var (t, next) := RunPhase(ph, sl, n, a, input, pvc, orders, faults);
    match next
    case Stop(outcome) => (t, outcome)
    case Continue(p) =>
      if ph.Report? then (t, Done) else RunFrom(After(ph), t, n, a, input, p, orders, faults)
  }

  lemma PrologueInPhases(sl: Slice, n: string, a: Agent, input: ConfigInput, orders: KeyOrders, faults: Faults)
    ensures var (t, ok) := Prologue(sl, OwnerRef(n, a.uid), input, orders, faults);
            RunFrom(Identity, sl, n, a, input, "", orders, faults)
            == if ok then RunFrom(Storage, t, n, a, input, "", orders, faults) else (t, Error)
  {
    var owner := OwnerRef(n, a.uid);
    var h, data := HarnessOf(input), ConfigData(input, orders);
    var (o1, ok1) := EnsureConfigMap(sl.identity, owner, IdentityData(input.spec.identity), PutIdentity in faults);
    var s1 := sl.(identity := o1);
    assert RunPhase(Identity, sl, n, a, input, "", orders, faults) == (s1, OrStop(ok1, ""));
    if !ok1 { return; }
    var (o2, ok2) := EnsureConfigMap(s1.skills, owner, SkillsData(input.skills), PutSkills in faults);
    var s2 := s1.(skills := o2);
    assert RunPhase(Skills, s1, n, a, input, "", orders, faults) == (s2, OrStop(ok2, ""));
    assert RunFrom(Identity, sl, n, a, input, "", orders, faults)
      == RunFrom(Skills, s1, n, a, input, "", orders, faults);
    if !ok2 { return; }
    assert RunFrom(Skills, s1, n, a, input, "", orders, faults)
      == RunFrom(Configuration, s2, n, a, input, "", orders, faults);
    var (o3, ok3) := EnsureConfigMap(s2.Config(h), owner, data, PutConfig in faults);
    assert RunPhase(Configuration, s2, n, a, input, "", orders, faults) == (s2.WithConfig(h, o3), OrStop(ok3, ""));
  }

  lemma EpilogueInPhases(sl: Slice, n: string, a: Agent, input: ConfigInput, pvc: string, orders: KeyOrders,
                         faults: Faults)
    requires sl.agent == Some(a)
    ensures RunFrom(Rollout, sl, n, a, input, pvc, orders, faults) == Epilogue(sl, n, a, input, pvc, faults)
  {
    var owner := OwnerRef(n, a.uid);
    var (o1, ok1) := EnsureWorkload(sl.deployment, owner, DeploymentFor(input, pvc), PutDeployment in faults);
    var s1 := sl.(deployment := o1);
    assert RunPhase(Rollout, sl, n, a, input, pvc, orders, faults) == (s1, OrStop(ok1, pvc));
    if !ok1 { return; }
    assert RunFrom(Rollout, sl, n, a, input, pvc, orders, faults)
      == RunFrom(Endpoint, s1, n, a, input, pvc, orders, faults);
    var (o2, ok2) := EnsureService(s1.service, owner, ServiceFor(input), PutService in faults);
    var s2 := s1.(service := o2);
    assert RunPhase(Endpoint, s1, n, a, input, pvc, orders, faults) == (s2, OrStop(ok2, pvc));
    if !ok2 { return; }
    assert RunFrom(Endpoint, s1, n, a, input, pvc, orders, faults)
      == RunFrom(Report, s2, n, a, input, pvc, orders, faults);
  }

  /** Uninterrupted, the phases are the Reconcile call that the controller's methods implement. */
  lemma PhasesAreReconcile(sl: Slice, n: string, ns: string, objs: Resolve.Objects, orders: KeyOrders, faults: Faults)
    requires sl.agent.Some?
    ensures RunFrom(Identity, sl, n, sl.agent.value, Resolve.Resolved(objs, n, ns, sl.agent.value.spec), "",
        orders, faults)
            == ReconcileSlice(sl, n, ns, objs, orders, faults)
  {
    var a := sl.agent.value;
    var input := Resolve.Resolved(objs, n, ns, a.spec);
    PrologueInPhases(sl, n, a, input, orders, faults);
    PrologueKeepsRest(sl, OwnerRef(n, a.uid), input, orders, faults);
    var (s1, ok) := Prologue(sl, OwnerRef(n, a.uid), input, orders, faults);
    if ok {
      WorkspaceKeepsAgent(s1, n, a, faults);
      var (s2, m) := WorkspaceStep(s1, n, a, faults);
      if m.Mount? { EpilogueInPhases(s2, n, a, input, m.pvc, orders, faults); }
    }
  }
}
