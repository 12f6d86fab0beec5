/**
 Convergence over every run. Workers take keys from the queue, read the agent and each of its
 references separately, and write one child at a time, while users and other controllers
 change anything in between. The invariant: every live agent is queued or will be, or is being
 processed on what is still current, or has exactly the children Reconcile would build now.
 */
module Convergence {
  import opened Prelude
  import opened Api
  import opened Cluster
  import opened Deployment
  import opened Workspace
  import opened Reconcile
  import opened Phases
  import opened Watches
  import Resolve
  import Fixpoint

  // ------------------------------------------------------------------- protocol

  /** What a worker holds while it processes one key. */
  datatype Task =
    | Started
    | Reading(agent: Agent, seen: map<Ref, Object>, read: set<Ref>)
    | Writing(agent: Agent, input: ConfigInput, phase: WritePhase, pvc: string)

  /** The store with the work queue: `dirty` keys are queued unless busy, `delayed` ones come back later. */
  datatype System = System(store: Store, dirty: set<string>, delayed: set<string>, busy: map<string, Task>)

  datatype Label =
    | Take(n: string)
    | FetchAgent(n: string)
    | FetchRef(n: string, r: Ref)
    | Decide(n: string)
    | Write(n: string, orders: KeyOrders, faults: Faults)
    | Wake(n: string)
    | AgentEdited(n: string, agent: Option<Agent>)
    | ObjectEdited(r: Ref, o: Option<Object>)
    | ChildEdited(n: string, slice: Slice)

  /** Third parties change volumes and pods at will, and watched children only while they are owned. */
  predicate ThirdParty(x: Slice, y: Slice, n: string) {
    && x.agent == y.agent
    && (Notifies(x, y, n)
        || (x.identity == y.identity && x.skills == y.skills && x.openclaw == y.openclaw
            && x.observeclaw == y.observeclaw && x.hermes == y.hermes
            && x.deployment == y.deployment && x.service == y.service))
  }

  /** Replaces an agent's slice and queues it when a watch fires. */
  function Replace(sys: System, n: string, y: Slice): System {
    sys.(store := Put(sys.store, n, y),
         dirty := if Notifies(Get(sys.store, n), y, n) then sys.dirty + {n} else sys.dirty)
  }

  /** After a write phase: go on, finish, or come back later. */
  function Conclude(sys: System, n: string, task: Task, t: Slice, next: Phases.Next): System
    requires task.Writing?
  {
    var s := Replace(sys, n, t);
    match next
    case Continue(pvc) => s.(busy := s.busy[n := task.(phase := After(task.phase), pvc := pvc)])
    case Stop(outcome) =>
      s.(busy := s.busy - {n}, delayed := if outcome == Done then s.delayed else s.delayed + {n})
  }

  /** One write phase of the worker that processes `n`. */
  function WriteStep(sys: System, n: string, task: Task, orders: KeyOrders, faults: Faults): System
    requires task.Writing?
  {
    var (t, next) := RunPhase(task.phase, Get(sys.store, n), n, task.agent, task.input, task.pvc, orders, faults);
    Conclude(sys, n, task, t, next)
  }

  /** The worker reads its agent; a missing one ends the call. */
  function Fetched(sys: System, n: string): System {
    if n !in sys.busy || !sys.busy[n].Started? then sys
    else if n in sys.store.agents then sys.(busy := sys.busy[n := Reading(sys.store.agents[n], map[], {})])
    else sys.(busy := sys.busy - {n})
  }

  /** One step; a label that is not enabled does nothing. */
  ghost function Next(sys: System, l: Label): System {
    match l
    case Take(n) =>
      if n in sys.dirty && n !in sys.busy then sys.(dirty := sys.dirty - {n}, busy := sys.busy[n := Started]) else sys
    case FetchAgent(n) => Fetched(sys, n)
    case FetchRef(n, r) =>
      if n in sys.busy && sys.busy[n].Reading? && r in Resolve.Refs(sys.busy[n].agent.spec)
      then sys.(busy := sys.busy[n := sys.busy[n].(seen := Assign(sys.busy[n].seen, r, Lookup(sys.store.objects, r)),
                                                    read := sys.busy[n].read + {r})])
      else sys
    case Decide(n) =>
      if n in sys.busy && sys.busy[n].Reading? && sys.busy[n].read == Resolve.Refs(sys.busy[n].agent.spec)
      then
        var a := sys.busy[n].agent;
        sys.(busy := sys.busy[n := Writing(a, Resolve.Resolved(sys.busy[n].seen, n, sys.store.ns, a.spec),
          Identity, "")])
      else sys
    case Write(n, orders, faults) =>
      if n in sys.busy && sys.busy[n].Writing? && ValidOrders(orders, sys.busy[n].input.channels)
      then WriteStep(sys, n, sys.busy[n], orders, faults)
      else sys
    case Wake(n) =>
      if n in sys.delayed then sys.(delayed := sys.delayed - {n}, dirty := sys.dirty + {n}) else sys
    case AgentEdited(n, a) =>
      sys.(store := sys.store.(agents := Assign(sys.store.agents, n, a)), dirty := sys.dirty + {n})
    case ObjectEdited(r, o) =>
      if r.name == "" then sys
      else
        sys.(store := sys.store.(objects := Assign(sys.store.objects, r, o)),
             dirty := sys.dirty + set b | b in sys.store.agents && Resolve.References(sys.store.agents[b].spec, r))
    case ChildEdited(n, y) =>
      if ThirdParty(Get(sys.store, n), y, n) then Replace(sys, n, y) else sys
  }

  ghost function RunAll(sys: System, ls: seq<Label>): System {
    if ls == [] then sys else Next(RunAll(sys, ls[..|ls| - 1]), ls[|ls| - 1])
  }

  // ------------------------------------------------------------------ invariant

  /** How many phases come before this one. */
  function Index(ph: WritePhase): nat { 6 - Remaining(ph) }

  /** The configuration is one Reconcile could write now. */
  ghost predicate ConfigCurrent(sl: Slice, input: ConfigInput) {
    exists orders :: ValidOrders(orders, input.channels)
                     && Fixpoint.ConfigMapSettled(sl.Config(HarnessOf(input)), ConfigData(input, orders))
  }

  predicate DeploymentCurrent(sl: Slice, input: ConfigInput, pvc: string) {
    sl.deployment.Some? && sl.deployment.value.spec == DeploymentFor(input, pvc)
  }

  predicate ServiceCurrent(sl: Slice, input: ConfigInput) {
    sl.service.Some? && sl.service.value.spec.ports == ServiceFor(input).ports
    && sl.service.value.spec.selector == ServiceFor(input).selector
  }

  /** The children written by the first `k` phases are as the input asks. */
  ghost predicate Built(sl: Slice, input: ConfigInput, pvc: string, k: nat) {
    && (k >= 1 ==> Fixpoint.ConfigMapSettled(sl.identity, IdentityData(input.spec.identity)))
    && (k >= 2 ==> Fixpoint.ConfigMapSettled(sl.skills, SkillsData(input.skills)))
    && (k >= 3 ==> ConfigCurrent(sl, input))
    && (k >= 5 ==> DeploymentCurrent(sl, input, pvc))
    && (k >= 6 ==> ServiceCurrent(sl, input))
  }

  /** The volume name Reconcile mounts when nothing is being switched. */
  function MountName(n: string, a: Agent): string {
    if a.spec.workspace.IsPersistent() then ActivePVCName(n, a.status) else ""
  }

  /** The agent's children are exactly those of the current objects. */
  ghost predicate Converged(s: Store, n: string)
    requires n in s.agents
  {
    var a := s.agents[n];
    Built(Get(s, n), Resolve.Resolved(s.objects, n, s.ns, a.spec), MountName(n, a), 6)
  }

  /** Everything the worker has read is unchanged, and what it has written stands. */
  ghost predicate Current(s: Store, n: string, task: Task)
    requires n in s.agents
  {
    match task
    case Started => true
    case Reading(a, seen, read) =>
      a == s.agents[n] && read <= Resolve.Refs(a.spec)
      && forall r :: r in read ==> Lookup(seen, r) == Lookup(s.objects, r)
    case Writing(a, input, ph, pvc) =>
      a == s.agents[n] && input == Resolve.Resolved(s.objects, n, s.ns, a.spec)
      && Built(Get(s, n), input, pvc, Index(ph))
      && (Index(ph) >= 4 ==> (a.spec.workspace.IsPersistent() <==> pvc != ""))
  }

  /** The convergence invariant of one agent. */
  ghost predicate Tracked(sys: System, n: string) {
    n in sys.store.agents ==>
      || n in sys.dirty
      || n in sys.delayed
      || (n in sys.busy && Current(sys.store, n, sys.busy[n]))
      || (n !in sys.busy && Converged(sys.store, n))
  }

  // --------------------------------------------------------------- one write phase

  lemma ConfigSettles(cm: Option<ConfigMap>, owner: OwnerRef, data: map<string, Content>, fails: bool)
    ensures var (o, ok) := EnsureConfigMap(cm, owner, data, fails); ok ==> Fixpoint.ConfigMapSettled(o, data)
  {
  }

  /** What a phase that goes on leaves behind: one child more, none spoilt. */
  ghost predicate Advanced(ph: WritePhase, sl: Slice, t: Slice, next: Phases.Next, a: Agent, input: ConfigInput) {
    next.Continue? ==>
      && !ph.Report? && t.agent == sl.agent && Built(t, input, next.pvc, Index(After(ph)))
      && MountDecided(a, next.pvc, After(ph))
  }

  predicate MountDecided(a: Agent, pvc: string, ph: WritePhase) {
    Index(ph) >= 4 ==> (a.spec.workspace.IsPersistent() <==> pvc != "")
  }

  lemma ConfigMapPhases(ph: WritePhase, sl: Slice, n: string, a: Agent, input: ConfigInput, pvc: string,
                        orders: KeyOrders, faults: Faults)
    requires ph.Identity? || ph.Skills?
    requires Built(sl, input, pvc, Index(ph))
    ensures var (t, next) := RunPhase(ph, sl, n, a, input, pvc, orders, faults); Advanced(ph, sl, t, next, a, input)
  {
    ConfigSettles(sl.identity, OwnerRef(n, a.uid), IdentityData(input.spec.identity), PutIdentity in faults);
    ConfigSettles(sl.skills, OwnerRef(n, a.uid), SkillsData(input.skills), PutSkills in faults);
  }

  lemma ConfigurationPhase(sl: Slice, n: string, a: Agent, input: ConfigInput, pvc: string, orders: KeyOrders,
                           faults: Faults)
    requires Built(sl, input, pvc, 2) && ValidOrders(orders, input.channels)
    ensures var (t, next) := RunPhase(Configuration, sl, n, a, input, pvc, orders, faults);
            Advanced(Configuration, sl, t, next, a, input)
  {
    var h, data := HarnessOf(input), ConfigData(input, orders);
    var (o, ok) := EnsureConfigMap(sl.Config(h), OwnerRef(n, a.uid), data, PutConfig in faults);
    ConfigSettles(sl.Config(h), OwnerRef(n, a.uid), data, PutConfig in faults);
    Fixpoint.ConfigSlot(sl, h, o);
    assert RunPhase(Configuration, sl, n, a, input, pvc, orders, faults) == (sl.WithConfig(h, o), OrStop(ok, pvc));
    if ok { assert ConfigCurrent(sl.WithConfig(h, o), input); }
  }

  lemma SameConfig(sl: Slice, t: Slice, input: ConfigInput)
    requires t.openclaw == sl.openclaw && t.observeclaw == sl.observeclaw && t.hermes == sl.hermes
    requires ConfigCurrent(sl, input)
    ensures ConfigCurrent(t, input)
  {
    assert t.Config(HarnessOf(input)) == sl.Config(HarnessOf(input));
  }

  /** The storage phase names a volume exactly for persistent workspaces. */
  lemma StorageMounts(sl: Slice, n: string, a: Agent, faults: Faults)
    ensures var (t, m) := WorkspaceStep(sl, n, a, faults);
            m.Mount? ==> (a.spec.workspace.IsPersistent() <==> m.pvc != "")
  {
    assert |VolName(n, Home)| > 0 && |VolName(n, HomeV2)| > 0;
  }

  lemma StorageRuns(sl: Slice, n: string, a: Agent, input: ConfigInput, pvc: string, orders: KeyOrders, faults: Faults)
    ensures var (t, next) := RunPhase(Storage, sl, n, a, input, pvc, orders, faults);
            && SameTexts(sl, t)
            && (next.Continue? ==> (a.spec.workspace.IsPersistent() <==> next.pvc != ""))
  {
    WorkspaceKeepsAgent(sl, n, a, faults);
    StorageMounts(sl, n, a, faults);
  }

  lemma StoragePhase(sl: Slice, n: string, a: Agent, input: ConfigInput, pvc: string, orders: KeyOrders, faults: Faults)
    requires Built(sl, input, pvc, 3)
    ensures var (t, next) := RunPhase(Storage, sl, n, a, input, pvc, orders, faults);
            Advanced(Storage, sl, t, next, a, input)
  {
    StorageRuns(sl, n, a, input, pvc, orders, faults);
    SameConfig(sl, RunPhase(Storage, sl, n, a, input, pvc, orders, faults).0, input);
  }

  /** A rollout that goes on has replaced the Deployment by the one the input asks for. */
  lemma RolloutRuns(sl: Slice, n: string, a: Agent, input: ConfigInput, pvc: string, orders: KeyOrders, faults: Faults)
    ensures var (t, next) := RunPhase(Rollout, sl, n, a, input, pvc, orders, faults);
            next.Continue? ==>
              next.pvc == pvc && t == sl.(deployment := t.deployment) && DeploymentCurrent(t, input, pvc)
  {
  }

  lemma RolloutBuilds(sl: Slice, o: Option<Workload>, input: ConfigInput, pvc: string)
    requires Built(sl, input, pvc, 4) && DeploymentCurrent(sl.(deployment := o), input, pvc)
    ensures Built(sl.(deployment := o), input, pvc, 5)
  {
    SameConfig(sl, sl.(deployment := o), input);
  }

  lemma RolloutPhase(sl: Slice, n: string, a: Agent, input: ConfigInput, pvc: string, orders: KeyOrders, faults: Faults)
    requires Built(sl, input, pvc, 4) && MountDecided(a, pvc, Rollout)
    ensures var (t, next) := RunPhase(Rollout, sl, n, a, input, pvc, orders, faults);
            Advanced(Rollout, sl, t, next, a, input)
  {
    var (t, next) := RunPhase(Rollout, sl, n, a, input, pvc, orders, faults);
    RolloutRuns(sl, n, a, input, pvc, orders, faults);
    if next.Continue? { RolloutBuilds(sl, t.deployment, input, pvc); }
  }

  lemma EndpointRuns(sl: Slice, n: string, a: Agent, input: ConfigInput, pvc: string, orders: KeyOrders, faults: Faults)
    ensures var (t, next) := RunPhase(Endpoint, sl, n, a, input, pvc, orders, faults);
            next.Continue? ==> next.pvc == pvc && t == sl.(service := t.service) && ServiceCurrent(t, input)
  {
  }

  lemma EndpointBuilds(sl: Slice, o: Option<Service>, input: ConfigInput, pvc: string)
    requires Built(sl, input, pvc, 5) && ServiceCurrent(sl.(service := o), input)
    ensures Built(sl.(service := o), input, pvc, 6)
  {
    SameConfig(sl, sl.(service := o), input);
  }

  lemma EndpointPhase(sl: Slice, n: string, a: Agent, input: ConfigInput, pvc: string, orders: KeyOrders,
                      faults: Faults)
    requires Built(sl, input, pvc, 5) && MountDecided(a, pvc, Endpoint)
    ensures var (t, next) := RunPhase(Endpoint, sl, n, a, input, pvc, orders, faults);
            Advanced(Endpoint, sl, t, next, a, input)
  {
    var (t, next) := RunPhase(Endpoint, sl, n, a, input, pvc, orders, faults);
    EndpointRuns(sl, n, a, input, pvc, orders, faults);
    if next.Continue? { EndpointBuilds(sl, t.service, input, pvc); }
  }

  lemma PhaseBuilds(ph: WritePhase, sl: Slice, n: string, a: Agent, input: ConfigInput, pvc: string,
                    orders: KeyOrders, faults: Faults)
    requires Built(sl, input, pvc, Index(ph)) && ValidOrders(orders, input.channels) && MountDecided(a, pvc, ph)
    ensures var (t, next) := RunPhase(ph, sl, n, a, input, pvc, orders, faults); Advanced(ph, sl, t, next, a, input)
  {
    match ph
    case Identity => ConfigMapPhases(ph, sl, n, a, input, pvc, orders, faults);
    case Skills => ConfigMapPhases(ph, sl, n, a, input, pvc, orders, faults);
    case Configuration => ConfigurationPhase(sl, n, a, input, pvc, orders, faults);
    case Storage => StoragePhase(sl, n, a, input, pvc, orders, faults);
    case Rollout => RolloutPhase(sl, n, a, input, pvc, orders, faults);
    case Endpoint => EndpointPhase(sl, n, a, input, pvc, orders, faults);
    case Report =>
  }

  /** A call that ends well without touching the agent has built everything for the agent's own status. */
  lemma FinishConverges(ph: WritePhase, sl: Slice, n: string, a: Agent, input: ConfigInput, pvc: string,
                        orders: KeyOrders, faults: Faults)
    requires Built(sl, input, pvc, Index(ph)) && MountDecided(a, pvc, ph) && sl.agent == Some(a)
    ensures var (t, next) := RunPhase(ph, sl, n, a, input, pvc, orders, faults);
            next == Stop(Done) && t.agent == sl.agent ==> t == sl && ph.Report? && pvc == MountName(n, a)
  {
    OnlyReportEnds(ph, sl, n, a, input, pvc, orders, faults);
    if ph.Report? { ReportEnds(sl, n, a, input, pvc, orders, faults); }
  }

  /** A status that need not be written names the active volume. */
  lemma ReportEnds(sl: Slice, n: string, a: Agent, input: ConfigInput, pvc: string, orders: KeyOrders, faults: Faults)
    requires sl.agent == Some(a) && MountDecided(a, pvc, Report)
    ensures var (t, next) := RunPhase(Report, sl, n, a, input, pvc, orders, faults);
            next == Stop(Done) && t.agent == sl.agent ==> t == sl && pvc == MountName(n, a)
  {
  }

  lemma OnlyReportEnds(ph: WritePhase, sl: Slice, n: string, a: Agent, input: ConfigInput, pvc: string,
                       orders: KeyOrders, faults: Faults)
    ensures RunPhase(ph, sl, n, a, input, pvc, orders, faults).1 == Stop(Done) ==> ph.Report?
  {
  }

  // ------------------------------------------------------------------ preservation

  /** What is current for an agent depends on its own slice and references only. */
  lemma OthersUntouched(s: Store, n: string, y: Slice, b: string)
    requires b != n
    ensures var t := Put(s, n, y);
            && (b in t.agents <==> b in s.agents) && (b in s.agents ==> t.agents[b] == s.agents[b])
            && Get(t, b) == Get(s, b)
  {
    GetPutOther(s, n, y, b);
    assert Lookup(Put(s, n, y).agents, b) == Lookup(s.agents, b);
  }

  lemma ReplaceTracksOthers(sys: System, n: string, y: Slice, b: string)
    requires b != n && Tracked(sys, b)
    ensures Tracked(Replace(sys, n, y), b)
  {
    OthersUntouched(sys.store, n, y, b);
  }

  lemma WriteTracksOthers(sys: System, n: string, task: Task, orders: KeyOrders, faults: Faults, b: string)
    requires task.Writing? && b != n && Tracked(sys, b)
    ensures Tracked(WriteStep(sys, n, task, orders, faults), b)
  {
    var (t, next) := RunPhase(task.phase, Get(sys.store, n), n, task.agent, task.input, task.pvc, orders, faults);
    ReplaceTracksOthers(sys, n, t, b);
  }

  /** A phase that went on while nothing moved keeps the worker current. */
  lemma ContinueTracksSelf(sys: System, n: string, task: Task, t: Slice, pvc: string)
    requires task.Writing? && n in sys.store.agents && Current(sys.store, n, task) && t.agent == Get(sys.store, n).agent
    requires Advanced(task.phase, Get(sys.store, n), t, Continue(pvc), task.agent, task.input)
    ensures var s := Put(sys.store, n, t);
            n in s.agents && Current(s, n, task.(phase := After(task.phase), pvc := pvc))
  {
    GetPut(sys.store, n, t);
    assert Lookup(Put(sys.store, n, t).agents, n) == t.agent;
    assert Lookup(sys.store.agents, n) == t.agent;
  }

  /** A call that finished without changing anything was the last phase on a current agent. */
  lemma FinishTracksSelf(s: Store, n: string, task: Task)
    requires task.Writing? && n in s.agents && Current(s, n, task)
    requires task.phase.Report? && task.pvc == MountName(n, task.agent)
    ensures Converged(s, n)
  {
  }

  /** What a phase run on a current agent amounts to: progress, or an end with everything built. */
  ghost predicate Fruitful(s: Store, n: string, task: Task, t: Slice, next: Phases.Next)
    requires task.Writing?
  {
    && Advanced(task.phase, Get(s, n), t, next, task.agent, task.input)
    && (next == Stop(Done) && t.agent == Get(s, n).agent ==>
          t == Get(s, n) && task.phase.Report? && task.pvc == MountName(n, task.agent))
  }

  lemma SameAgent(s: Store, n: string, t: Slice)
    requires t.agent == Get(s, n).agent
    ensures Lookup(Put(s, n, t).agents, n) == Lookup(s.agents, n)
  {
    GetPut(s, n, t);
    assert Get(Put(s, n, t), n).agent == t.agent;
  }

  lemma StopTracksSelf(s: Store, n: string, task: Task, t: Slice)
    requires task.Writing? && n in s.agents && Current(s, n, task) && t.agent == Get(s, n).agent
    requires Fruitful(s, n, task, t, Stop(Done))
    ensures n in Put(s, n, t).agents && Converged(Put(s, n, t), n)
  {
    FinishTracksSelf(s, n, task);
    PutGet(s, n);
  }

  lemma ConcludeTracksSelf(sys: System, n: string, task: Task, t: Slice, next: Phases.Next)
    requires task.Writing? && n in sys.busy && sys.busy[n] == task && Tracked(sys, n)
    requires n in sys.store.agents && Current(sys.store, n, task) ==> Fruitful(sys.store, n, task, t, next)
    ensures Tracked(Conclude(sys, n, task, t, next), n)
  {
    if Notifies(Get(sys.store, n), t, n) || n in sys.dirty || n in sys.delayed {
      return;
    }
    SameAgent(sys.store, n, t);
    if n in sys.store.agents {
      match next
      case Continue(pvc) => ContinueTracksSelf(sys, n, task, t, pvc);
      case Stop(outcome) => if outcome == Done { StopTracksSelf(sys.store, n, task, t); }
    }
  }

  lemma WriteTracksSelf(sys: System, n: string, task: Task, orders: KeyOrders, faults: Faults)
    requires task.Writing? && n in sys.busy && sys.busy[n] == task && Tracked(sys, n)
    requires ValidOrders(orders, task.input.channels)
    ensures Tracked(WriteStep(sys, n, task, orders, faults), n)
  {
    var sl := Get(sys.store, n);
    var (t, next) := RunPhase(task.phase, sl, n, task.agent, task.input, task.pvc, orders, faults);
    if n in sys.store.agents && Current(sys.store, n, task) {
      PhaseBuilds(task.phase, sl, n, task.agent, task.input, task.pvc, orders, faults);
      FinishConverges(task.phase, sl, n, task.agent, task.input, task.pvc, orders, faults);
    }
    ConcludeTracksSelf(sys, n, task, t, next);
  }

  lemma BuiltUnwatched(x: Slice, y: Slice, input: ConfigInput, pvc: string, k: nat)
    requires x.identity == y.identity && x.skills == y.skills && x.openclaw == y.openclaw
        && x.observeclaw == y.observeclaw
    requires x.hermes == y.hermes && x.deployment == y.deployment && x.service == y.service
    requires Built(x, input, pvc, k)
    ensures Built(y, input, pvc, k)
  {
    if ConfigCurrent(x, input) { SameConfig(x, y, input); }
  }

  lemma ChildEditTracksSelf(sys: System, n: string, y: Slice)
    requires Tracked(sys, n) && ThirdParty(Get(sys.store, n), y, n)
    ensures Tracked(Replace(sys, n, y), n)
  {
    var x := Get(sys.store, n);
    var s' := Replace(sys, n, y);
    GetPut(sys.store, n, y);
    assert Lookup(s'.store.agents, n) == Lookup(sys.store.agents, n);
    if n in sys.store.agents && n !in s'.dirty && n !in sys.delayed {
      var a := sys.store.agents[n];
      if n !in sys.busy {
        BuiltUnwatched(x, y, Resolve.Resolved(sys.store.objects, n, sys.store.ns, a.spec), MountName(n, a), 6);
      } else if sys.busy[n].Writing? {
        BuiltUnwatched(x, y, sys.busy[n].input, sys.busy[n].pvc, Index(sys.busy[n].phase));
      }
    }
  }

  lemma ObjectEditTracks(sys: System, l: Label, b: string)
    requires l.ObjectEdited? && Tracked(sys, b)
    ensures Tracked(Next(sys, l), b)
  {
    var sys' := Next(sys, l);
    var r, o := l.r, l.o;
    if r.name != "" && b in sys.store.agents && !Resolve.References(sys.store.agents[b].spec, r) {
      var spec := sys.store.agents[b].spec;
      Resolve.UnmappedUnchanged(sys.store.objects, r, o, b, sys.store.ns, spec);
      Resolve.MapperIsReadSet(spec, r);
      assert Get(sys'.store, b) == Get(sys.store, b);
    }
  }

  lemma QueueTracks(sys: System, l: Label, b: string)
    requires l.Take? || l.Wake?
    requires Tracked(sys, b)
    ensures Tracked(Next(sys, l), b)
  {
  }

  lemma FetchAgentTracks(sys: System, n: string, b: string)
    requires Tracked(sys, b)
    ensures Tracked(Fetched(sys, n), b)
  {
  }

  lemma FetchRefTracks(sys: System, l: Label, b: string)
    requires l.FetchRef? && Tracked(sys, b)
    ensures Tracked(Next(sys, l), b)
  {
  }

  lemma DecideTracks(sys: System, l: Label, b: string)
    requires l.Decide? && Tracked(sys, b)
    ensures Tracked(Next(sys, l), b)
  {
    if l.n == b && b in sys.store.agents && b in sys.busy && sys.busy[b].Reading?
      && Current(sys.store, b, sys.busy[b]) {
      var task := sys.busy[b];
      if task.read == Resolve.Refs(task.agent.spec) {
        Resolve.ResolvedLocal(task.seen, sys.store.objects, b, sys.store.ns, task.agent.spec);
      }
    }
  }

  lemma AgentEditTracks(sys: System, l: Label, b: string)
    requires l.AgentEdited? && Tracked(sys, b)
    ensures Tracked(Next(sys, l), b)
  {
    var sys' := Next(sys, l);
    if b != l.n {
      assert Lookup(sys'.store.agents, b) == Lookup(sys.store.agents, b);
      assert Get(sys'.store, b) == Get(sys.store, b);
    }
  }

  lemma WriteTracks(sys: System, l: Label, b: string)
    requires l.Write? && Tracked(sys, b)
    ensures Tracked(Next(sys, l), b)
  {
    var n := l.n;
    if n in sys.busy && sys.busy[n].Writing? && ValidOrders(l.orders, sys.busy[n].input.channels) {
      if n == b {
        WriteTracksSelf(sys, n, sys.busy[n], l.orders, l.faults);
      } else {
        WriteTracksOthers(sys, n, sys.busy[n], l.orders, l.faults, b);
      }
    }
  }

  lemma ChildEditTracks(sys: System, l: Label, b: string)
    requires l.ChildEdited? && Tracked(sys, b)
    ensures Tracked(Next(sys, l), b)
  {
    if ThirdParty(Get(sys.store, l.n), l.slice, l.n) {
      if l.n == b { ChildEditTracksSelf(sys, b, l.slice); } else { ReplaceTracksOthers(sys, l.n, l.slice, b); }
    }
  }

  /** Every step keeps the invariant, for every agent. */
  lemma StepTracks(sys: System, l: Label, b: string)
    requires Tracked(sys, b)
    ensures Tracked(Next(sys, l), b)
  {
    if l.Write? { WriteTracks(sys, l, b); }
    else if l.ChildEdited? { ChildEditTracks(sys, l, b); }
    else if l.AgentEdited? { AgentEditTracks(sys, l, b); }
    else if l.ObjectEdited? { ObjectEditTracks(sys, l, b); }
    else if l.FetchAgent? { FetchAgentTracks(sys, l.n, b); }
    else if l.FetchRef? { FetchRefTracks(sys, l, b); }
    else if l.Decide? { DecideTracks(sys, l, b); }
    else { QueueTracks(sys, l, b); }
  }

  /** The controller has just started: the initial list has queued every agent. */
  ghost predicate Boot(sys: System) { sys.store.agents.Keys <= sys.dirty && sys.busy == map[] }

  /** Convergence: the invariant holds for every agent after every run. */
  lemma {:induction false} Convergence(sys: System, ls: seq<Label>, b: string)
    requires Boot(sys)
    ensures Tracked(RunAll(sys, ls), b)
  {
    if ls != [] {
      Convergence(sys, ls[..|ls| - 1], b);
      StepTracks(RunAll(sys, ls[..|ls| - 1]), ls[|ls| - 1], b);
    }
  }

  /** When the queue is empty and no worker is busy, every live agent has the children of the current objects. */
  lemma QuiescentMeansConverged(sys: System, ls: seq<Label>)
    requires Boot(sys)
    ensures var t := RunAll(sys, ls);
            t.dirty == {} && t.delayed == {} && t.busy == map[] ==> forall b :: b in t.store.agents ==>
              Converged(t.store, b)
  {
    var t := RunAll(sys, ls);
    forall b | b in t.store.agents && t.dirty == {} && t.delayed == {}
      && t.busy == map[] ensures Converged(t.store, b) {
      Convergence(sys, ls, b);
    }
  }
}
