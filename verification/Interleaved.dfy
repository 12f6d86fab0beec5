/**
 No premature deletion when a call is not atomic: workers hold a snapshot of the agent and write
 one phase at a time, while users edit the agent, the pod runs and the collector sweeps in
 between. The storage phase that takes the original volume finds the safe state at its own
 start, judged by the snapshot it holds.
 */
module Interleaved {
  import opened Prelude
  import opened Api
  import opened Cluster
  import opened Workspace
  import opened Reconcile
  import opened Phases
  import opened Runs
  import opened Modes
  import opened Convergence
  import Resolve

  // ------------------------------------------------------------- what a worker holds

  /** A snapshot of an agent that has not been switched. */
  predicate SnapshotOk(n: string, uid: nat, a: Agent) {
    a.uid == uid && StatusOk(n, a.status) && ActiveVolume(n, a.status) == Home
  }

  predicate OriginalName(n: string, pvc: string) { pvc == "" || pvc == VolName(n, Home) }

  predicate TaskOk(n: string, uid: nat, task: Task) {
    match task
    case Started => true
    case Reading(a, _, _) => SnapshotOk(n, uid, a)
    case Writing(a, _, ph, pvc) => SnapshotOk(n, uid, a) && (Index(ph) >= 4 ==> OriginalName(n, pvc))
  }

  /** The agent's slice and the worker on it, if any, are as before the first switch. */
  predicate Sound(sys: System, n: string) {
    && Unswitched(Get(sys.store, n), n)
    && (n in sys.busy ==> TaskOk(n, Get(sys.store, n).agent.value.uid, sys.busy[n]))
  }

  // ------------------------------------------------------------------ one write phase

  predicate Taken(sl: Slice, t: Slice) { sl.home.Some? && t.home.None? }

  lemma PersistentStorage(sl: Slice, n: string, a: Agent, faults: Faults)
    requires Unswitched(sl, n) && SnapshotOk(n, sl.agent.value.uid, a) && a.spec.workspace.IsPersistent()
    ensures var (t, m) := WorkspaceStep(sl, n, a, faults);
            && t.agent == sl.agent
            && (Taken(sl, t) ==> SafeFor(sl, n, a) && t.homeV2 == sl.homeV2)
            && (!Taken(sl, t) ==> Unswitched(t, n) && PodsFollow(sl, t, false) && (m.Mount? ==> OriginalName(n, m.pvc)))
  {
    EnsurePVCKeepsTexts(sl, n, a, faults);
    if Taken(sl, WorkspaceStep(sl, n, a, faults).0) {
      DeletionIsGuarded(sl, n, a, faults);
    } else {
      StorageKeeps(sl, n, a, faults);
    }
  }

  lemma StorageKeeps(sl: Slice, n: string, a: Agent, faults: Faults)
    requires Unswitched(sl, n) && SnapshotOk(n, sl.agent.value.uid, a) && a.spec.workspace.IsPersistent()
    requires !Taken(sl, WorkspaceStep(sl, n, a, faults).0)
    ensures var (t, m) := WorkspaceStep(sl, n, a, faults);
            Unswitched(t, n) && PodsFollow(sl, t, false) && (m.Mount? ==> OriginalName(n, m.pvc))
  {
    OwnNamesDistinct(n);
    EnsurePVCKeepsHeld(sl, n, a, faults);
    EnsurePVCKeepsTexts(sl, n, a, faults);
  }

  lemma EphemeralStorage(sl: Slice, n: string, a: Agent, faults: Faults)
    requires Unswitched(sl, n) && !a.spec.workspace.IsPersistent() && DeleteHomeV2 !in faults
    ensures var (t, m) := WorkspaceStep(sl, n, a, faults);
            && t.agent == sl.agent && Unswitched(t, n) && PodsFollow(sl, t, t.home.None? && t.homeV2.None?)
            && (m.Mount? ==> OriginalName(n, m.pvc))
  {
  }

  /** What the other phases do to volumes and status: nothing, but for a status that names the volume carried along. */
  predicate Harmless(sl: Slice, t: Slice, a: Agent, pvc: string, next: Phases.Next) {
    && t.home == sl.home && t.homeV2 == sl.homeV2 && t.pod == sl.pod && (next.Continue? ==> next.pvc == pvc)
    && (t.agent == sl.agent
        || (sl.agent == Some(a) && t.agent.Some? && t.agent == Some(a.(status := t.agent.value.status))
            && t.agent.value.status.workspacePVC == pvc))
  }

  lemma OtherPhases(ph: WritePhase, sl: Slice, n: string, a: Agent, input: ConfigInput, pvc: string, orders: KeyOrders,
                    faults: Faults)
    requires !ph.Storage?
    ensures var (t, next) := RunPhase(ph, sl, n, a, input, pvc, orders, faults);
            Harmless(sl, t, a, pvc, next) && (!ph.Report? ==> t.agent == sl.agent)
  {
  }

  lemma HarmlessKeeps(sl: Slice, n: string, a: Agent, pvc: string, next: Phases.Next, t: Slice)
    requires Unswitched(sl, n) && Harmless(sl, t, a, pvc, next) && (t.agent != sl.agent ==> OriginalName(n, pvc))
    ensures Unswitched(t, n) && PodsFollow(sl, t, false) && !Taken(sl, t) && t.agent.value.uid == sl.agent.value.uid
  {
    OwnNamesDistinct(n);
    assert VolName(n, HomeV2) != "" by { assert |VolName(n, HomeV2)| > 0; }
  }

  /** A phase of a sound worker: it keeps everything sound, or it is a safe switch. */
  predicate PhaseOutcome(sl: Slice, n: string, task: Task, t: Slice, next: Phases.Next)
    requires task.Writing? && sl.agent.Some?
  {
    if Taken(sl, t) && task.agent.spec.workspace.IsPersistent() then
      task.phase.Storage? && SafeFor(sl, n, task.agent) && t.homeV2 == sl.homeV2
    else
      && Unswitched(t, n) && t.agent.value.uid == sl.agent.value.uid && (Taken(sl, t) ==> task.phase.Storage?)
      && PodsFollow(sl, t, Cleaned(task, t))
      && (next.Continue? ==> TaskOk(n, sl.agent.value.uid, task.(phase := Phases.After(task.phase), pvc := next.pvc)))
  }

  /** The phase was an ephemeral clean-up that went through. */
  predicate Cleaned(task: Task, t: Slice) {
    && task.Writing? && task.phase.Storage? && !task.agent.spec.workspace.IsPersistent()
    && t.home.None? && t.homeV2.None?
  }

  lemma StoragePhaseOutcome(sl: Slice, n: string, task: Task, orders: KeyOrders, faults: Faults)
    requires Unswitched(sl, n) && task.Writing? && TaskOk(n, sl.agent.value.uid, task) && task.phase.Storage?
    requires !task.agent.spec.workspace.IsPersistent() ==> DeleteHomeV2 !in faults
    ensures var (t, next) := RunPhase(Storage, sl, n, task.agent, task.input, task.pvc, orders, faults);
            PhaseOutcome(sl, n, task, t, next)
  {
    if task.agent.spec.workspace.IsPersistent() {
      PersistentStorage(sl, n, task.agent, faults);
    } else {
      EphemeralStorage(sl, n, task.agent, faults);
    }
  }

  lemma OtherPhaseOutcome(sl: Slice, n: string, task: Task, orders: KeyOrders, faults: Faults)
    requires Unswitched(sl, n) && task.Writing? && TaskOk(n, sl.agent.value.uid, task) && !task.phase.Storage?
    ensures var (t, next) := RunPhase(task.phase, sl, n, task.agent, task.input, task.pvc, orders, faults);
            PhaseOutcome(sl, n, task, t, next)
  {
    var (t, next) := RunPhase(task.phase, sl, n, task.agent, task.input, task.pvc, orders, faults);
    OtherPhases(task.phase, sl, n, task.agent, task.input, task.pvc, orders, faults);
    HarmlessKeeps(sl, n, task.agent, task.pvc, next, t);
  }

  // ------------------------------------------------------------------------- steps

  /**
   The agent is edited in its spec only, its pods, files and Deployment change as in a run of the
   agent alone, and an ephemeral clean-up does not stop between its two deletions.
   */
  ghost predicate Fair(sys: System, l: Label, n: string) {
    match l
    case AgentEdited(m, a) =>
      m == n ==> n in sys.store.agents && a.Some? && a == Some(sys.store.agents[n].(spec := a.value.spec))
    case ChildEdited(m, y) =>
      m == n ==> exists ev: Event :: !ev.Reconciled? && !ev.Edited? && y == Step(Get(sys.store, n), n, sys.store.ns, ev)
    case Write(m, _, faults) =>
      m == n && n in sys.busy && sys.busy[n].Writing? && !sys.busy[n].agent.spec.workspace.IsPersistent() ==>
        DeleteHomeV2 !in faults
    case _ => true
  }

  /** The step runs a write phase of the worker on `n`. */
  ghost predicate Works(sys: System, l: Label, n: string) {
    && l.Write? && l.n == n && n in sys.busy && sys.busy[n].Writing?
    && ValidOrders(l.orders, sys.busy[n].input.channels)
  }

  ghost predicate CleansStep(sys: System, l: Label, n: string) {
    Works(sys, l, n) && Cleaned(sys.busy[n], Get(Convergence.Next(sys, l).store, n))
  }

  /** A persistent worker takes the original volume. */
  ghost predicate SwitchStep(sys: System, l: Label, n: string) {
    && Works(sys, l, n) && sys.busy[n].agent.spec.workspace.IsPersistent()
    && Taken(Get(sys.store, n), Get(Convergence.Next(sys, l).store, n))
  }

  lemma ConcludeOwn(sys: System, n: string, task: Task, t: Slice, next: Phases.Next)
    requires task.Writing?
    ensures var s := Conclude(sys, n, task, t, next);
            && Get(s.store, n) == t
            && (next.Continue? ==>
                  n in s.busy && s.busy[n] == task.(phase := Phases.After(task.phase), pvc := next.pvc))
            && (next.Stop? ==> n !in s.busy)
  {
    GetPut(sys.store, n, t);
  }

  /** What a step of anybody means for agent `n`. */
  ghost predicate StepOutcome(sys: System, l: Label, n: string, s: System)
    requires Sound(sys, n)
  {
    var sl, t := Get(sys.store, n), Get(s.store, n);
    if SwitchStep(sys, l, n) then
      sys.busy[n].phase.Storage? && SafeFor(sl, n, sys.busy[n].agent) && t.homeV2 == sl.homeV2
    else
      && Sound(s, n) && PodsFollow(sl, t, CleansStep(sys, l, n))
      && (Taken(sl, t) ==>
            Works(sys, l, n) && sys.busy[n].phase.Storage? && !sys.busy[n].agent.spec.workspace.IsPersistent())
  }

  lemma WriteOwn(sys: System, l: Label, n: string)
    requires Sound(sys, n) && Fair(sys, l, n) && Works(sys, l, n)
    ensures StepOutcome(sys, l, n, Convergence.Next(sys, l))
  {
    var sl, task := Get(sys.store, n), sys.busy[n];
    var (t, next) := RunPhase(task.phase, sl, n, task.agent, task.input, task.pvc, l.orders, l.faults);
    if task.phase.Storage? {
      StoragePhaseOutcome(sl, n, task, l.orders, l.faults);
    } else {
      OtherPhaseOutcome(sl, n, task, l.orders, l.faults);
    }
    ConcludeOwn(sys, n, task, t, next);
  }

  /** Nothing that matters about agent `n` has changed. */
  ghost predicate Untouched(sys: System, s: System, n: string) {
    Get(s.store, n) == Get(sys.store, n) && (n in s.busy <==> n in sys.busy)
      && (n in s.busy ==> s.busy[n] == sys.busy[n])
  }

  lemma UntouchedOutcome(sys: System, l: Label, n: string)
    requires Sound(sys, n) && Untouched(sys, Convergence.Next(sys, l), n) && !Works(sys, l, n)
    ensures StepOutcome(sys, l, n, Convergence.Next(sys, l))
  {
  }

  lemma ConcludedElsewhere(sys: System, m: string, task: Task, t: Slice, next: Phases.Next, n: string)
    requires task.Writing? && m != n
    ensures Untouched(sys, Conclude(sys, m, task, t, next), n)
  {
    GetPutOther(sys.store, m, t, n);
  }

  lemma OtherWrites(sys: System, l: Label, n: string)
    requires l.Write? && l.n != n
    ensures Untouched(sys, Convergence.Next(sys, l), n)
  {
    var m := l.n;
    if m in sys.busy && sys.busy[m].Writing? && ValidOrders(l.orders, sys.busy[m].input.channels) {
      var task := sys.busy[m];
      var (t, next) := RunPhase(task.phase, Get(sys.store, m), m, task.agent, task.input, task.pvc, l.orders, l.faults);
      ConcludedElsewhere(sys, m, task, t, next, n);
    }
  }

  lemma ReplacedElsewhere(sys: System, m: string, y: Slice, n: string)
    requires m != n
    ensures Untouched(sys, Replace(sys, m, y), n)
  {
    GetPutOther(sys.store, m, y, n);
  }

  lemma OtherChildEdits(sys: System, l: Label, n: string)
    requires l.ChildEdited? && l.n != n
    ensures Untouched(sys, Convergence.Next(sys, l), n)
  {
    var s := Convergence.Next(sys, l);
    if ThirdParty(Get(sys.store, l.n), l.slice, l.n) {
      ReplacedElsewhere(sys, l.n, l.slice, n);
      assert s == Replace(sys, l.n, l.slice);
    } else {
      assert s == sys;
    }
  }

  lemma OtherAgentEdits(sys: System, l: Label, n: string)
    requires l.AgentEdited? && l.n != n
    ensures Untouched(sys, Convergence.Next(sys, l), n)
  {
    assert Lookup(Assign(sys.store.agents, l.n, l.agent), n) == Lookup(sys.store.agents, n);
  }

  /** A step that leaves the store's tables of agents and children alone, and every worker's snapshot in order. */
  lemma StoreStays(sys: System, l: Label, n: string)
    requires Sound(sys, n) && !Works(sys, l, n)
    requires var s := Convergence.Next(sys, l);
             Get(s.store, n) == Get(sys.store, n)
             && (n in s.busy ==> TaskOk(n, Get(sys.store, n).agent.value.uid, s.busy[n]))
    ensures StepOutcome(sys, l, n, Convergence.Next(sys, l))
  {
  }

  lemma QueueStep(sys: System, l: Label, n: string)
    requires Sound(sys, n) && (l.Take? || l.Wake? || l.ObjectEdited?)
    ensures StepOutcome(sys, l, n, Convergence.Next(sys, l))
  {
    assert Get(Convergence.Next(sys, l).store, n) == Get(sys.store, n);
    StoreStays(sys, l, n);
  }

  /** A worker that reads holds what it has just read. */
  lemma FetchedOk(sys: System, m: string, n: string)
    requires Sound(sys, n)
    ensures var s := Fetched(sys, m);
            && Get(s.store, n) == Get(sys.store, n)
            && (n in s.busy ==> TaskOk(n, Get(sys.store, n).agent.value.uid, s.busy[n]))
  {
  }

  lemma ReadStep(sys: System, l: Label, n: string)
    requires Sound(sys, n) && (l.FetchAgent? || l.FetchRef? || l.Decide?)
    ensures StepOutcome(sys, l, n, Convergence.Next(sys, l))
  {
    if l.FetchAgent? { FetchedOk(sys, l.n, n); }
    StoreStays(sys, l, n);
  }

  lemma SpecEdited(sys: System, l: Label, n: string)
    requires Sound(sys, n) && l.AgentEdited? && l.n == n && Fair(sys, l, n)
    ensures StepOutcome(sys, l, n, Convergence.Next(sys, l))
  {
    var s := Convergence.Next(sys, l);
    assert Lookup(s.store.agents, n) == l.agent;
    assert Get(s.store, n) == Get(sys.store, n).(agent := l.agent);
  }

  lemma ChildChanged(sys: System, l: Label, n: string)
    requires Sound(sys, n) && l.ChildEdited? && l.n == n && Fair(sys, l, n)
    ensures StepOutcome(sys, l, n, Convergence.Next(sys, l))
  {
    var sl := Get(sys.store, n);
    if ThirdParty(sl, l.slice, n) {
      var ev: Event :| !ev.Reconciled? && !ev.Edited? && l.slice == Step(sl, n, sys.store.ns, ev);
      OtherEventsKeep(sl, n, sys.store.ns, ev);
      GetPut(sys.store, n, l.slice);
    } else {
      UntouchedOutcome(sys, l, n);
    }
  }

  lemma AnyStep(sys: System, l: Label, n: string)
    requires Sound(sys, n) && Fair(sys, l, n)
    ensures StepOutcome(sys, l, n, Convergence.Next(sys, l))
  {
    if Works(sys, l, n) { WriteOwn(sys, l, n); }
    else if l.Write? && l.n == n { UntouchedOutcome(sys, l, n); }
    else if l.ChildEdited? && l.n == n { ChildChanged(sys, l, n); }
    else if l.AgentEdited? && l.n == n { SpecEdited(sys, l, n); }
    else if l.Write? { OtherWrites(sys, l, n); UntouchedOutcome(sys, l, n); }
    else if l.ChildEdited? { OtherChildEdits(sys, l, n); UntouchedOutcome(sys, l, n); }
    else if l.AgentEdited? { OtherAgentEdits(sys, l, n); UntouchedOutcome(sys, l, n); }
    else if l.FetchAgent? || l.FetchRef? || l.Decide? { ReadStep(sys, l, n); }
    else { QueueStep(sys, l, n); }
  }

  // -------------------------------------------------------------------------- runs

  /** Every step is fair to `n`, and none is a switch. */
  ghost predicate FairUpToTheSwitch(sys: System, ls: seq<Label>, n: string) {
    ls == []
    || (var before := RunAll(sys, ls[..|ls| - 1]);
        var l := ls[|ls| - 1];
        FairUpToTheSwitch(sys, ls[..|ls| - 1], n) && Fair(before, l, n) && !SwitchStep(before, l, n))
  }

  ghost function SystemFlags(sys: System, ls: seq<Label>, n: string): Flags {
    if ls == [] then NO_POD
    else
      var before := RunAll(sys, ls[..|ls| - 1]);
      var l := ls[|ls| - 1];
      NextFlags(SystemFlags(sys, ls[..|ls| - 1], n), Get(before.store, n), Get(Convergence.Next(before, l).store, n),
                CleansStep(before, l, n))
  }

  lemma {:induction false} SystemStaysSound(sys: System, ls: seq<Label>, n: string)
    requires Sound(sys, n) && Get(sys.store, n).pod.None? && FairUpToTheSwitch(sys, ls, n)
    ensures Sound(RunAll(sys, ls), n) && FlagsOk(Get(RunAll(sys, ls).store, n), SystemFlags(sys, ls, n))
  {
    if ls != [] {
      var init, l := ls[..|ls| - 1], ls[|ls| - 1];
      SystemStaysSound(sys, init, n);
      var before := RunAll(sys, init);
      AnyStep(before, l, n);
      FlagsStayOk(SystemFlags(sys, init, n), Get(before.store, n), Get(Convergence.Next(before, l).store, n),
                  CleansStep(before, l, n));
    }
  }

  /**
   No premature deletion, interleaved: in every run of the whole system from a state in which the
   agent has no pod, whatever workers, users, pods and the collector do in between, the agent's
   original volume is only taken by the storage phase of a worker on that agent. Unless the
   worker holds an ephemeral snapshot, it finds the safe state when it writes; and the pod has
   copied the volume it switches to iff no ephemeral clean-up has left that pod over.
   */
  lemma NoPrematureDeletionInterleaved(sys: System, ls: seq<Label>, l: Label, n: string)
    requires Sound(sys, n) && Get(sys.store, n).pod.None? && FairUpToTheSwitch(sys, ls, n)
    requires Fair(RunAll(sys, ls), l, n)
    ensures var before := RunAll(sys, ls);
            var sl, t := Get(before.store, n), Get(Convergence.Next(before, l).store, n);
            var flags := SystemFlags(sys, ls, n);
            Taken(sl, t) ==>
              && Works(before, l, n) && before.busy[n].phase.Storage?
              && (before.busy[n].agent.spec.workspace.IsPersistent() ==>
                    SafeFor(sl, n, before.busy[n].agent) && t.homeV2 == sl.homeV2
                      && (flags.copied <==> !flags.leftOver))
  {
    SystemStaysSound(sys, ls, n);
    AnyStep(RunAll(sys, ls), l, n);
  }
}
