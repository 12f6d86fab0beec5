/**
 How long a resize takes. With a stable request and no failing writes every reconcile before
 the switch makes measurable progress, polls a running pod, or clears a failed one; the exact
 account of these three kinds bounds the number of reconciles, and no reconcile ends without
 arranging for the next.
 */
module ResizeRuns {
  import opened Prelude
  import opened Api
  import opened Cluster
  import opened Workspace
  import opened Reconcile
  import opened Collector
  import opened Watches
  import opened Runs
  import Resolve

  /** Waiting for the first switch with a request that is larger than the volume. */
  predicate Resizing(sl: Slice, n: string) {
    BeforeSwitch(sl, n) && sl.home.Some? && NeedsResize(sl, n, sl.agent.value)
  }

  /** What is still missing: both objects, the pod, or nothing. */
  function Stage(sl: Slice): nat {
    if sl.homeV2.None? then 2 else if sl.pod.None? then 1 else 0
  }

  /** Each missing object costs its own reconcile and the scale-down that follows it. */
  function Measure(sl: Slice): nat {
    2 * Stage(sl) + if ScaledDown(sl) then 0 else 1
  }

  datatype Kind = Progresses | Polls | ClearsFailure | Switches

  /** What the next error-free reconcile does. */
  function NextKind(sl: Slice): Kind {
    if Measure(sl) > 0 then Progresses
    else
      match sl.pod.value.phase
      case Succeeded => Switches
      case Failed => ClearsFailure
      case _ => Polls
  }

  /** One error-free reconcile of a pending resize. */
  lemma ReconcileProgress(sl: Slice, n: string, t: Slice, outcome: Outcome)
    requires Resizing(sl, n) && Effect(sl, n, t, outcome, {})
    ensures t.home.None? <==> NextKind(sl) == Switches
    ensures t.home.Some? ==> Resizing(t, n)
    ensures NextKind(sl) == Progresses ==> Measure(t) == Measure(sl) - 1
    ensures NextKind(sl) == Polls ==> Measure(t) == Measure(sl) && outcome == RequeueAfter(5)
    ensures NextKind(sl) == ClearsFailure ==> Measure(t) == Measure(sl) + 2 && outcome == Error
  {
    OwnNamesDistinct(n);
    EnsurePVCKeepsHeld(sl, n, sl.agent.value, {});
  }

  /** A requeue, an error, or a change that one of the agent's watches reports. */
  predicate WillContinue(sl: Slice, n: string, t: Slice, outcome: Outcome) {
    outcome == Error || outcome == RequeueAfter(5) || Notifies(sl, t, n)
  }

  /** The Deployment, if there is one, carries the agent's owner reference. */
  predicate DeploymentOwned(sl: Slice, n: string) { sl.deployment.Some? ==> WorkloadOwned(sl.deployment, n) }

  /** A complete reconcile that has not switched has written the Deployment. */
  lemma EffectWritesDeployment(sl: Slice, n: string, t: Slice, outcome: Outcome, faults: Faults)
    requires Resizing(sl, n) && Effect(sl, n, t, outcome, faults) && t.home.Some?
    ensures outcome == Error || outcome == RequeueAfter(5) || (t.deployment.Some? && t.deployment != sl.deployment)
  {
    OwnNamesDistinct(n);
  }

  lemma EpilogueKeepsOwned(s2: Slice, n: string, a: Agent, input: ConfigInput, pvc: string, faults: Faults)
    requires DeploymentOwned(s2, n)
    ensures DeploymentOwned(Epilogue(s2, n, a, input, pvc, faults).0, n)
  {
    assert NamesOwner([OwnerRef(n, a.uid)], n) by { assert [OwnerRef(n, a.uid)][0].name == n; }
  }

  lemma AfterPrologueKeepsOwned(s1: Slice, n: string, a: Agent, input: ConfigInput, faults: Faults)
    requires DeploymentOwned(s1, n)
    ensures DeploymentOwned(AfterPrologue(s1, n, a, input, faults).0, n)
  {
    var (s2, m) := WorkspaceStep(s1, n, a, faults);
    WorkspaceKeepsOwned(s1, n, a, faults);
    if m.Mount? { EpilogueKeepsOwned(s2, n, a, input, m.pvc, faults); }
  }

  lemma WorkspaceKeepsOwned(s1: Slice, n: string, a: Agent, faults: Faults)
    requires DeploymentOwned(s1, n)
    ensures DeploymentOwned(WorkspaceStep(s1, n, a, faults).0, n)
  {
  }

  /** Reconcile keeps the owner reference of its Deployment, and puts it on a new one. */
  lemma ReconcileKeepsOwned(sl: Slice, n: string, ns: string, objs: Resolve.Objects, orders: KeyOrders, faults: Faults)
    requires DeploymentOwned(sl, n)
    ensures DeploymentOwned(ReconcileSlice(sl, n, ns, objs, orders, faults).0, n)
  {
    if sl.agent.Some? {
      var a := sl.agent.value;
      var input := Resolve.Resolved(objs, n, ns, a.spec);
      var (s1, ok) := Prologue(sl, OwnerRef(n, a.uid), input, orders, faults);
      PrologueKeepsRest(sl, OwnerRef(n, a.uid), input, orders, faults);
      if ok { AfterPrologueKeepsOwned(s1, n, a, input, faults); }
    }
  }

  /**
   A resize never stalls while the agent owns its Deployment: whatever writes fail, a reconcile
   that has not switched asks for a requeue, returns an error, or makes a change that the
   agent's watches report; and the agent still owns the Deployment afterwards.
   */
  lemma NeverStalls(sl: Slice, n: string, ns: string, objs: Resolve.Objects, orders: KeyOrders, faults: Faults)
    requires Resizing(sl, n) && DeploymentOwned(sl, n)
    ensures var (t, outcome) := ReconcileSlice(sl, n, ns, objs, orders, faults);
            (t.home.Some? ==> WillContinue(sl, n, t, outcome)) && DeploymentOwned(t, n)
  {
    ReconcileWorkspace(sl, n, ns, objs, orders, faults);
    ReconcileKeepsOwned(sl, n, ns, objs, orders, faults);
    var (t, outcome) := ReconcileSlice(sl, n, ns, objs, orders, faults);
    if t.home.Some? { EffectWritesDeployment(sl, n, t, outcome, faults); }
  }

  /**
   A finished migration that cannot be used is cleared: when the pod has failed, or the old volume
   cannot be deleted, the call returns an error, both volumes stay as they are, and the pod is
   gone iff its deletion succeeds, so that the next reconcile makes a new one.
   */
  lemma EffectClearsPod(sl: Slice, n: string, t: Slice, outcome: Outcome, faults: Faults)
    requires Resizing(sl, n) && Measure(sl) == 0 && Effect(sl, n, t, outcome, faults)
    requires PutIdentity !in faults && PutSkills !in faults && PutConfig !in faults && SyncOwners !in faults
    requires sl.pod.value.phase.Failed? || (sl.pod.value.phase.Succeeded? && DeleteOld in faults)
    ensures outcome == Error && t.homeV2 == sl.homeV2 && t.home.Some? && t.home.value.files == sl.home.value.files
    ensures t.pod == if DeletePod in faults then sl.pod else None
  {
    OwnNamesDistinct(n);
    assert faults * {PutIdentity, PutSkills, PutConfig} == {};
  }

  lemma FinishedPodIsCleared(sl: Slice, n: string, ns: string, objs: Resolve.Objects, orders: KeyOrders, faults: Faults)
    requires Resizing(sl, n) && Measure(sl) == 0
    requires PutIdentity !in faults && PutSkills !in faults && PutConfig !in faults && SyncOwners !in faults
    requires sl.pod.value.phase.Failed? || (sl.pod.value.phase.Succeeded? && DeleteOld in faults)
    ensures var (t, outcome) := ReconcileSlice(sl, n, ns, objs, orders, faults);
            && outcome == Error && t.homeV2 == sl.homeV2
            && t.home.Some? && t.home.value.files == sl.home.value.files
            && t.pod == if DeletePod in faults then sl.pod else None
  {
    ReconcileWorkspace(sl, n, ns, objs, orders, faults);
    var (t, outcome) := ReconcileSlice(sl, n, ns, objs, orders, faults);
    EffectClearsPod(sl, n, t, outcome, faults);
  }

  // ------------------------------------------------------------------ the account

  /** No failing writes, no edits, and nobody else changes the Deployment's spec. */
  predicate Steady(sl: Slice, ev: Event) {
    match ev
    case Reconciled(_, _, faults) => faults == {}
    case Edited(_) => false
    case WorkloadChanged(w) =>
      w.Some? && sl.deployment.Some? && w.value.spec == sl.deployment.value.spec
    case GarbageCollected(others) => Collected(sl, others).deployment == sl.deployment
    case _ => true
  }

  predicate SteadyRun(sl: Slice, n: string, ns: string, evs: seq<Event>) {
    evs == []
    || (SteadyRun(sl, n, ns, evs[..|evs| - 1]) && Steady(Run(sl, n, ns, evs[..|evs| - 1]), evs[|evs| - 1]))
  }

  datatype Tally = Tally(reconciles: nat, polls: nat, failures: nat)

  function Counted(c: Tally, sl: Slice, ev: Event): Tally {
    if !ev.Reconciled? then c
    else Tally(c.reconciles + 1,
               c.polls + (if NextKind(sl) == Polls then 1 else 0),
               c.failures + (if NextKind(sl) == ClearsFailure then 1 else 0))
  }

  function Count(sl: Slice, n: string, ns: string, evs: seq<Event>): Tally {
    if evs == [] then Tally(0, 0, 0)
    else Counted(Count(sl, n, ns, evs[..|evs| - 1]), Run(sl, n, ns, evs[..|evs| - 1]), evs[|evs| - 1])
  }

  lemma PodEventsKeepMeasure(sl: Slice, n: string, ns: string, ev: Event)
    requires Resizing(sl, n) && Steady(sl, ev) && !ev.Reconciled?
    ensures var t := Step(sl, n, ns, ev); Resizing(t, n) && Measure(t) == Measure(sl)
  {
    OwnNamesDistinct(n);
    if ev.GarbageCollected? { HeldVolumesStay(sl, ev.others); }
  }

  lemma StepAccount(sl: Slice, n: string, ns: string, ev: Event, c: Tally)
    requires Resizing(sl, n) && Steady(sl, ev) && !DropsHome(sl, n, ns, ev)
    ensures var t := Step(sl, n, ns, ev);
            var c' := Counted(c, sl, ev);
            && Resizing(t, n)
            && c'.reconciles + Measure(t) - 3 * c'.failures - c'.polls
               == c.reconciles + Measure(sl) - 3 * c.failures - c.polls
  {
    match ev
    case Reconciled(objs, orders, faults) =>
      ReconcileWorkspace(sl, n, ns, objs, orders, faults);
      var (t, outcome) := ReconcileSlice(sl, n, ns, objs, orders, faults);
      ReconcileProgress(sl, n, t, outcome);
    case _ =>
      PodEventsKeepMeasure(sl, n, ns, ev);
  }

  /**
   The account: over every steady run before the switch, reconciles made plus progress still
   to make equals the progress missing at the start, plus one per poll and three per failed
   migration.
   */
  lemma {:induction false} ResizeAccount(sl: Slice, n: string, ns: string, evs: seq<Event>)
    requires Resizing(sl, n) && KeepsHome(sl, n, ns, evs) && SteadyRun(sl, n, ns, evs)
    ensures var t := Run(sl, n, ns, evs);
            var c := Count(sl, n, ns, evs);
            && Resizing(t, n)
            && c.reconciles + Measure(t) == Measure(sl) + c.polls + 3 * c.failures
  {
    if evs != [] {
      var init := evs[..|evs| - 1];
      ResizeAccount(sl, n, ns, init);
      StepAccount(Run(sl, n, ns, init), n, ns, evs[|evs| - 1], Count(sl, n, ns, init));
    }
  }

  /** The switch, when it comes, is at most the sixth reconcile besides polls and three per failure. */
  lemma SwitchBound(sl: Slice, n: string, ns: string, evs: seq<Event>, last: Event)
    requires Resizing(sl, n) && KeepsHome(sl, n, ns, evs) && SteadyRun(sl, n, ns, evs)
    ensures var t := Run(sl, n, ns, evs);
            var c := Count(sl, n, ns, evs);
            Steady(t, last) && DropsHome(t, n, ns, last) ==>
              c.reconciles + 1 == Measure(sl) + 1 + c.polls + 3 * c.failures <= 6 + c.polls + 3 * c.failures
  {
    ResizeAccount(sl, n, ns, evs);
    var t := Run(sl, n, ns, evs);
    if Steady(t, last) { DropIsSafe(t, n, ns, last); }
  }

  /**
   And it does come: the next reconcile switches exactly when the account is spent, the progress
   missing at the start made up for, and the pod has succeeded.
   */
  lemma SwitchComesExactly(sl: Slice, n: string, ns: string, evs: seq<Event>, objs: Resolve.Objects, orders: KeyOrders)
    requires Resizing(sl, n) && KeepsHome(sl, n, ns, evs) && SteadyRun(sl, n, ns, evs)
    ensures var t := Run(sl, n, ns, evs);
            var c := Count(sl, n, ns, evs);
            DropsHome(t, n, ns, Reconciled(objs, orders, {}))
            <==> c.reconciles == Measure(sl) + c.polls + 3 * c.failures && t.pod.Some? && t.pod.value.phase.Succeeded?
  {
    ResizeAccount(sl, n, ns, evs);
    var t := Run(sl, n, ns, evs);
    ReconcileWorkspace(t, n, ns, objs, orders, {});
    var (u, outcome) := ReconcileSlice(t, n, ns, objs, orders, {});
    ReconcileProgress(t, n, u, outcome);
  }
}
