/**
 Runs of the whole namespace: any number of agents reconciled in any order, objects and agents
 changing, garbage collected, dashboards written. Seen from one agent's slice such a run is a run of module Runs,
 so its theorems hold in the cluster.
 */
module ClusterRuns {
  import opened Prelude
  import opened Cluster
  import opened Reconcile
  import opened Workspace
  import opened Runs
  import opened Modes
  import Independence
  import Fleet

  datatype ClusterEvent =
    | Visited(n: string, visit: Independence.Visit)
    | OnSlice(n: string, ev: Event)
    | ObjectChanged(r: Ref, o: Option<Object>)
    | AgentReplaced(n: string, a: Option<Agent>)

  datatype State = State(store: Store, digest: string)

  function ClusterStep(hash: Fleet.Data -> string, st: State, e: ClusterEvent): State {
    match e
    case Visited(n, visit) =>
      var (s, digest, _) := Independence.Full(hash, st.store, st.digest, n, visit);
      State(s, digest)
    case OnSlice(n, ev) =>
      if ev.Reconciled? then st
      else st.(store := Put(st.store, n, Step(Get(st.store, n), n, st.store.ns, ev)))
    case ObjectChanged(r, o) => st.(store := st.store.(objects := Assign(st.store.objects, r, o)))
    case AgentReplaced(n, a) => st.(store := st.store.(agents := Assign(st.store.agents, n, a)))
  }

  function ClusterRun(hash: Fleet.Data -> string, st: State, es: seq<ClusterEvent>): State {
    if es == [] then st else ClusterStep(hash, ClusterRun(hash, st, es[..|es| - 1]), es[|es| - 1])
  }

  /** What one cluster event is to agent `n`. */
  function Seen(st: State, e: ClusterEvent, n: string): seq<Event> {
    match e
    case Visited(m, visit) => if m == n then [Reconciled(st.store.objects, visit.orders, visit.faults)] else []
    case OnSlice(m, ev) => if m == n && !ev.Reconciled? then [ev] else []
    case _ => []
  }

  function SeenAll(hash: Fleet.Data -> string, st: State, es: seq<ClusterEvent>, n: string): seq<Event> {
    if es == [] then []
    else SeenAll(hash, st, es[..|es| - 1], n) + Seen(ClusterRun(hash, st, es[..|es| - 1]), es[|es| - 1], n)
  }

  /** The agent is not deleted or re-created behind the theorem's back. */
  predicate Admissible(e: ClusterEvent, n: string) { e.AgentReplaced? ==> e.n != n }

  /** A full Reconcile call of agent `m`, seen from `n`. */
  lemma VisitProjects(hash: Fleet.Data -> string, st: State, m: string, visit: Independence.Visit, n: string)
    ensures var t := ClusterStep(hash, st, Visited(m, visit)).store;
            && t.ns == st.store.ns
            && Get(t, n) == (if m == n
                             then ReconcileSlice(Get(st.store, n), n, st.store.ns, st.store.objects, visit.orders,
                               visit.faults).0
                             else Get(st.store, n))
  {
    var core := ReconcileStore(st.store, m, visit.orders, visit.faults).0;
    var t := ClusterStep(hash, st, Visited(m, visit)).store;
    Independence.FullIsCorePlusPage(hash, st.store, st.digest, m, visit.orders, visit.faults, visit.listed,
      visit.attempt);
    Independence.SlicesIgnorePage(t, core, n, Get(t, n));
    var x := ReconcileSlice(Get(st.store, m), m, st.store.ns, st.store.objects, visit.orders, visit.faults).0;
    if m == n { GetPut(st.store, n, x); } else { GetPutOther(st.store, m, x, n); }
  }

  lemma SliceEventProjects(s: Store, m: string, ev: Event, n: string)
    ensures Get(Put(s, m, Step(Get(s, m), m, s.ns, ev)), n)
            == if m == n then Step(Get(s, n), n, s.ns, ev) else Get(s, n)
  {
    var x := Step(Get(s, m), m, s.ns, ev);
    if m == n { GetPut(s, n, x); } else { GetPutOther(s, m, x, n); }
  }

  /** One cluster event is nothing, or one slice event, to each agent. */
  lemma StepProjects(hash: Fleet.Data -> string, st: State, e: ClusterEvent, n: string)
    requires Admissible(e, n)
    ensures var t := ClusterStep(hash, st, e);
            && t.store.ns == st.store.ns
            && Get(t.store, n) == Run(Get(st.store, n), n, st.store.ns, Seen(st, e, n))
            && |Seen(st, e, n)| <= 1
  {
    match e
    case Visited(m, visit) =>
      VisitProjects(hash, st, m, visit, n);
      RunOfOne(Get(st.store, n), n, st.store.ns, Reconciled(st.store.objects, visit.orders, visit.faults));
    case OnSlice(m, ev) =>
      SliceEventProjects(st.store, m, ev, n);
      RunOfOne(Get(st.store, n), n, st.store.ns, ev);
    case ObjectChanged(r, o) =>
    case AgentReplaced(m, a) =>
      assert Lookup(Assign(st.store.agents, m, a), n) == Lookup(st.store.agents, n);
  }

  /** Projection: a cluster run is, to each agent, the run of the events it sees. */
  lemma {:induction false} RunProjects(hash: Fleet.Data -> string, st: State, es: seq<ClusterEvent>, n: string)
    requires forall i :: 0 <= i < |es| ==> Admissible(es[i], n)
    ensures var seen := SeenAll(hash, st, es, n);
            && ClusterRun(hash, st, es).store.ns == st.store.ns
            && Get(ClusterRun(hash, st, es).store, n) == Run(Get(st.store, n), n, st.store.ns, seen)
  {
    if es != [] {
      var init, e := es[..|es| - 1], es[|es| - 1];
      RunProjects(hash, st, init, n);
      var mid := ClusterRun(hash, st, init);
      StepProjects(hash, mid, e, n);
      RunConcat(Get(st.store, n), n, st.store.ns, SeenAll(hash, st, init, n), Seen(mid, e, n));
    }
  }

  // ------------------------------------------------------ the theorem in the cluster

  predicate ClusterDropsHome(hash: Fleet.Data -> string, st: State, e: ClusterEvent, n: string) {
    Get(st.store, n).home.Some? && Get(ClusterStep(hash, st, e).store, n).home.None?
  }

  /** The agent is persistent and loses its original volume. */
  predicate ClusterSwitches(hash: Fleet.Data -> string, st: State, e: ClusterEvent, n: string) {
    !Ephemeral(Get(st.store, n)) && ClusterDropsHome(hash, st, e, n)
  }

  /** The agent's own clean-up, if this is one, does not stop between its two deletions. */
  predicate ClusterWhole(st: State, e: ClusterEvent, n: string) {
    e.Visited? && e.n == n && Ephemeral(Get(st.store, n)) ==> DeleteHomeV2 !in e.visit.faults
  }

  predicate ClusterUpToTheSwitch(hash: Fleet.Data -> string, st: State, es: seq<ClusterEvent>, n: string) {
    es == []
    || (var before := ClusterRun(hash, st, es[..|es| - 1]);
        var e := es[|es| - 1];
        ClusterUpToTheSwitch(hash, st, es[..|es| - 1], n) && !ClusterSwitches(hash, before, e, n)
          && ClusterWhole(before, e, n))
  }

  /** What an event that passes the cluster's conditions looks like in the agent's own run. */
  lemma SeenPasses(hash: Fleet.Data -> string, st: State, e: ClusterEvent, n: string)
    requires Admissible(e, n) && !ClusterSwitches(hash, st, e, n) && ClusterWhole(st, e, n)
    requires Seen(st, e, n) != []
    ensures var ev := Seen(st, e, n)[0];
            !Switches(Get(st.store, n), n, st.store.ns, ev) && WholeCleanUp(Get(st.store, n), ev)
  {
    StepProjects(hash, st, e, n);
    var more := Seen(st, e, n);
    assert more == [more[0]];
    RunOfOne(Get(st.store, n), n, st.store.ns, more[0]);
  }

  lemma UpToSnoc(sl: Slice, n: string, ns: string, evs: seq<Event>, ev: Event)
    requires UpToTheSwitch(sl, n, ns, evs)
    requires !Switches(Run(sl, n, ns, evs), n, ns, ev) && WholeCleanUp(Run(sl, n, ns, evs), ev)
    ensures UpToTheSwitch(sl, n, ns, evs + [ev])
  {
    assert (evs + [ev])[..|evs + [ev]| - 1] == evs;
  }

  lemma {:induction false} UpToTheSwitchProjects(hash: Fleet.Data -> string, st: State, es: seq<ClusterEvent>,
                                                 n: string)
    requires forall i :: 0 <= i < |es| ==> Admissible(es[i], n)
    requires ClusterUpToTheSwitch(hash, st, es, n)
    ensures UpToTheSwitch(Get(st.store, n), n, st.store.ns, SeenAll(hash, st, es, n))
  {
    if es != [] {
      var init, e := es[..|es| - 1], es[|es| - 1];
      UpToTheSwitchProjects(hash, st, init, n);
      RunProjects(hash, st, init, n);
      var mid := ClusterRun(hash, st, init);
      UpToGrows(hash, Get(st.store, n), n, SeenAll(hash, st, init, n), mid, e);
    }
  }

  lemma UpToGrows(hash: Fleet.Data -> string, sl: Slice, n: string, seen: seq<Event>, mid: State, e: ClusterEvent)
    requires Get(mid.store, n) == Run(sl, n, mid.store.ns, seen) && UpToTheSwitch(sl, n, mid.store.ns, seen)
    requires Admissible(e, n) && !ClusterSwitches(hash, mid, e, n) && ClusterWhole(mid, e, n)
    ensures UpToTheSwitch(sl, n, mid.store.ns, seen + Seen(mid, e, n))
  {
    var more := Seen(mid, e, n);
    if more == [] {
      assert seen + more == seen;
    } else {
      SeenPasses(hash, mid, e, n);
      assert more == [more[0]];
      UpToSnoc(sl, n, mid.store.ns, seen, more[0]);
    }
  }

  /**
   No premature deletion in the cluster: however many agents there are and whatever their
   reconciles do in between, an agent's original volume is only taken by that agent's own
   reconcile, and by a persistent one only in the safe state; the pod it finds has copied the
   volume it switches to iff no ephemeral pass has left that pod over.
   */
  lemma NoPrematureDeletionInCluster(hash: Fleet.Data -> string, st: State, es: seq<ClusterEvent>, e: ClusterEvent,
                                     n: string)
    requires Unswitched(Get(st.store, n), n) && Get(st.store, n).pod.None?
    requires Admissible(e, n) && forall i :: 0 <= i < |es| ==> Admissible(es[i], n)
    requires ClusterUpToTheSwitch(hash, st, es, n)
    ensures var before := ClusterRun(hash, st, es);
            var flags := FlagsOf(Get(st.store, n), n, st.store.ns, SeenAll(hash, st, es, n));
            ClusterDropsHome(hash, before, e, n) ==>
              && e.Visited? && e.n == n
              && (!Ephemeral(Get(before.store, n)) ==>
                    && SafeToDrop(Get(before.store, n), n)
                    && Get(ClusterStep(hash, before, e).store, n).homeV2 == Get(before.store, n).homeV2
                    && (flags.copied <==> !flags.leftOver))
  {
    RunProjects(hash, st, es, n);
    UpToTheSwitchProjects(hash, st, es, n);
    var before := ClusterRun(hash, st, es);
    StepProjects(hash, before, e, n);
    var more := Seen(before, e, n);
    if ClusterDropsHome(hash, before, e, n) {
      assert more != [];
      assert more == [more[0]];
      RunOfOne(Get(before.store, n), n, st.store.ns, more[0]);
      NoPrematureDeletion(Get(st.store, n), n, st.store.ns, SeenAll(hash, st, es, n), more[0]);
    }
  }
}
