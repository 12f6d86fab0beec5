/**
 Reconciles of different agents do not interfere, on the whole store and with the dashboard
 write included, and an object an agent does not refer to makes no difference to its reconcile.
 */
module Independence {
  import opened Prelude
  import opened Api
  import opened Names
  import opened Cluster
  import opened Workspace
  import opened Reconcile
  import opened Controller
  import Resolve
  import Dashboard
  import Fleet

  // ----------------------------------------------------------------- commuting

  /** Replacing one agent's slice and then another's, in both orders, each computed from what it finds. */
  lemma SlicesCommute(s: Store, a: string, x: Slice, b: string, y: Slice)
    requires a != b
    ensures Get(Put(s, a, x), b) == Get(s, b) && Get(Put(s, b, y), a) == Get(s, a)
    ensures Put(Put(s, a, x), b, y) == Put(Put(s, b, y), a, x)
  {
    GetPutOther(s, a, x, b);
    GetPutOther(s, b, y, a);
    PutCommutes(s, a, x, b, y);
  }

  /** Reconciles of two different agents commute: same store, same outcomes, whatever fails. */
  lemma ReconcilesCommute(s: Store, a: string, oa: KeyOrders, fa: Faults, b: string, ob: KeyOrders, fb: Faults)
    requires a != b
    ensures var (s1, ra) := ReconcileStore(s, a, oa, fa);
            var (s12, rb) := ReconcileStore(s1, b, ob, fb);
            var (s2, rb') := ReconcileStore(s, b, ob, fb);
            var (s21, ra') := ReconcileStore(s2, a, oa, fa);
            s12 == s21 && ra == ra' && rb == rb'
  {
    var x := ReconcileSlice(Get(s, a), a, s.ns, s.objects, oa, fa).0;
    var y := ReconcileSlice(Get(s, b), b, s.ns, s.objects, ob, fb).0;
    SlicesCommute(s, a, x, b, y);
  }

  /** Equal in everything but the shared dashboard ConfigMap. */
  ghost predicate SameButPage(s: Store, t: Store) {
    && s == t.(configMaps := s.configMaps)
    && forall k :: k != DASHBOARD_NAME ==> Lookup(s.configMaps, k) == Lookup(t.configMaps, k)
  }

  lemma SlicesIgnorePage(s: Store, t: Store, n: string, x: Slice)
    requires SameButPage(s, t)
    ensures Get(s, n) == Get(t, n) && SameButPage(Put(s, n, x), Put(t, n, x))
  {
    var ks := ConfigMapNames(n);
    forall k | k in ks ensures Lookup(s.configMaps, k) == Lookup(t.configMaps, k) {
      var suffix := SuffixOf(n, k);
      DashboardIsNoChild(n, suffix);
    }
    assert ks[0] in ks && ks[1] in ks && ks[2] in ks && ks[3] in ks && ks[4] in ks;
    var u, v := Put(s, n, x), Put(t, n, x);
    forall k | k != DASHBOARD_NAME ensures Lookup(u.configMaps, k) == Lookup(v.configMaps, k) {
      if k in ks {
        OwnNamesDistinct(n);
        var i :| 0 <= i < 5 && ks[i] == k;
        AssignAllAt(s.configMaps, ks, ConfigMaps(x), i);
        AssignAllAt(t.configMaps, ks, ConfigMaps(x), i);
      }
    }
  }

  lemma ReconcileIgnoresPage(s: Store, t: Store, n: string, orders: KeyOrders, faults: Faults)
    requires SameButPage(s, t)
    ensures var (u, ru) := ReconcileStore(s, n, orders, faults);
            var (v, rv) := ReconcileStore(t, n, orders, faults);
            SameButPage(u, v) && ru == rv
  {
    SlicesIgnorePage(s, t, n, ReconcileSlice(Get(s, n), n, s.ns, s.objects, orders, faults).0);
  }

  lemma FullIsCorePlusPage(hash: Fleet.Data -> string, s: Store, last: string, n: string, orders: KeyOrders,
                           faults: Faults,
                           listed: seq<string>, attempt: Dashboard.Attempt)
    ensures var (t, last', r) := FullReconcile(hash, s, last, n, orders, faults, listed, attempt);
            SameButPage(t, ReconcileStore(s, n, orders, faults).0) && r == ReconcileStore(s, n, orders, faults).1
  {
    var (s', outcome) := ReconcileStore(s, n, orders, faults);
    Fleet.UpdatedIsCached(hash, s', last, listed, attempt);
  }

  /** The dashboard is touched only by a call that found its agent and ended well. */
  lemma DashboardOnlyWhenDone(hash: Fleet.Data -> string, s: Store, last: string, n: string, orders: KeyOrders,
                              faults: Faults, listed: seq<string>, attempt: Dashboard.Attempt)
    ensures var (t, last', r) := FullReconcile(hash, s, last, n, orders, faults, listed, attempt);
            (r != Done || n !in s.agents) ==> last' == last && Fleet.PageOf(t) == Fleet.PageOf(s)
  {
    var x := ReconcileSlice(Get(s, n), n, s.ns, s.objects, orders, faults).0;
    PageKept(s, n, x);
  }

  lemma PageKept(s: Store, n: string, x: Slice)
    ensures Fleet.PageOf(Put(s, n, x)) == Fleet.PageOf(s)
  {
    forall k | k in ConfigMapNames(n) ensures k != DASHBOARD_NAME {
      var suffix := SuffixOf(n, k);
      DashboardIsNoChild(n, suffix);
    }
    assert Lookup(Put(s, n, x).configMaps, DASHBOARD_NAME) == Lookup(s.configMaps, DASHBOARD_NAME);
  }

  /** What a worker hands to one full Reconcile call besides the agent's name. */
  datatype Visit = Visit(orders: KeyOrders, faults: Faults, listed: seq<string>, attempt: Dashboard.Attempt)

  function Full(hash: Fleet.Data -> string, s: Store, last: string, n: string, v: Visit): (Store, string, Outcome) {
    FullReconcile(hash, s, last, n, v.orders, v.faults, v.listed, v.attempt)
  }

  /** Full Reconcile calls for different agents commute on everything but the dashboard. */
  lemma FullReconcilesCommute(hash: Fleet.Data -> string, s: Store, last: string, a: string, va: Visit, b: string,
                              vb: Visit)
    requires a != b
    ensures var (s1, l1, ra) := Full(hash, s, last, a, va);
            var (s12, _, rb) := Full(hash, s1, l1, b, vb);
            var (s2, l2, rb') := Full(hash, s, last, b, vb);
            var (s21, _, ra') := Full(hash, s2, l2, a, va);
            SameButPage(s12, s21) && ra == ra' && rb == rb'
  {
    var (s1, l1, ra) := Full(hash, s, last, a, va);
    var (s2, l2, rb') := Full(hash, s, last, b, vb);
    FullIsCorePlusPage(hash, s, last, a, va.orders, va.faults, va.listed, va.attempt);
    FullIsCorePlusPage(hash, s1, l1, b, vb.orders, vb.faults, vb.listed, vb.attempt);
    FullIsCorePlusPage(hash, s, last, b, vb.orders, vb.faults, vb.listed, vb.attempt);
    FullIsCorePlusPage(hash, s2, l2, a, va.orders, va.faults, va.listed, va.attempt);
    ReconcileIgnoresPage(s1, ReconcileStore(s, a, va.orders, va.faults).0, b, vb.orders, vb.faults);
    ReconcileIgnoresPage(s2, ReconcileStore(s, b, vb.orders, vb.faults).0, a, va.orders, va.faults);
    ReconcilesCommute(s, a, va.orders, va.faults, b, vb.orders, vb.faults);
  }

  /** A changed object makes no difference to the reconcile of an agent its mapper leaves out. */
  lemma UnmappedReconcilesSame(sl: Slice, n: string, ns: string, objs: Resolve.Objects, r: Ref, o: Option<Object>,
                               orders: KeyOrders, faults: Faults)
    requires r.name != "" && (sl.agent.Some? ==> !Resolve.References(sl.agent.value.spec, r))
    ensures ReconcileSlice(sl, n, ns, Assign(objs, r, o), orders, faults)
        == ReconcileSlice(sl, n, ns, objs, orders, faults)
  {
    if sl.agent.Some? { Resolve.UnmappedUnchanged(objs, r, o, n, ns, sl.agent.value.spec); }
  }
}
