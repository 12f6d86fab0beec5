/**
 The fleet dashboard of one namespace: the page built from all agents, and the guarded write
 of the shared ConfigMap. Rendering the page as HTML is not modelled.
 */
module Fleet {
  import opened Prelude
  import opened Api
  import opened Names
  import opened Cluster
  import Dashboard
  import Resolve

  type Data = map<string, Content>

  const PAGE_KEY := "index.html"

  function Shortened(soul: string): string { if |soul| > 100 then soul[..100] + "..." else soul }

  const NO_POLICY := PolicySpec(ToolPolicySpec(None, None), BudgetSpec(0, 0, None, "", ""))

  function RowOf(objs: Resolve.Objects, name: string, a: Agent): Row {
    var s := a.spec;
    var p := Resolve.PolicyOf(objs, s.policy);
    var policy := if p.Some? then p.value else NO_POLICY;
    Row(name, a.status.phase, s.model.provider, s.model.name,
        if s.model.fallback.Some? then s.model.fallback.value.name else "",
        s.gateway, s.policy, s.skillSet, s.observability, Elems(s.channels), s.lifecycle.restartPolicy,
        s.lifecycle.maxRuntime,
        if s.lifecycle.hibernateAfterIdleMinutes.Some? then s.lifecycle.hibernateAfterIdleMinutes.value else 0,
        Shortened(s.identity.soul), policy.budget.daily, policy.budget.monthly, policy.budget.downgradeModel,
        Elems(policy.toolPolicy.deny))
  }

  /** Rows in the order the List call returned the agents. */
  function Rows(s: Store, listed: seq<string>): seq<Row> {
    if listed == [] then []
    else
      var name := listed[|listed| - 1];
      Rows(s, listed[..|listed| - 1]) + (if name in s.agents then [RowOf(s.objects, name, s.agents[name])] else [])
  }

  function FleetPage(s: Store, listed: seq<string>): Data { map[PAGE_KEY := Page(Rows(s, listed))] }

  function PageOf(s: Store): Option<Data> {
    var cm := Lookup(s.configMaps, DASHBOARD_NAME);
    if cm.Some? then Some(cm.value.data) else None
  }

  /** The write of the shared ConfigMap that stores a page; an existing one keeps its other fields. */
  function WithPage(s: Store, data: Data): Store {
    var cm := Lookup(s.configMaps, DASHBOARD_NAME);
    s.(configMaps := s.configMaps[DASHBOARD_NAME :=
         if cm.None? then ConfigMap([], data, map[]) else cm.value.(data := data)])
  }

  /** updateFleetDashboard on store and digest. */
  function Updated(hash: Data -> string, s: Store, last: string, listed: seq<string>,
                   attempt: Dashboard.Attempt): (Store, string) {
    var data := FleetPage(s, listed);
    if hash(data) == last || attempt.getFails then (s, last)
    else if PageOf(s).None? then (if attempt.createFails then s else WithPage(s, data), hash(data))
    else if attempt.updateFails then (s, last)
    else (WithPage(s, data), hash(data))
  }

  lemma PageStored(s: Store, data: Data)
    ensures PageOf(WithPage(s, data)) == Some(data)
    ensures forall k :: k != DASHBOARD_NAME ==> Lookup(WithPage(s, data).configMaps, k) == Lookup(s.configMaps, k)
  {
  }

  /** On the page and the digest this is exactly the cached critical section. */
  lemma UpdatedIsCached(hash: Data -> string, s: Store, last: string, listed: seq<string>, attempt: Dashboard.Attempt)
    ensures var (s', last') := Updated(hash, s, last, listed, attempt);
            && Dashboard.Cache(last', PageOf(s'))
               == Dashboard.Cached(hash, Dashboard.Cache(last, PageOf(s)),
                 Dashboard.Call(FleetPage(s, listed), attempt))
            && s' == s.(configMaps := s'.configMaps)
            && (forall k :: k != DASHBOARD_NAME ==> Lookup(s'.configMaps, k) == Lookup(s.configMaps, k))
  {
    PageStored(s, FleetPage(s, listed));
  }

  // ---------------------------------------------------------------- what a page shows

  /** Each column of an agent's row, by name; the budget columns are those of its policy, if there is one. */
  lemma RowSpelled(objs: Resolve.Objects, name: string, a: Agent)
    ensures var r, s := RowOf(objs, name, a), a.spec;
            && r.name == name && r.phase == a.status.phase && r.provider == s.model.provider && r.model == s.model.name
            && r.fallbackModel == (if s.model.fallback.Some? then s.model.fallback.value.name else "")
            && r.gateway == s.gateway && r.policy == s.policy && r.skillSet == s.skillSet
            && r.observability == s.observability && r.channels == Elems(s.channels)
            && r.restartPolicy == s.lifecycle.restartPolicy && r.maxRuntime == s.lifecycle.maxRuntime
            && r.idleHibernate == (if s.lifecycle.hibernateAfterIdleMinutes.Some?
                                   then s.lifecycle.hibernateAfterIdleMinutes.value else 0)
            && (|s.identity.soul| <= 100 ==> r.soul == s.identity.soul)
            && (|s.identity.soul| > 100 ==> r.soul == s.identity.soul[..100] + "...")
    ensures var r, s := RowOf(objs, name, a), a.spec;
            if s.policy != "" && Lookup(objs, PolicyRef(s.policy)).Some?
              && Lookup(objs, PolicyRef(s.policy)).value.PolicyObject?
            then
              var p := Lookup(objs, PolicyRef(s.policy)).value.policy;
              && r.budgetDaily == p.budget.daily && r.budgetMonthly == p.budget.monthly
              && r.downgradeModel == p.budget.downgradeModel && r.toolDeny == Elems(p.toolPolicy.deny)
            else r.budgetDaily == 0 && r.budgetMonthly == 0 && r.downgradeModel == "" && r.toolDeny == []
  {
  }

  /** Positions that pick out exactly the listed agents that exist, in the list's order. */
  predicate ShowsListed(s: Store, listed: seq<string>, rows: seq<Row>, at: seq<nat>) {
    && |at| == |rows|
    && (forall i, j :: 0 <= i < j < |at| ==> at[i] < at[j])
    && (forall i :: 0 <= i < |at| ==>
          at[i] < |listed| && listed[at[i]] in s.agents
            && rows[i] == RowOf(s.objects, listed[at[i]], s.agents[listed[at[i]]]))
    && (forall k :: 0 <= k < |listed| && listed[k] in s.agents ==> k in at)
  }

  lemma ShowsGrow(s: Store, listed: seq<string>, rows: seq<Row>, at: seq<nat>, name: string)
    requires ShowsListed(s, listed, rows, at) && name in s.agents
    ensures ShowsListed(s, listed + [name], rows + [RowOf(s.objects, name, s.agents[name])], at + [|listed|])
  {
    var listed', at' := listed + [name], at + [|listed|];
    forall k | 0 <= k < |listed'| && listed'[k] in s.agents ensures k in at' {
      if k == |listed| { assert at'[|at|] == k; } else { assert listed'[k] == listed[k] && k in at; }
    }
  }

  lemma ShowsSkip(s: Store, listed: seq<string>, rows: seq<Row>, at: seq<nat>, name: string)
    requires ShowsListed(s, listed, rows, at) && name !in s.agents
    ensures ShowsListed(s, listed + [name], rows, at)
  {
    var listed' := listed + [name];
    forall k | 0 <= k < |listed'| && listed'[k] in s.agents ensures k in at { assert listed'[k] == listed[k]; }
  }

  /** A page shows exactly the agents that were listed and still exist, one row each, in the order of the list. */
  lemma {:induction false} RowsShowListed(s: Store, listed: seq<string>) returns (at: seq<nat>)
    ensures ShowsListed(s, listed, Rows(s, listed), at)
  {
    if listed == [] {
      at := [];
    } else {
      var init, last := listed[..|listed| - 1], listed[|listed| - 1];
      assert listed == init + [last];
      at := RowsShowListed(s, init);
      if last in s.agents {
        ShowsGrow(s, init, Rows(s, init), at, last);
        at := at + [|init|];
      } else {
        ShowsSkip(s, init, Rows(s, init), at, last);
        assert Rows(s, listed) == Rows(s, init);
      }
    }
  }

  lemma PageSpelled(s: Store, listed: seq<string>)
    ensures FleetPage(s, listed) == map["index.html" := Page(Rows(s, listed))]
  {
  }
}
