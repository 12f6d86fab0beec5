/**
 What one Reconcile call does to an agent's slice of the store: three ConfigMaps, the home
 volume, the Deployment, the Service and the status. The controller's methods are proved
 against these functions; the theorems about runs are stated on them.
 */
module Reconcile {
  import opened Prelude
  import opened Api
  import opened Cluster
  import opened Deployment
  import opened Resolve
  import opened Workspace
  import Harness
  import Text

  datatype Outcome = Done | RequeueAfter(seconds: nat) | Error

  // ---------------------------------------------------------- create or update

  /** ensureResource on a ConfigMap: create it, or update it when its data drifted. */
  function EnsureConfigMap(cm: Option<ConfigMap>, owner: OwnerRef, data: map<string, Content>,
                           fails: bool): (Option<ConfigMap>, bool) {
    if cm.None? then (if fails then (cm, false) else (Some(ConfigMap([owner], data, map[])), true))
    else if cm.value.data == data && cm.value.binaryData == map[] then (cm, true)
    else if fails then (cm, false)
    else (Some(cm.value.(data := data, binaryData := map[])), true)
  }

  const NO_STATUS := DeploymentStatus([], 0, 0)

  function EnsureWorkload(w: Option<Workload>, owner: OwnerRef, spec: DeploymentSpec,
                          fails: bool): (Option<Workload>, bool) {
    if w.None? then (if fails then (w, false) else (Some(Workload([owner], spec, NO_STATUS)), true))
    else if w.value.spec == spec then (w, true)
    else if fails then (w, false)
    else (Some(w.value.(spec := spec)), true)
  }

  /** Only drift in ports or selector counts, and the assigned cluster IP is kept. */
  function EnsureService(s: Option<Service>, owner: OwnerRef, spec: ServiceSpec, fails: bool): (Option<Service>, bool) {
    if s.None? then (if fails then (s, false) else (Some(Service([owner], spec)), true))
    else if s.value.spec.ports == spec.ports && s.value.spec.selector == spec.selector then (s, true)
    else if fails then (s, false)
    else (Some(s.value.(spec := spec.(clusterIP := s.value.spec.clusterIP))), true)
  }

  /** An existing Service keeps its address and owners, and ends with the desired ports and selector. */
  lemma ServiceAddressKept(s: Option<Service>, owner: OwnerRef, spec: ServiceSpec)
    ensures var (t, ok) := EnsureService(s, owner, spec, false);
            && ok && t.Some? && t.value.spec.ports == spec.ports && t.value.spec.selector == spec.selector
            && (s.Some? ==> t.value.spec.clusterIP == s.value.spec.clusterIP && t.value.owners == s.value.owners)
            && (s.None? ==> t.value.owners == [owner])
  {
  }

  // --------------------------------------------------------- desired ConfigMaps

  const SOUL_KEY := "SOUL.md"
  const USER_KEY := "USER.md"
  const IDENTITY_KEY := "IDENTITY.md"
  const HEARTBEAT_KEY := "HEARTBEAT.md"
  const TOOLS_KEY := "TOOLS.md"

  function SetText(m: map<string, Content>, k: string, text: string): map<string, Content> {
    if text != "" then m[k := Content.Text(text)] else m
  }

  function IdentityData(identity: AgentIdentitySpec): map<string, Content> {
    SetText(SetText(SetText(map[], SOUL_KEY, identity.soul), USER_KEY, identity.user), IDENTITY_KEY,
      identity.agentIdentity)
  }

  function SkillsData(skills: seq<SkillEntry>): map<string, Content> {
    if skills == [] then map[]
    else SkillsData(skills[..|skills| - 1])[skills[|skills| - 1].name := Content.Text(skills[|skills| - 1].content)]
  }

  /** What the agent finds in a mounted file; a missing one reads as nothing. */
  function TextAt(data: map<string, Content>, k: string): string {
    if k in data && data[k].Text? then data[k].text else ""
  }

  lemma IdentityKeysDiffer()
    ensures SOUL_KEY != USER_KEY && SOUL_KEY != IDENTITY_KEY && USER_KEY != IDENTITY_KEY
  {
    assert SOUL_KEY[0] != USER_KEY[0] && SOUL_KEY[0] != IDENTITY_KEY[0] && USER_KEY[0] != IDENTITY_KEY[0];
  }

  /** The mounted files read back as the agent's identity, none of them is empty, and there are no others. */
  lemma IdentityReadsBack(identity: AgentIdentitySpec)
    ensures var data := IdentityData(identity);
            && TextAt(data, SOUL_KEY) == identity.soul && TextAt(data, USER_KEY) == identity.user
            && TextAt(data, IDENTITY_KEY) == identity.agentIdentity
            && forall k :: k in data ==> k in {SOUL_KEY, USER_KEY, IDENTITY_KEY} && data[k] != Content.Text("")
  {
    IdentityKeysDiffer();
  }

  /** So the ConfigMap is rewritten exactly when some text of the identity has changed. */
  lemma IdentityDriftExactly(before: AgentIdentitySpec, after: AgentIdentitySpec)
    ensures IdentityData(before) == IdentityData(after) <==> before == after
  {
    IdentityReadsBack(before);
    IdentityReadsBack(after);
  }

  /** The keys are the skills' names. */
  lemma {:induction false} SkillKeys(skills: seq<SkillEntry>, k: string)
    ensures k in SkillsData(skills) <==> exists i :: 0 <= i < |skills| && skills[i].name == k
  {
    if skills != [] {
      var init, last := skills[..|skills| - 1], skills[|skills| - 1];
      SkillKeys(init, k);
      if k in SkillsData(init) {
        var i :| 0 <= i < |init| && init[i].name == k;
        assert skills[i].name == k;
      }
    }
  }

  /** A repeated name keeps the content of its last entry. */
  lemma {:induction false} LastSkillWins(skills: seq<SkillEntry>, i: nat)
    requires i < |skills| && forall j :: i < j < |skills| ==> skills[j].name != skills[i].name
    ensures SkillsData(skills)[skills[i].name := Content.Text(skills[i].content)] == SkillsData(skills)
    ensures TextAt(SkillsData(skills), skills[i].name) == skills[i].content
  {
    if i < |skills| - 1 {
      LastSkillWins(skills[..|skills| - 1], i);
      SkillKeys(skills, skills[i].name);
    }
  }

  function ToolPeers(a2a: A2ASpec): seq<A2APeer> { if a2a.enabled then Elems(a2a.peers) else [] }

  function ConfigDataFor(h: Harness.Kind, input: ConfigInput, doc: Harness.Document): map<string, Content> {
    map[Harness.ConfigFileName(h) := Generated(doc),
        HEARTBEAT_KEY := Heartbeat(input.name),
        TOOLS_KEY := Tools(input.name, input.ns, ToolPeers(input.spec.a2a))]
  }

  function HarnessOf(input: ConfigInput): Harness.Kind { Harness.ForType(input.spec.harness.kind) }

  function ConfigData(input: ConfigInput, orders: KeyOrders): map<string, Content> {
    ConfigDataFor(HarnessOf(input), input, Harness.Config(HarnessOf(input), input, orders))
  }

  // --------------------------------------------------------------------- status

  function Available(cs: seq<Condition>): bool {
    exists i :: 0 <= i < |cs| && cs[i].kind == "Available" && cs[i].status == "True"
  }

  /** resolveAgentStatus. */
  function Phase(w: Option<Workload>): string {
    if w.None? then "Pending"
    else if Available(w.value.status.conditions) then "Running"
    else if w.value.status.unavailable > 0 then "Progressing"
    else "Pending"
  }

  /** The phase in words, and the pod's name only while the agent runs. */
  lemma PhaseSpelled(n: string, w: Option<Workload>)
    ensures Phase(w) == "Running" <==>
              w.Some? && exists c :: c in w.value.status.conditions && c.kind == "Available" && c.status == "True"
    ensures Phase(w) == "Progressing" <==> w.Some? && Phase(w) != "Running" && w.value.status.unavailable > 0
    ensures Phase(w) in {"Running", "Progressing", "Pending"}
    ensures PodName(n, w) == if Phase(w) == "Running"
        then n + " (replicas: " + Text.Decimal(w.value.status.ready) + ")" else ""
  {
    assert "Running"[0] == 'R' && |"Progressing"| == 11 && |"Pending"| == 7;
    assert "Running"[0] != "Pending"[0] && "Running"[0] != "Progressing"[0];
  }

  function PodName(n: string, w: Option<Workload>): string {
    if w.Some? && Available(w.value.status.conditions)
    then n + " (replicas: " + Text.Decimal(w.value.status.ready) + ")"
    else ""
  }

  // ------------------------------------------------------------------ the phases

  /** The three ConfigMaps. */
  function Prologue(sl: Slice, owner: OwnerRef, input: ConfigInput, orders: KeyOrders, faults: Faults): (Slice, bool) {
    var (identity, ok1) := EnsureConfigMap(sl.identity, owner, IdentityData(input.spec.identity),
      PutIdentity in faults);
    if !ok1 then (sl, false)
    else
      var (skills, ok2) := EnsureConfigMap(sl.skills, owner, SkillsData(input.skills), PutSkills in faults);
      var s1 := sl.(identity := identity);
      if !ok2 then (s1, false)
      else
        var s2 := s1.(skills := skills);
        var h := HarnessOf(input);
        var (config, ok3) := EnsureConfigMap(s2.Config(h), owner, ConfigData(input, orders), PutConfig in faults);
        (s2.WithConfig(h, config), ok3)
  }

  /** The name to mount, a requeue, or an error. */
  datatype Mounting = Mount(pvc: string) | Later | Broken

  function WorkspaceStep(sl: Slice, n: string, a: Agent, faults: Faults): (Slice, Mounting) {
    if a.spec.workspace.IsPersistent() then
      var (s1, p) := EnsurePVC(sl, n, a, faults);
      (s1, match p case Proceed(v) => Mount(VolName(n, v)) case Requeue => Later case Abort => Broken)
    else
      var (s1, ok) := Cleanup(sl, faults);
      (s1, if ok then Mount("") else Broken)
  }

  /** Deployment, Service and status. */
  function Epilogue(sl: Slice, n: string, a: Agent, input: ConfigInput, activePVC: string,
                    faults: Faults): (Slice, Outcome) {
    var owner := OwnerRef(n, a.uid);
    var (deployment, ok1) := EnsureWorkload(sl.deployment, owner, DeploymentFor(input, activePVC),
      PutDeployment in faults);
    if !ok1 then (sl, Error)
    else
      var s1 := sl.(deployment := deployment);
      var (service, ok2) := EnsureService(s1.service, owner, ServiceFor(input), PutService in faults);
      if !ok2 then (s1, Error)
      else
        var s2 := s1.(service := service);
        var status := AgentStatus(Phase(deployment), PodName(n, deployment), activePVC);
        if status == a.status then (s2, Done)
        else if PutStatus in faults then (s2, Error)
        else (s2.(agent := Some(a.(status := status))), Done)
  }

  /** Everything after the ConfigMaps. */
  function AfterPrologue(s1: Slice, n: string, a: Agent, input: ConfigInput, faults: Faults): (Slice, Outcome) {
    var (s2, m) := WorkspaceStep(s1, n, a, faults);
    match m
    case Later => (s2, RequeueAfter(5))
    case Broken => (s2, Error)
    case Mount(pvc) => Epilogue(s2, n, a, input, pvc, faults)
  }

  /** One whole call, reads included, up to the dashboard. */
  function ReconcileSlice(sl: Slice, n: string, ns: string, objs: Objects, orders: KeyOrders,
                          faults: Faults): (Slice, Outcome) {
    if sl.agent.None? then (sl, Done)
    else
      var a := sl.agent.value;
      var input := Resolved(objs, n, ns, a.spec);
      var (s1, ok) := Prologue(sl, OwnerRef(n, a.uid), input, orders, faults);
      if !ok then (s1, Error) else AfterPrologue(s1, n, a, input, faults)
  }

  /** The same call on the whole store. */
  function ReconcileStore(s: Store, n: string, orders: KeyOrders, faults: Faults): (Store, Outcome) {
    var (sl, outcome) := ReconcileSlice(Get(s, n), n, s.ns, s.objects, orders, faults);
    (Put(s, n, sl), outcome)
  }

  // -------------------------------------------------------------- what stays put

  /** The ConfigMap phase when one of its first two writes stops it. */
  lemma PrologueStops(sl: Slice, owner: OwnerRef, input: ConfigInput, orders: KeyOrders, faults: Faults)
    ensures var (o1, ok1) := EnsureConfigMap(sl.identity, owner, IdentityData(input.spec.identity),
        PutIdentity in faults);
            var (o2, ok2) := EnsureConfigMap(sl.skills, owner, SkillsData(input.skills), PutSkills in faults);
            && (!ok1 ==> Prologue(sl, owner, input, orders, faults) == (sl.(identity := o1), false))
            && (ok1 && !ok2 ==>
                  Prologue(sl, owner, input, orders, faults) == (sl.(identity := o1).(skills := o2), false))
  {
  }

  /** The ConfigMap phase when they pass. */
  lemma PrologueEnds(sl: Slice, owner: OwnerRef, input: ConfigInput, orders: KeyOrders, faults: Faults)
    ensures var (o1, ok1) := EnsureConfigMap(sl.identity, owner, IdentityData(input.spec.identity),
        PutIdentity in faults);
            var (o2, ok2) := EnsureConfigMap(sl.skills, owner, SkillsData(input.skills), PutSkills in faults);
            var s2, h := sl.(identity := o1).(skills := o2), HarnessOf(input);
            var (o3, ok3) := EnsureConfigMap(s2.Config(h), owner, ConfigData(input, orders), PutConfig in faults);
            ok1 && ok2 ==> Prologue(sl, owner, input, orders, faults) == (s2.WithConfig(h, o3), ok3)
  {
  }

  /** The ConfigMap phase changes nothing but ConfigMaps. */
  lemma PrologueKeepsRest(sl: Slice, owner: OwnerRef, input: ConfigInput, orders: KeyOrders, faults: Faults)
    ensures var (t, _) := Prologue(sl, owner, input, orders, faults);
            && t.agent == sl.agent && t.deployment == sl.deployment && t.service == sl.service
            && t.home == sl.home && t.homeV2 == sl.homeV2 && t.pod == sl.pod
  {
    PrologueStops(sl, owner, input, orders, faults);
    PrologueEnds(sl, owner, input, orders, faults);
  }

  /** Nothing but volumes, the pod and the Deployment differs. */
  predicate SameTexts(sl: Slice, t: Slice) {
    && t.agent == sl.agent && t.service == sl.service && t.identity == sl.identity && t.skills == sl.skills
    && t.openclaw == sl.openclaw && t.observeclaw == sl.observeclaw && t.hermes == sl.hermes
  }

  lemma ResizeKeepsTexts(sl: Slice, n: string, ws: WorkspaceSpec, owner: OwnerRef, v: HomeVolume, faults: Faults)
    ensures SameTexts(sl, Resize(sl, n, ws, owner, v, faults).0)
  {
  }

  lemma EnsurePVCKeepsTexts(sl: Slice, n: string, a: Agent, faults: Faults)
    ensures SameTexts(sl, EnsurePVC(sl, n, a, faults).0)
  {
    var owner, v := OwnerRef(n, a.uid), ActiveVolume(n, a.status);
    if sl.Vol(v).Some? {
      var synced := Synced(sl.Vol(v).value, a.spec.workspace.ResolvedReclaimPolicy(), owner);
      ResizeKeepsTexts(sl.WithVol(v, Some(synced)), n, a.spec.workspace, owner, v, faults);
    }
  }

  /** The workspace phase changes nothing but volumes, the pod and the replica count. */
  lemma WorkspaceKeepsAgent(sl: Slice, n: string, a: Agent, faults: Faults)
    ensures var (t, _) := WorkspaceStep(sl, n, a, faults);
            && t.agent == sl.agent && t.service == sl.service && t.identity == sl.identity && t.skills == sl.skills
            && t.openclaw == sl.openclaw && t.observeclaw == sl.observeclaw && t.hermes == sl.hermes
  {
    if a.spec.workspace.IsPersistent() { EnsurePVCKeepsTexts(sl, n, a, faults); }
  }
}
