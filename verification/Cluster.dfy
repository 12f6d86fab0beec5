/**
 The API server's store as tables keyed by object name (one namespace), and each agent's
 slice of it: the agent, its ConfigMaps, Deployment, Service, home volumes and migration
 pod. The lens laws at the end rest on Names: slices of different agents are disjoint.
 */
module Cluster {
  import opened Prelude
  import opened Api
  import opened Names
  import opened Deployment
  import Harness

  // ------------------------------------------------------------------- objects

  datatype OwnerRef = OwnerRef(name: string, uid: nat)

  /** Values of ConfigMap keys; rendered text other than the configuration is named by its inputs. */
  datatype Content =
    | Text(text: string)
    | Generated(document: Harness.Document)
    | Heartbeat(agent: string)
    | Tools(agent: string, ns: string, peers: seq<A2APeer>)
    | Page(rows: seq<Row>)

  /** One agent on the fleet dashboard. */
  datatype Row = Row(
    name: string, phase: string, provider: string, model: string, fallbackModel: string, gateway: string,
    policy: string, skillSet: string, observability: string, channels: seq<string>, restartPolicy: string,
    maxRuntime: string, idleHibernate: int, soul: string, budgetDaily: int, budgetMonthly: int,
    downgradeModel: string, toolDeny: seq<string>)

  datatype ConfigMap = ConfigMap(owners: seq<OwnerRef>, data: map<string, Content>, binaryData: map<string, string>)

  datatype Condition = Condition(kind: string, status: string)

  datatype DeploymentStatus = DeploymentStatus(conditions: seq<Condition>, ready: nat, unavailable: nat)

  datatype Workload = Workload(owners: seq<OwnerRef>, spec: DeploymentSpec, status: DeploymentStatus)

  datatype Service = Service(owners: seq<OwnerRef>, spec: ServiceSpec)

  /** A volume claim with the files on its volume. */
  datatype PVC = PVC(owners: seq<OwnerRef>, size: nat, storageClass: Option<string>, files: map<string, string>)

  datatype PodPhase = Pending | Running | Succeeded | Failed

  datatype MigrationPod = MigrationPod(src: string, dst: string, phase: PodPhase)

  datatype Agent = Agent(uid: nat, spec: AgentSpec, status: AgentStatus)

  /** A shared object an agent may refer to by kind and name. */
  datatype Ref =
    | PolicyRef(name: string)
    | SkillSetRef(name: string)
    | ChannelRef(name: string)
    | GatewayRef(name: string)
    | ObservabilityRef(name: string)

  datatype Object =
    | PolicyObject(policy: PolicySpec)
    | SkillSetObject(skills: seq<SkillEntry>)
    | ChannelObject(channel: ChannelSpec)
    | GatewayObject(gateway: GatewaySpec)
    | ObservabilityObject(otlpEndpoint: string)

  datatype Store = Store(
    ns: string,
    agents: map<string, Agent>,
    objects: map<Ref, Object>,
    configMaps: map<string, ConfigMap>,
    deployments: map<string, Workload>,
    services: map<string, Service>,
    pvcs: map<string, PVC>,
    pods: map<string, MigrationPod>)

  // -------------------------------------------------------------------- slices

  datatype Slice = Slice(
    agent: Option<Agent>,
    identity: Option<ConfigMap>, skills: Option<ConfigMap>,
    openclaw: Option<ConfigMap>, observeclaw: Option<ConfigMap>, hermes: Option<ConfigMap>,
    deployment: Option<Workload>, service: Option<Service>,
    home: Option<PVC>, homeV2: Option<PVC>, pod: Option<MigrationPod>)
  {
    function Config(h: Harness.Kind): Option<ConfigMap> {
      match h
      case OpenClawHarness => openclaw
      case ObserveClawHarness => observeclaw
      case HermesHarness => hermes
    }

    function WithConfig(h: Harness.Kind, cm: Option<ConfigMap>): Slice {
      match h
      case OpenClawHarness => this.(openclaw := cm)
      case ObserveClawHarness => this.(observeclaw := cm)
      case HermesHarness => this.(hermes := cm)
    }

    function Vol(v: HomeVolume): Option<PVC> { if v.Home? then home else homeV2 }

    function WithVol(v: HomeVolume, p: Option<PVC>): Slice {
      if v.Home? then this.(home := p) else this.(homeV2 := p)
    }
  }

  /** The two generations of an agent's home volume. */
  datatype HomeVolume = Home | HomeV2

  function VolName(agent: string, v: HomeVolume): string {
    agent + if v.Home? then PVC_SUFFIX else PVC_RESIZE_SUFFIX
  }

  function Get(s: Store, n: string): Slice {
    Slice(
      Lookup(s.agents, n),
      Lookup(s.configMaps, n + IDENTITY_SUFFIX), Lookup(s.configMaps, n + SKILLS_SUFFIX),
      Lookup(s.configMaps, n + OPENCLAW_SUFFIX), Lookup(s.configMaps, n + OBSERVECLAW_SUFFIX),
      Lookup(s.configMaps, n + HERMES_SUFFIX),
      Lookup(s.deployments, n), Lookup(s.services, n),
      Lookup(s.pvcs, VolName(n, Home)), Lookup(s.pvcs, VolName(n, HomeV2)), Lookup(s.pods, n + MIGRATE_POD_SUFFIX))
  }

  function ConfigMapNames(n: string): seq<string> {
    [n + IDENTITY_SUFFIX, n + SKILLS_SUFFIX, n + OPENCLAW_SUFFIX, n + OBSERVECLAW_SUFFIX, n + HERMES_SUFFIX]
  }

  function ConfigMaps(x: Slice): seq<Option<ConfigMap>> {
    [x.identity, x.skills, x.openclaw, x.observeclaw, x.hermes]
  }

  function VolumeNames(n: string): seq<string> { [VolName(n, Home), VolName(n, HomeV2)] }

  function Volumes(x: Slice): seq<Option<PVC>> { [x.home, x.homeV2] }

  function Put(s: Store, n: string, x: Slice): Store {
    s.(agents := Assign(s.agents, n, x.agent),
       configMaps := AssignAll(s.configMaps, ConfigMapNames(n), ConfigMaps(x)),
       deployments := Assign(s.deployments, n, x.deployment),
       services := Assign(s.services, n, x.service),
       pvcs := AssignAll(s.pvcs, VolumeNames(n), Volumes(x)),
       pods := Assign(s.pods, n + MIGRATE_POD_SUFFIX, x.pod))
  }

  // ----------------------------------------------------------------- lens laws

  lemma OwnNamesDistinct(n: string)
    ensures forall i, j :: 0 <= i < j < 5 ==> ConfigMapNames(n)[i] != ConfigMapNames(n)[j]
    ensures VolName(n, Home) != VolName(n, HomeV2)
  {
    var ks := ConfigMapNames(n);
    assert |ks[0]| == |n| + 9 && |ks[1]| == |n| + 7 && |ks[2]| == |n| + 16 && |ks[3]| == |n| + 19
      && |ks[4]| == |n| + 14;
    assert |VolName(n, Home)| == |n| + 5 && |VolName(n, HomeV2)| == |n| + 8;
  }

  /** Names of different agents are apart in every table. */
  lemma NamesApart(n: string, m: string)
    requires n != m
    ensures forall k :: k in ConfigMapNames(n) ==> k !in ConfigMapNames(m)
    ensures forall k :: k in VolumeNames(n) ==> k !in VolumeNames(m)
    ensures n + MIGRATE_POD_SUFFIX != m + MIGRATE_POD_SUFFIX
  {
    AgentsShareNoName(n, m);
    forall k | k in ConfigMapNames(n) ensures k !in ConfigMapNames(m) {
      var s := SuffixOf(n, k);
      if k in ConfigMapNames(m) { var t := SuffixOf(m, k); }
    }
  }

  lemma SuffixOf(n: string, k: string) returns (suffix: string)
    requires k in ConfigMapNames(n)
    ensures suffix in CONFIG_MAP_SUFFIXES && k == n + suffix
  {
    var i :| 0 <= i < 5 && ConfigMapNames(n)[i] == k;
    suffix := [IDENTITY_SUFFIX, SKILLS_SUFFIX, OPENCLAW_SUFFIX, OBSERVECLAW_SUFFIX, HERMES_SUFFIX][i];
  }

  /** Reading back what was written. */
  lemma GetPut(s: Store, n: string, x: Slice)
    ensures Get(Put(s, n, x), n) == x
  {
    OwnNamesDistinct(n);
    var ks := ConfigMapNames(n);
    forall i: nat | i < 5 ensures Lookup(Put(s, n, x).configMaps, ks[i]) == ConfigMaps(x)[i] {
      AssignAllAt(s.configMaps, ks, ConfigMaps(x), i);
    }
    assert Lookup(Put(s, n, x).configMaps, ks[0]) == x.identity && Lookup(Put(s, n, x).configMaps, ks[1]) == x.skills;
    assert Lookup(Put(s, n, x).configMaps, ks[2]) == x.openclaw
      && Lookup(Put(s, n, x).configMaps, ks[3]) == x.observeclaw;
    assert Lookup(Put(s, n, x).configMaps, ks[4]) == x.hermes;
    AssignAllAt(s.pvcs, VolumeNames(n), Volumes(x), 0);
    AssignAllAt(s.pvcs, VolumeNames(n), Volumes(x), 1);
  }

  /** Writing one agent's slice leaves every other agent's slice alone. */
  lemma GetPutOther(s: Store, n: string, x: Slice, m: string)
    requires n != m
    ensures Get(Put(s, n, x), m) == Get(s, m)
  {
    NamesApart(m, n);
    var ks := ConfigMapNames(m);
    assert ks[0] in ks && ks[1] in ks && ks[2] in ks && ks[3] in ks && ks[4] in ks;
    assert VolumeNames(m)[0] in VolumeNames(m) && VolumeNames(m)[1] in VolumeNames(m);
  }

  /** The last write of a slice counts. */
  lemma PutPut(s: Store, n: string, x: Slice, y: Slice)
    ensures Put(Put(s, n, x), n, y) == Put(s, n, y)
  {
    var t := Put(s, n, x);
    AssignAllLast(t.configMaps, s.configMaps, ConfigMapNames(n), ConfigMaps(y));
    AssignAllLast(t.pvcs, s.pvcs, VolumeNames(n), Volumes(y));
    AssignAssign(s.agents, n, x.agent, y.agent);
    AssignAssign(s.deployments, n, x.deployment, y.deployment);
    AssignAssign(s.services, n, x.service, y.service);
    AssignAssign(s.pods, n + MIGRATE_POD_SUFFIX, x.pod, y.pod);
  }

  /** Writing back what was read changes nothing. */
  lemma PutGet(s: Store, n: string)
    ensures Put(s, n, Get(s, n)) == s
  {
    var x := Get(s, n);
    AssignAllSame(s.configMaps, ConfigMapNames(n), ConfigMaps(x));
    AssignAllSame(s.pvcs, VolumeNames(n), Volumes(x));
    AssignLookup(s.agents, n);
    AssignLookup(s.deployments, n);
    AssignLookup(s.services, n);
    AssignLookup(s.pods, n + MIGRATE_POD_SUFFIX);
  }

  /** Writes to different agents' slices commute. */
  lemma PutCommutes(s: Store, n: string, x: Slice, m: string, y: Slice)
    requires n != m
    ensures Put(Put(s, n, x), m, y) == Put(Put(s, m, y), n, x)
  {
    NamesApart(n, m);
    AssignAllCommutes(s.configMaps, ConfigMapNames(n), ConfigMaps(x), ConfigMapNames(m), ConfigMaps(y));
    AssignAllCommutes(s.pvcs, VolumeNames(n), Volumes(x), VolumeNames(m), Volumes(y));
    AssignCommutes(s.agents, n, x.agent, m, y.agent);
    AssignCommutes(s.deployments, n, x.deployment, m, y.deployment);
    AssignCommutes(s.services, n, x.service, m, y.service);
    AssignCommutes(s.pods, n + MIGRATE_POD_SUFFIX, x.pod, m + MIGRATE_POD_SUFFIX, y.pod);
  }

  /** `t` differs from `s` at most in agent `n`'s slice. */
  ghost predicate OnlyTouches(s: Store, t: Store, n: string) { t == Put(s, n, Get(t, n)) }

  lemma OnlyTouchesTransitive(s: Store, t: Store, u: Store, n: string)
    requires OnlyTouches(s, t, n) && OnlyTouches(t, u, n)
    ensures OnlyTouches(s, u, n)
  {
    PutPut(s, n, Get(t, n), Get(u, n));
  }

  /** Outside agent `n`'s own names the two stores are the same. */
  ghost predicate SameOutside(s: Store, t: Store, n: string) {
    && s.ns == t.ns && s.objects == t.objects
    && (forall k :: k != n ==> Lookup(s.agents, k) == Lookup(t.agents, k))
    && (forall k :: k != n ==> Lookup(s.deployments, k) == Lookup(t.deployments, k))
    && (forall k :: k != n ==> Lookup(s.services, k) == Lookup(t.services, k))
    && (forall k :: k !in ConfigMapNames(n) ==> Lookup(s.configMaps, k) == Lookup(t.configMaps, k))
    && (forall k :: k !in VolumeNames(n) ==> Lookup(s.pvcs, k) == Lookup(t.pvcs, k))
    && (forall k :: k != n + MIGRATE_POD_SUFFIX ==> Lookup(s.pods, k) == Lookup(t.pods, k))
  }

  lemma SameOutsideTouches(s: Store, t: Store, n: string)
    requires SameOutside(s, t, n)
    ensures OnlyTouches(s, t, n)
  {
    var x := Get(t, n);
    PutGet(t, n);
    SharedTablesTouched(s, t, n, x);
    SameBeside(s.agents, t.agents, n, x.agent);
    SameBeside(s.deployments, t.deployments, n, x.deployment);
    SameBeside(s.services, t.services, n, x.service);
    SameBeside(s.pods, t.pods, n + MIGRATE_POD_SUFFIX, x.pod);
  }

  /** Tables that agree but for one key are equal once that key is written. */
  lemma SameBeside<V>(s: map<string, V>, t: map<string, V>, n: string, o: Option<V>)
    requires forall k :: k != n ==> Lookup(s, k) == Lookup(t, k)
    ensures Assign(s, n, o) == Assign(t, n, o)
  {
    SameTable(Assign(s, n, o), Assign(t, n, o));
  }

  lemma SharedTablesTouched(s: Store, t: Store, n: string, x: Slice)
    requires SameOutside(s, t, n)
    ensures AssignAll(s.configMaps, ConfigMapNames(n), ConfigMaps(x))
        == AssignAll(t.configMaps, ConfigMapNames(n), ConfigMaps(x))
    ensures AssignAll(s.pvcs, VolumeNames(n), Volumes(x)) == AssignAll(t.pvcs, VolumeNames(n), Volumes(x))
  {
    AssignAllLast(s.configMaps, t.configMaps, ConfigMapNames(n), ConfigMaps(x));
    AssignAllLast(s.pvcs, t.pvcs, VolumeNames(n), Volumes(x));
  }

  // One write to one of the agent's own objects, seen through its slice.

  lemma WriteAgent(s: Store, n: string, o: Option<Agent>)
    ensures var t := s.(agents := Assign(s.agents, n, o)); OnlyTouches(s, t, n) && Get(t, n) == Get(s, n).(agent := o)
  {
    SameOutsideTouches(s, s.(agents := Assign(s.agents, n, o)), n);
  }

  lemma WriteWorkload(s: Store, n: string, o: Option<Workload>)
    ensures var t := s.(deployments := Assign(s.deployments, n, o));
            OnlyTouches(s, t, n) && Get(t, n) == Get(s, n).(deployment := o)
  {
    SameOutsideTouches(s, s.(deployments := Assign(s.deployments, n, o)), n);
  }

  lemma WriteService(s: Store, n: string, o: Option<Service>)
    ensures var t := s.(services := Assign(s.services, n, o));
            OnlyTouches(s, t, n) && Get(t, n) == Get(s, n).(service := o)
  {
    SameOutsideTouches(s, s.(services := Assign(s.services, n, o)), n);
  }

  lemma WriteVolume(s: Store, n: string, v: HomeVolume, o: Option<PVC>)
    ensures var t := s.(pvcs := Assign(s.pvcs, VolName(n, v), o));
            OnlyTouches(s, t, n) && Get(t, n) == Get(s, n).WithVol(v, o)
  {
    OwnNamesDistinct(n);
    assert VolName(n, v) == VolumeNames(n)[if v.Home? then 0 else 1];
    SameOutsideTouches(s, s.(pvcs := Assign(s.pvcs, VolName(n, v), o)), n);
  }

  lemma WritePod(s: Store, n: string, o: Option<MigrationPod>)
    ensures var t := s.(pods := Assign(s.pods, n + MIGRATE_POD_SUFFIX, o));
            OnlyTouches(s, t, n) && Get(t, n) == Get(s, n).(pod := o)
  {
    SameOutsideTouches(s, s.(pods := Assign(s.pods, n + MIGRATE_POD_SUFFIX, o)), n);
  }

  lemma WriteIdentity(s: Store, n: string, o: Option<ConfigMap>)
    ensures var t := s.(configMaps := Assign(s.configMaps, n + IDENTITY_SUFFIX, o));
            OnlyTouches(s, t, n) && Get(t, n) == Get(s, n).(identity := o)
  {
    OwnNamesSpelled(n);
    assert ConfigMapNames(n)[0] in ConfigMapNames(n);
    SameOutsideTouches(s, s.(configMaps := Assign(s.configMaps, n + IDENTITY_SUFFIX, o)), n);
  }

  lemma WriteSkills(s: Store, n: string, o: Option<ConfigMap>)
    ensures var t := s.(configMaps := Assign(s.configMaps, n + SKILLS_SUFFIX, o));
            OnlyTouches(s, t, n) && Get(t, n) == Get(s, n).(skills := o)
  {
    OwnNamesSpelled(n);
    assert ConfigMapNames(n)[1] in ConfigMapNames(n);
    SameOutsideTouches(s, s.(configMaps := Assign(s.configMaps, n + SKILLS_SUFFIX, o)), n);
  }

  lemma WriteConfig(s: Store, n: string, h: Harness.Kind, o: Option<ConfigMap>)
    ensures var t := s.(configMaps := Assign(s.configMaps, n + Harness.ConfigMapSuffix(h), o));
            OnlyTouches(s, t, n) && Get(t, n) == Get(s, n).WithConfig(h, o)
            && Lookup(s.configMaps, n + Harness.ConfigMapSuffix(h)) == Get(s, n).Config(h)
  {
    OwnNamesSpelled(n);
    var ks := ConfigMapNames(n);
    assert ks[2] in ks && ks[3] in ks && ks[4] in ks;
    SameOutsideTouches(s, s.(configMaps := Assign(s.configMaps, n + Harness.ConfigMapSuffix(h), o)), n);
  }

  lemma OwnNamesSpelled(n: string)
    ensures n + IDENTITY_SUFFIX != n + SKILLS_SUFFIX && n + IDENTITY_SUFFIX != n + OPENCLAW_SUFFIX
    ensures n + IDENTITY_SUFFIX != n + OBSERVECLAW_SUFFIX && n + IDENTITY_SUFFIX != n + HERMES_SUFFIX
    ensures n + SKILLS_SUFFIX != n + OPENCLAW_SUFFIX && n + SKILLS_SUFFIX != n + OBSERVECLAW_SUFFIX
    ensures n + SKILLS_SUFFIX != n + HERMES_SUFFIX && n + OPENCLAW_SUFFIX != n + OBSERVECLAW_SUFFIX
    ensures n + OPENCLAW_SUFFIX != n + HERMES_SUFFIX && n + OBSERVECLAW_SUFFIX != n + HERMES_SUFFIX
  {
    OwnNamesDistinct(n);
    var ks := ConfigMapNames(n);
    assert ks[0] != ks[1] && ks[0] != ks[2] && ks[0] != ks[3] && ks[0] != ks[4] && ks[1] != ks[2];
    assert ks[1] != ks[3] && ks[1] != ks[4] && ks[2] != ks[3] && ks[2] != ks[4] && ks[3] != ks[4];
  }
}
