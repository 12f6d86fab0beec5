/**
 From mount to data: after a call that ends well, the files each init container reads at its mount
 paths are the agent's own configuration, identity and skills, followed through the volume of the
 mount's name and the ConfigMap the volume names; and all containers share the volume that the
 status names.
 */
module Seeding {
  import opened Prelude
  import opened Api
  import opened Names
  import opened Cluster
  import opened Deployment
  import opened Workspace
  import opened Reconcile
  import opened Complete
  import Stalls
  import Resolve
  import Harness
  import Hermes
  import OpenClaw

  // ------------------------------------------------------------ following a mount

  function MountAt(ms: seq<VolumeMount>, path: string): Option<VolumeMount> {
    if ms == [] then None else if ms[0].path == path then Some(ms[0]) else MountAt(ms[1..], path)
  }

  function SourceNamed(vs: seq<Volume>, name: string): Option<VolumeSource> {
    if vs == [] then None else if vs[0].name == name then Some(vs[0].source) else SourceNamed(vs[1..], name)
  }

  function ContainerNamed(cs: seq<InitContainer>, name: string): Option<InitContainer> {
    if cs == [] then None else if cs[0].name == name then Some(cs[0]) else ContainerNamed(cs[1..], name)
  }

  /** The source of the volume mounted at a path. */
  function SourceAt(pod: PodTemplate, ms: seq<VolumeMount>, path: string): Option<VolumeSource> {
    var m := MountAt(ms, path);
    if m.Some? then SourceNamed(pod.volumes, m.value.name) else None
  }

  /** The files found at a path, when a ConfigMap is mounted there. */
  function FilesAt(s: Store, pod: PodTemplate, ms: seq<VolumeMount>, path: string): Option<map<string, Content>> {
    var source := SourceAt(pod, ms, path);
    if source.Some? && source.value.FromConfigMap? && source.value.configMap in s.configMaps
    then Some(s.configMaps[source.value.configMap].data) else None
  }

  lemma {:induction false} NamedAt(vs: seq<Volume>, k: nat)
    requires k < |vs| && forall i, j :: 0 <= i < j < |vs| ==> vs[i].name != vs[j].name
    ensures SourceNamed(vs, vs[k].name) == Some(vs[k].source)
  {
    if k > 0 {
      assert vs[1..][k - 1] == vs[k];
      NamedAt(vs[1..], k - 1);
    }
  }

  lemma {:induction false} PathAt(ms: seq<VolumeMount>, k: nat)
    requires k < |ms| && forall i, j :: 0 <= i < j < |ms| ==> ms[i].path != ms[j].path
    ensures MountAt(ms, ms[k].path) == Some(ms[k])
  {
    if k > 0 {
      assert ms[1..][k - 1] == ms[k];
      PathAt(ms[1..], k - 1);
    }
  }

  // ------------------------------------------------------------- the finished pod

  predicate IsHermes(input: ConfigInput) { input.spec.harness.kind == "hermes" }

  /** The source of each volume of the pod, by the volume's name. */
  lemma Sources(input: ConfigInput, pvc: string)
    ensures var vs := DeploymentFor(input, pvc).template.volumes;
            && SourceNamed(vs, "harness-home")
               == Some(if input.spec.workspace.IsPersistent() && pvc != "" then Claim(pvc) else EmptyDir)
            && SourceNamed(vs, "config-src")
               == Some(FromConfigMap(input.name + Harness.ConfigMapSuffix(HarnessOf(input))))
            && SourceNamed(vs, "identity-src") == Some(FromConfigMap(input.name + "-identity"))
            && SourceNamed(vs, "skills-src") == Some(FromConfigMap(input.name + "-skills"))
  {
    var vs := DeploymentFor(input, pvc).template.volumes;
    VolumesNamed(input, pvc);
    NamesDiffer(input, pvc);
    NamedAt(vs, 0);
    NamedAt(vs, 1);
    NamedAt(vs, 2);
    NamedAt(vs, 3);
  }

  lemma SeedPathsDiffer(h: Harness.Kind, image: string)
    ensures var ms := InitContainers(h, image)[1].mounts;
            forall i, j :: 0 <= i < j < |ms| ==> ms[i].path != ms[j].path
  {
    var ms := InitContainers(h, image)[1].mounts;
    assert |ms[0].path| == 11 && |ms[1].path| == 13 && |ms[2].path| == 11 && |ms[3].path| == 13;
    assert ms[0].path[1] != ms[2].path[1] && ms[1].path[1] != ms[3].path[1];
  }

  /** What the seed container mounts, by path. */
  lemma SeedMounts(h: Harness.Kind, image: string)
    ensures var seed := ContainerNamed(InitContainers(h, image), "seed-workspace");
            && seed.Some? && seed.value.script == SeedWorkspace(h)
            && MountAt(seed.value.mounts, "/config-src") == Some(VolumeMount("config-src", "/config-src", true))
            && MountAt(seed.value.mounts, "/identity-src") == Some(VolumeMount("identity-src", "/identity-src", true))
            && MountAt(seed.value.mounts, "/skills-src") == Some(VolumeMount("skills-src", "/skills-src", true))
            && MountAt(seed.value.mounts, "/harness-home") == Some(VolumeMount("harness-home", "/harness-home", false))
  {
    var cs := InitContainers(h, image);
    assert |cs[0].name| == 15 && |cs[1].name| == 14;
    assert ContainerNamed(cs, cs[1].name) == ContainerNamed(cs[1..], cs[1].name) && cs[1..][0] == cs[1];
    SeedPathsDiffer(h, image);
    PathAt(cs[1].mounts, 0);
    PathAt(cs[1].mounts, 1);
    PathAt(cs[1].mounts, 2);
    PathAt(cs[1].mounts, 3);
  }

  /**
   Integration credentials: the secret the agent names is mounted, read-only, below the home of
   the agent's runtime, and nothing is when it names none.
   */
  lemma CredentialsByName(input: ConfigInput, pvc: string)
    ensures var pod := DeploymentFor(input, pvc).template;
            var path := (if IsHermes(input) then "/opt/data" else "/home/node/.openclaw") + "/credentials";
            && MountAt(pod.container.mounts, path)
               == (if input.spec.credentialsSecret == ""
                 then None else Some(VolumeMount("credentials-secret", path, true)))
            && (input.spec.credentialsSecret != "" ==>
                  SourceAt(pod, pod.container.mounts, path) == Some(FromSecret(input.spec.credentialsSecret)))
  {
    var pod := DeploymentFor(input, pvc).template;
    var home := Harness.HomePath(HarnessOf(input));
    HermesByName(input);
    assert |home + "/credentials"| > |home|;
    assert pod.container.mounts[0].path == home;
    if input.spec.credentialsSecret != "" {
      assert pod.container.mounts[1] == VolumeMount("credentials-secret", home + "/credentials", true);
      PathAt(pod.container.mounts, 1);
      VolumesNamed(input, pvc);
      NamesDiffer(input, pvc);
      NamedAt(pod.volumes, 4);
    }
  }

  // ----------------------------------------------------------------- the texts

  lemma WrittenData(cm: Option<ConfigMap>, owner: OwnerRef, data: map<string, Content>)
    ensures Written(cm, owner, data).Some? && Written(cm, owner, data).value.data == data
  {
  }

  /** The agent's ConfigMaps in the resulting slice hold what the input asks for. */
  predicate TextsWritten(t: Slice, input: ConfigInput, orders: KeyOrders) {
    && t.identity.Some? && t.identity.value.data == IdentityData(input.spec.identity)
    && t.skills.Some? && t.skills.value.data == SkillsData(input.skills)
    && t.Config(HarnessOf(input)).Some? && t.Config(HarnessOf(input)).value.data == ConfigData(input, orders)
  }

  lemma CompletedWrites(sl: Slice, n: string, a: Agent, input: ConfigInput, orders: KeyOrders, faults: Faults, t: Slice)
    requires Completed(sl, n, a, input, orders, faults, t)
    ensures TextsWritten(t, input, orders)
  {
    var owner, h := OwnerRef(n, a.uid), HarnessOf(input);
    Stalls.CompletedTexts(sl, n, a, input, orders, faults, t);
    WrittenData(sl.identity, owner, IdentityData(input.spec.identity));
    WrittenData(sl.skills, owner, SkillsData(input.skills));
    WrittenData(sl.Config(h), owner, ConfigData(input, orders));
    SlotHolds(sl, h, t, Written(sl.identity, owner, IdentityData(input.spec.identity)),
              Written(sl.skills, owner, SkillsData(input.skills)),
                Written(sl.Config(h), owner, ConfigData(input, orders)));
  }

  lemma SlotHolds(sl: Slice, h: Harness.Kind, t: Slice, identity: Option<ConfigMap>, skills: Option<ConfigMap>,
                  config: Option<ConfigMap>)
    requires var s1 := sl.(identity := identity, skills := skills).WithConfig(h, config);
             && t.identity == s1.identity && t.skills == s1.skills && t.openclaw == s1.openclaw
             && t.observeclaw == s1.observeclaw && t.hermes == s1.hermes
    ensures t.identity == identity && t.skills == skills && t.Config(h) == config
  {
  }

  // --------------------------------------------------------------- the theorem

  /** The generated configuration, by the harness of the agent's type. */
  function DocumentOf(input: ConfigInput, orders: KeyOrders): Harness.Document {
    if IsHermes(input) then Harness.HermesYaml(Hermes.Config(input, orders))
    else Harness.OpenClawJson(OpenClaw.Config(input))
  }

  predicate ConfigThere(files: map<string, Content>, input: ConfigInput, orders: KeyOrders) {
    && Lookup(files, if IsHermes(input) then "config.yaml" else "openclaw.json")
      == Some(Generated(DocumentOf(input, orders)))
    && Lookup(files, "HEARTBEAT.md") == Some(Heartbeat(input.name))
    && Lookup(files, "TOOLS.md")
       == Some(Tools(input.name, input.ns, if input.spec.a2a.enabled then Elems(input.spec.a2a.peers) else []))
  }

  predicate IdentityThere(files: map<string, Content>, identity: AgentIdentitySpec) {
    && TextAt(files, "SOUL.md") == identity.soul && TextAt(files, "USER.md") == identity.user
    && TextAt(files, "IDENTITY.md") == identity.agentIdentity
    && forall k :: k in files ==> k in {"SOUL.md", "USER.md", "IDENTITY.md"} && files[k] != Content.Text("")
  }

  ghost predicate SkillsThere(files: map<string, Content>, skills: seq<SkillEntry>) {
    && (forall k :: k in files <==> exists i :: 0 <= i < |skills| && skills[i].name == k)
    && (forall i :: 0 <= i < |skills| && (forall j :: i < j < |skills| ==> skills[j].name != skills[i].name) ==>
          TextAt(files, skills[i].name) == skills[i].content)
  }

  /** The seed container of the agent's Deployment reads the agent's own files. */
  ghost predicate SeedReads(s: Store, n: string, input: ConfigInput, orders: KeyOrders) {
    && n in s.deployments
    && var pod := s.deployments[n].spec.template;
       var seed := ContainerNamed(pod.initContainers, "seed-workspace");
       && seed.Some? && seed.value.script == SeedWorkspace(HarnessOf(input))
       && var config := FilesAt(s, pod, seed.value.mounts, "/config-src");
          var identity := FilesAt(s, pod, seed.value.mounts, "/identity-src");
          var skills := FilesAt(s, pod, seed.value.mounts, "/skills-src");
          && config.Some? && ConfigThere(config.value, input, orders)
          && identity.Some? && IdentityThere(identity.value, input.spec.identity)
          && skills.Some? && SkillsThere(skills.value, input.skills)
  }

  lemma ConfigDataThere(input: ConfigInput, orders: KeyOrders)
    ensures ConfigThere(ConfigData(input, orders), input, orders)
  {
    assert "HEARTBEAT.md"[0] == 'H' && "TOOLS.md"[0] == 'T' && "config.yaml"[0] == 'c' && "openclaw.json"[0] == 'o';
    HermesByName(input);
  }

  lemma HermesByName(input: ConfigInput)
    ensures HarnessOf(input).HermesHarness? <==> IsHermes(input)
  {
    assert "hermes"[0] == 'h' && "observeclaw"[0] == 'o';
  }

  lemma IdentityDataThere(identity: AgentIdentitySpec)
    ensures IdentityThere(IdentityData(identity), identity)
  {
    IdentityReadsBack(identity);
  }

  lemma SkillsDataThere(skills: seq<SkillEntry>)
    ensures SkillsThere(SkillsData(skills), skills)
  {
    forall k ensures k in SkillsData(skills) <==> exists i :: 0 <= i < |skills| && skills[i].name == k {
      SkillKeys(skills, k);
    }
    forall i | 0 <= i < |skills| && (forall j :: i < j < |skills| ==> skills[j].name != skills[i].name)
      ensures TextAt(SkillsData(skills), skills[i].name) == skills[i].content
    {
      LastSkillWins(skills, i);
    }
  }

  /** The agent's ConfigMaps in the store, by name. */
  lemma StoredTexts(s: Store, n: string, t: Slice, input: ConfigInput, orders: KeyOrders)
    requires Get(s, n) == t && TextsWritten(t, input, orders)
    ensures n + "-identity" in s.configMaps && s.configMaps[n + "-identity"].data == IdentityData(input.spec.identity)
    ensures n + "-skills" in s.configMaps && s.configMaps[n + "-skills"].data == SkillsData(input.skills)
    ensures var c := n + Harness.ConfigMapSuffix(HarnessOf(input));
            c in s.configMaps && s.configMaps[c].data == ConfigData(input, orders)
  {
    assert Lookup(s.configMaps, n + IDENTITY_SUFFIX) == t.identity
      && Lookup(s.configMaps, n + SKILLS_SUFFIX) == t.skills;
    ConfigByName(s, n, HarnessOf(input));
  }

  lemma ConfigByName(s: Store, n: string, h: Harness.Kind)
    ensures Lookup(s.configMaps, n + Harness.ConfigMapSuffix(h)) == Get(s, n).Config(h)
  {
  }

  lemma SeedReadsFrom(s: Store, n: string, input: ConfigInput, orders: KeyOrders, pvc: string)
    requires input.name == n && TextsWritten(Get(s, n), input, orders)
    requires n in s.deployments && s.deployments[n].spec == DeploymentFor(input, pvc)
    ensures SeedReads(s, n, input, orders)
  {
    SeedFiles(s, n, input, orders, pvc);
    ConfigDataThere(input, orders);
    IdentityDataThere(input.spec.identity);
    SkillsDataThere(input.skills);
  }

  lemma SeedFiles(s: Store, n: string, input: ConfigInput, orders: KeyOrders, pvc: string)
    requires input.name == n && TextsWritten(Get(s, n), input, orders)
    requires n in s.deployments && s.deployments[n].spec == DeploymentFor(input, pvc)
    ensures var pod := s.deployments[n].spec.template;
            var seed := ContainerNamed(pod.initContainers, "seed-workspace");
            && seed.Some? && seed.value.script == SeedWorkspace(HarnessOf(input))
            && FilesAt(s, pod, seed.value.mounts, "/config-src") == Some(ConfigData(input, orders))
            && FilesAt(s, pod, seed.value.mounts, "/identity-src") == Some(IdentityData(input.spec.identity))
            && FilesAt(s, pod, seed.value.mounts, "/skills-src") == Some(SkillsData(input.skills))
  {
    StoredTexts(s, n, Get(s, n), input, orders);
    SeedSources(input, pvc);
  }

  lemma SeedSources(input: ConfigInput, pvc: string)
    ensures var pod := DeploymentFor(input, pvc).template;
            var seed := ContainerNamed(pod.initContainers, "seed-workspace");
            && seed.Some? && seed.value.script == SeedWorkspace(HarnessOf(input))
            && SourceAt(pod, seed.value.mounts, "/config-src")
               == Some(FromConfigMap(input.name + Harness.ConfigMapSuffix(HarnessOf(input))))
            && SourceAt(pod, seed.value.mounts, "/identity-src") == Some(FromConfigMap(input.name + "-identity"))
            && SourceAt(pod, seed.value.mounts, "/skills-src") == Some(FromConfigMap(input.name + "-skills"))
  {
    Sources(input, pvc);
    SeedMounts(HarnessOf(input), MainContainer(input).image);
  }

  /**
   After every call that ends well the seed container finds the agent's own files: at /config-src
   the generated configuration under the name the seed script copies, with HEARTBEAT.md and
   TOOLS.md, at /identity-src the three identity texts, and at /skills-src the skills.
   */
  lemma SeedFindsItsFiles(s: Store, n: string, orders: KeyOrders, faults: Faults)
    requires n in s.agents
    ensures var (s', outcome) := ReconcileStore(s, n, orders, faults);
            outcome == Done ==> SeedReads(s', n, Resolve.Resolved(s.objects, n, s.ns, s.agents[n].spec), orders)
  {
    var sl := Get(s, n);
    var a := s.agents[n];
    var input := Resolve.Resolved(s.objects, n, s.ns, a.spec);
    var (t, outcome) := ReconcileSlice(sl, n, s.ns, s.objects, orders, faults);
    DoneIsComplete(sl, n, s.ns, s.objects, orders, faults);
    GetPut(s, n, t);
    if outcome == Done {
      CompletedWrites(sl, n, a, input, orders, faults, t);
      CompletedDeploys(sl, n, a, input, orders, faults, t);
      assert Lookup(Put(s, n, t).deployments, n) == t.deployment;
      SeedReadsFrom(Put(s, n, t), n, input, orders, t.agent.value.status.workspacePVC);
    }
  }

  lemma CompletedDeploys(sl: Slice, n: string, a: Agent, input: ConfigInput, orders: KeyOrders, faults: Faults,
                         t: Slice)
    requires Completed(sl, n, a, input, orders, faults, t)
    ensures t.agent.Some? && t.deployment.Some?
    ensures t.deployment.value.spec == DeploymentFor(input, t.agent.value.status.workspacePVC)
  {
    var s1 := Prologue(sl, OwnerRef(n, a.uid), input, orders, faults).0;
    var (s2, m) := WorkspaceStep(s1, n, a, faults);
    EndsWithDeployment(s2, n, a, input, m.pvc, t);
  }

  // ------------------------------------------------------------------ seed copies

  /** So no copy on which the seed script insists fails for want of its file. */
  lemma NoCopyFails(s: Store, n: string, input: ConfigInput, orders: KeyOrders, c: Harness.Copy)
    requires SeedReads(s, n, input, orders) && c in Harness.SeedCopies(HarnessOf(input)) && !c.tolerated
    ensures var pod := s.deployments[n].spec.template;
            var files := FilesAt(s, pod, ContainerNamed(pod.initContainers, "seed-workspace").value.mounts, c.mount);
            files.Some? && c.file in files.value
  {
    RequiredCopies(input, c);
  }

  lemma RequiredCopies(input: ConfigInput, c: Harness.Copy)
    requires c in Harness.SeedCopies(HarnessOf(input)) && !c.tolerated
    ensures c.mount == "/config-src" && (c.file == "HEARTBEAT.md"
                                         || c.file == if IsHermes(input) then "config.yaml" else "openclaw.json")
  {
    HermesByName(input);
  }

  // ------------------------------------------------------------------- the home volume

  /** Every container finds the same volume where it keeps the agent's files. */
  predicate SharesHome(pod: PodTemplate, hermes: bool, source: VolumeSource) {
    && SourceAt(pod, pod.container.mounts, if hermes then "/opt/data" else "/home/node/.openclaw") == Some(source)
    && var copy := ContainerNamed(pod.initContainers, "copy-extensions");
       var seed := ContainerNamed(pod.initContainers, "seed-workspace");
       && copy.Some? && SourceAt(pod, copy.value.mounts, "/harness-home") == Some(source)
       && seed.Some? && SourceAt(pod, seed.value.mounts, "/harness-home") == Some(source)
  }

  lemma HomeShared(input: ConfigInput, pvc: string)
    ensures SharesHome(DeploymentFor(input, pvc).template, IsHermes(input),
                       if input.spec.workspace.IsPersistent() && pvc != "" then Claim(pvc) else EmptyDir)
  {
    Sources(input, pvc);
    SeedMounts(HarnessOf(input), MainContainer(input).image);
    HermesByName(input);
    var c := MainContainer(input);
    assert c.mounts[0] == VolumeMount("harness-home", Harness.HomePath(HarnessOf(input)), false);
  }

  /** After every call that ends well all containers share the volume that the stored status names, or scratch space. */
  lemma HomeIsStatusVolume(s: Store, n: string, orders: KeyOrders, faults: Faults)
    requires n in s.agents
    ensures var (s', outcome) := ReconcileStore(s, n, orders, faults);
            outcome == Done ==>
              && n in s'.agents && n in s'.deployments
              && var pvc := s'.agents[n].status.workspacePVC;
                 SharesHome(s'.deployments[n].spec.template, s.agents[n].spec.harness.kind == "hermes",
                            if s.agents[n].spec.workspace.mode == "persistent"
                              && pvc != "" then Claim(pvc) else EmptyDir)
  {
    var sl := Get(s, n);
    var a := s.agents[n];
    var input := Resolve.Resolved(s.objects, n, s.ns, a.spec);
    var (t, outcome) := ReconcileSlice(sl, n, s.ns, s.objects, orders, faults);
    DoneIsComplete(sl, n, s.ns, s.objects, orders, faults);
    GetPut(s, n, t);
    if outcome == Done {
      CompletedDeploys(sl, n, a, input, orders, faults, t);
      assert Lookup(Put(s, n, t).deployments, n) == t.deployment && Lookup(Put(s, n, t).agents, n) == t.agent;
      HomeShared(input, t.agent.value.status.workspacePVC);
    }
  }
}
