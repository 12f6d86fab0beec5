/**
 The Deployment and Service the controller builds for one agent. The shell scripts of the
 init containers are constants of the harness and are named by it.
 */
module Deployment {
  import opened Prelude
  import opened Api
  import opened Text
  import Names
  import Harness

  datatype Labels = AgentLabels(agent: string)

  datatype EnvVar =
    | EnvValue(name: string, value: string)
    | EnvSecretKey(name: string, secret: string, key: string)

  datatype ContainerPort = ContainerPort(name: string, port: int)

  datatype VolumeSource =
    | Claim(pvc: string)
    | EmptyDir
    | FromConfigMap(configMap: string)
    | FromSecret(secret: string)

  datatype Volume = Volume(name: string, source: VolumeSource)

  datatype VolumeMount = VolumeMount(name: string, path: string, readOnly: bool)

  datatype Probe = Probe(path: string, port: int, initialDelay: int, period: int)

  datatype Container = Container(
    name: string, image: string, command: seq<string>, env: seq<EnvVar>, envFrom: seq<string>,
    ports: seq<ContainerPort>, resources: AgentResources, readiness: Probe, liveness: Probe,
    mounts: seq<VolumeMount>)

  /** The two scripts each harness contributes. */
  datatype Script = CopyExtensions(harness: Harness.Kind) | SeedWorkspace(harness: Harness.Kind)

  datatype InitContainer = InitContainer(name: string, image: string, script: Script, mounts: seq<VolumeMount>)

  datatype PodTemplate = PodTemplate(
    labels: Labels, restartPolicy: string, runAsUser: Option<int>, initContainers: seq<InitContainer>,
    container: Container, volumes: seq<Volume>)

  datatype DeploymentSpec = DeploymentSpec(replicas: Option<nat>, selector: Labels, template: PodTemplate)

  datatype ServiceSpec = ServiceSpec(
    ports: seq<ContainerPort>, selector: Labels, clusterIP: string, kind: string)

  // ----------------------------------------------------------- secret injection

  function ProviderSecrets(input: ConfigInput): seq<string> {
    if input.spec.model.provider != "" && input.gatewayURL == "" then [DEFAULT_PROVIDER_API_KEYS_SECRET] else []
  }

  function A2ASecrets(a2a: A2ASpec): seq<string> { if a2a.enabled then [a2a.securityTokenSecret] else [] }

  /** Secrets in the order the builder asks for them, with repetitions and empty names. */
  function SecretsWanted(input: ConfigInput): seq<string> {
    ProviderSecrets(input) + ChannelSecrets(input.channels) + A2ASecrets(input.spec.a2a)
  }

  function ChannelSecrets(chs: seq<ChannelSpec>): (r: seq<string>) {
    seq(|chs|, i requires 0 <= i < |chs| => chs[i].credentialsSecret)
  }

  /** First occurrences, empty names dropped. */
  function Injected(wanted: seq<string>): (r: seq<string>) {
    if wanted == [] then []
    else
      var before := Injected(wanted[..|wanted| - 1]);
      var last := wanted[|wanted| - 1];
      if last == "" || last in before then before else before + [last]
  }

  /** The closure inside agentDeployment: skip empty and already injected names. */
  method InjectSecret(injected: map<string, bool>, envFrom: seq<string>, name: string)
    returns (injected': map<string, bool>, envFrom': seq<string>)
    requires forall s :: s in injected <==> s in envFrom
    ensures forall s :: s in injected' <==> s in envFrom'
    ensures envFrom' == if name == "" || name in envFrom then envFrom else envFrom + [name]
  {
    if name == "" || name in injected {
      return injected, envFrom;
    }
    injected' := injected[name := true];
    envFrom' := envFrom + [name];
  }

  lemma InjectedSnoc(wanted: seq<string>, x: string)
    ensures Injected(wanted + [x])
            == if x == "" || x in Injected(wanted) then Injected(wanted) else Injected(wanted) + [x]
  {
    assert (wanted + [x])[..|wanted + [x]| - 1] == wanted;
  }

  method InjectChannels(ghost wanted: seq<string>, injected: map<string, bool>, envFrom: seq<string>,
                        chs: seq<ChannelSpec>)
    returns (injected': map<string, bool>, envFrom': seq<string>)
    requires forall s :: s in injected <==> s in envFrom
    requires envFrom == Injected(wanted)
    ensures forall s :: s in injected' <==> s in envFrom'
    ensures envFrom' == Injected(wanted + ChannelSecrets(chs))
  {
    injected', envFrom' := injected, envFrom;
    var secrets := ChannelSecrets(chs);
    assert wanted + secrets[..0] == wanted;
    for i := 0 to |chs|
      invariant forall s :: s in injected' <==> s in envFrom'
      invariant envFrom' == Injected(wanted + secrets[..i])
    {
      InjectedSnoc(wanted + secrets[..i], chs[i].credentialsSecret);
      assert wanted + secrets[..i + 1] == wanted + secrets[..i] + [chs[i].credentialsSecret];
      injected', envFrom' := InjectSecret(injected', envFrom', chs[i].credentialsSecret);
    }
    assert secrets[..|chs|] == secrets;
  }

  /** The first secret, if it is asked for. */
  method InjectFirst(asked: bool, name: string) returns (injected: map<string, bool>, envFrom: seq<string>)
    ensures forall s :: s in injected <==> s in envFrom
    ensures envFrom == Injected(if asked then [name] else [])
  {
    injected, envFrom := map[], [];
    if asked {
      InjectedSnoc([], name);
      assert [] + [name] == [name];
      injected, envFrom := InjectSecret(injected, envFrom, name);
    }
  }

  method InjectA2A(ghost wanted: seq<string>, injected: map<string, bool>, envFrom: seq<string>, a2a: A2ASpec)
    returns (envFrom': seq<string>)
    requires forall s :: s in injected <==> s in envFrom
    requires envFrom == Injected(wanted)
    ensures envFrom' == Injected(wanted + A2ASecrets(a2a))
  {
    envFrom' := envFrom;
    if a2a.enabled {
      InjectedSnoc(wanted, a2a.securityTokenSecret);
      var _, more := InjectSecret(injected, envFrom, a2a.securityTokenSecret);
      envFrom' := more;
    } else {
      assert wanted + [] == wanted;
    }
  }

  method BuildEnvFrom(input: ConfigInput) returns (envFrom: seq<string>)
    ensures envFrom == Injected(SecretsWanted(input))
  {
    var injected;
    injected, envFrom :=
      InjectFirst(input.spec.model.provider != "" && input.gatewayURL == "", DEFAULT_PROVIDER_API_KEYS_SECRET);
    injected, envFrom := InjectChannels(ProviderSecrets(input), injected, envFrom, input.channels);
    envFrom := InjectA2A(ProviderSecrets(input) + ChannelSecrets(input.channels), injected, envFrom, input.spec.a2a);
  }

  /** Position of the first occurrence. */
  ghost function FirstIndex(s: seq<string>, x: string): (i: nat)
    requires x in s
    ensures i < |s| && s[i] == x && x !in s[..i]
  {
    if s[0] == x then 0 else 1 + FirstIndex(s[1..], x)
  }

  lemma FirstIndexPrefix(s: seq<string>, t: seq<string>, x: string)
    requires x in s
    ensures FirstIndex(s + t, x) == FirstIndex(s, x)
  {
    var i, j := FirstIndex(s, x), FirstIndex(s + t, x);
    assert (s + t)[i] == x;
    assert forall k :: 0 <= k < i ==> (s + t)[k] == s[..i][k];
    assert forall k :: 0 <= k < j ==> (s + t)[..j][k] == (s + t)[k];
  }

  /**
   Injection is exact: the result has no repetition and no empty name, contains exactly the
   non-empty names asked for, and lists them by first occurrence.
   */
  lemma {:induction false} InjectionExact(wanted: seq<string>)
    ensures var r := Injected(wanted);
            && (forall i, j :: 0 <= i < j < |r| ==> r[i] != r[j])
            && (forall x :: x in r <==> x in wanted && x != "")
            && (forall i, j :: 0 <= i < j < |r| ==> FirstIndex(wanted, r[i]) < FirstIndex(wanted, r[j]))
  {
    if wanted != [] {
      var init, last := wanted[..|wanted| - 1], wanted[|wanted| - 1];
      assert wanted == init + [last];
      InjectionExact(init);
      var r, before := Injected(wanted), Injected(init);
      forall x ensures x in r <==> x in wanted && x != "" {
        assert x in wanted <==> x in init || x == last;
      }
      forall i, j | 0 <= i < j < |r| ensures FirstIndex(wanted, r[i]) < FirstIndex(wanted, r[j]) {
        assert r[i] == before[i] && before[i] in init;
        FirstIndexPrefix(init, [last], r[i]);
        if j < |before| {
          assert before[j] in init;
          FirstIndexPrefix(init, [last], r[j]);
        } else {
          NotBefore(init, last);
        }
      }
    }
  }

  lemma NotBefore(init: seq<string>, last: string)
    requires last !in init
    ensures FirstIndex(init + [last], last) == |init|
  {
    var i := FirstIndex(init + [last], last);
    assert forall k :: 0 <= k < |init| ==> (init + [last])[k] == init[k];
  }

  // ------------------------------------------------------- environment entries

  function PeerEnv(peers: seq<A2APeer>): (r: seq<EnvVar>) {
    if peers == [] then []
    else
      var p := peers[|peers| - 1];
      PeerEnv(peers[..|peers| - 1])
      + (if p.credentialsSecret != ""
        then [EnvSecretKey(PeerTokenVar(p.name), p.credentialsSecret, A2A_TOKEN_VAR)] else [])
  }

  function BaseEnv(name: string, otlpEndpoint: string): seq<EnvVar> {
    [EnvValue("OTEL_SERVICE_NAME", name)]
    + (if otlpEndpoint != ""
       then [EnvValue("OTEL_EXPORTER_OTLP_ENDPOINT", otlpEndpoint), EnvValue("OTEL_EXPORTER_OTLP_HEADERS", "")]
       else [])
  }

  function Env(input: ConfigInput): seq<EnvVar> {
    BaseEnv(input.name, input.otlpEndpoint)
    + (if input.spec.a2a.enabled then PeerEnv(Elems(input.spec.a2a.peers)) else [])
  }

  method BuildEnv(input: ConfigInput) returns (env: seq<EnvVar>)
    ensures env == Env(input)
  {
    env := [EnvValue("OTEL_SERVICE_NAME", input.name)];
    if input.otlpEndpoint != "" {
      env := env + [EnvValue("OTEL_EXPORTER_OTLP_ENDPOINT", input.otlpEndpoint),
        EnvValue("OTEL_EXPORTER_OTLP_HEADERS", "")];
    }
    assert env == BaseEnv(input.name, input.otlpEndpoint);
    if input.spec.a2a.enabled {
      var peers := Elems(input.spec.a2a.peers);
      ghost var base := env;
      for i := 0 to |peers|
        invariant env == base + PeerEnv(peers[..i])
      {
        assert peers[..i + 1][..i] == peers[..i];
        if peers[i].credentialsSecret != "" {
          env := env + [EnvSecretKey(PeerTokenVar(peers[i].name), peers[i].credentialsSecret, A2A_TOKEN_VAR)];
        }
      }
      assert peers[..|peers|] == peers;
    }
  }

  // ----------------------------------------------------------- volumes and ports

  function HomeDir(activePVC: string, mode: string): Volume {
    Volume("harness-home", if mode == MODE_PERSISTENT && activePVC != "" then Claim(activePVC) else EmptyDir)
  }

  function Volumes(input: ConfigInput, activePVC: string): seq<Volume> {
    [HomeDir(activePVC, input.spec.workspace.mode),
     Volume("config-src", FromConfigMap(input.name
       + Harness.ConfigMapSuffix(Harness.ForType(input.spec.harness.kind)))),
     Volume("identity-src", FromConfigMap(input.name + Names.IDENTITY_SUFFIX)),
     Volume("skills-src", FromConfigMap(input.name + Names.SKILLS_SUFFIX))]
    + (if input.spec.credentialsSecret != ""
      then [Volume("credentials-secret", FromSecret(input.spec.credentialsSecret))] else [])
  }

  function Mounts(h: Harness.Kind, credentialsSecret: string): seq<VolumeMount> {
    [VolumeMount("harness-home", Harness.HomePath(h), false)]
    + (if credentialsSecret != "" then [VolumeMount("credentials-secret", Harness.HomePath(h) + "/credentials", true)]
      else [])
  }

  /** Extensions are copied from the agent's own image; the workspace is seeded by a small one. */
  function InitContainers(h: Harness.Kind, image: string): seq<InitContainer> {
    [InitContainer("copy-extensions", image, CopyExtensions(h), [VolumeMount("harness-home", "/harness-home", false)]),
     InitContainer("seed-workspace", "busybox:1.36", SeedWorkspace(h),
                   [VolumeMount("config-src", "/config-src", true), VolumeMount("identity-src", "/identity-src", true),
                    VolumeMount("skills-src", "/skills-src", true),
                      VolumeMount("harness-home", "/harness-home", false)])]
  }

  function Ports(h: Harness.Kind, a2a: A2ASpec): seq<ContainerPort> {
    [ContainerPort("gateway", Harness.GatewayPort(h))]
    + (if a2a.enabled then [ContainerPort("a2a", a2a.ResolvedPort())] else [])
  }

  // ----------------------------------------------------------- whole objects

  function MainContainer(input: ConfigInput): Container {
    var h := Harness.ForType(input.spec.harness.kind);
    Container(
      Harness.ContainerName(h),
      if input.spec.harness.image == "" then Harness.DefaultImage(h) else input.spec.harness.image,
      Harness.ContainerCommand(h),
      Env(input), Injected(SecretsWanted(input)), Ports(h, input.spec.a2a), input.spec.resources,
      Probe(Harness.ReadinessPath(h), Harness.GatewayPort(h), 5, 10),
      Probe(Harness.LivenessPath(h), Harness.GatewayPort(h), 10, 30),
      Mounts(h, input.spec.credentialsSecret))
  }

  /** The Deployment of an agent whose home volume is `activePVC` (empty for none). */
  function DeploymentFor(input: ConfigInput, activePVC: string): DeploymentSpec {
    var h := Harness.ForType(input.spec.harness.kind);
    DeploymentSpec(
      Some(1), AgentLabels(input.name),
      PodTemplate(
        AgentLabels(input.name),
        if input.spec.lifecycle.restartPolicy == "" then "Always" else input.spec.lifecycle.restartPolicy,
        Harness.RunAsUser(h), InitContainers(h, MainContainer(input).image), MainContainer(input),
        Volumes(input, activePVC)))
  }

  function ServiceFor(input: ConfigInput): ServiceSpec {
    ServiceSpec(Ports(Harness.ForType(input.spec.harness.kind), input.spec.a2a), AgentLabels(input.name), "", "")
  }

  /** agentDeployment. */
  method AgentDeployment(input: ConfigInput, activePVC: string) returns (spec: DeploymentSpec)
    ensures spec == DeploymentFor(input, activePVC)
  {
    var h := Harness.ForType(input.spec.harness.kind);
    var image := input.spec.harness.image;
    if image == "" { image := Harness.DefaultImage(h); }
    var initContainers := InitContainers(h, image);
    var env := BuildEnv(input);
    var envFrom := BuildEnvFrom(input);
    var ports := [ContainerPort("gateway", Harness.GatewayPort(h))];
    if input.spec.a2a.enabled { ports := ports + [ContainerPort("a2a", input.spec.a2a.ResolvedPort())]; }
    var restartPolicy := "Always";
    if input.spec.lifecycle.restartPolicy != "" { restartPolicy := input.spec.lifecycle.restartPolicy; }
    var container := Container(
      Harness.ContainerName(h), image, Harness.ContainerCommand(h), env, envFrom, ports, input.spec.resources,
      Probe(Harness.ReadinessPath(h), Harness.GatewayPort(h), 5, 10),
      Probe(Harness.LivenessPath(h), Harness.GatewayPort(h), 10, 30),
      Mounts(h, input.spec.credentialsSecret));
    assert ports == Ports(h, input.spec.a2a);
    spec := DeploymentSpec(
      Some(1), AgentLabels(input.name),
      PodTemplate(AgentLabels(input.name), restartPolicy, Harness.RunAsUser(h), initContainers, container,
                  Volumes(input, activePVC)));
  }

  /** The home volume is the active PVC exactly for persistent workspaces that have one. */
  lemma MountsActivePVC(input: ConfigInput, activePVC: string)
    ensures var vs := DeploymentFor(input, activePVC).template.volumes;
            vs[0].source == Claim(activePVC) <==> input.spec.workspace.IsPersistent() && activePVC != ""
  {
  }

  predicate HasVolume(vs: seq<Volume>, name: string) { exists i :: 0 <= i < |vs| && vs[i].name == name }

  predicate Declared(vs: seq<Volume>, mounts: seq<VolumeMount>) {
    forall k :: 0 <= k < |mounts| ==> HasVolume(vs, mounts[k].name)
  }

  lemma VolumesNamed(input: ConfigInput, activePVC: string)
    ensures var vs := Volumes(input, activePVC);
            && |vs| == (if input.spec.credentialsSecret != "" then 5 else 4)
            && vs[0].name == "harness-home" && vs[1].name == "config-src" && vs[2].name == "identity-src"
            && vs[3].name == "skills-src" && (|vs| == 5 ==> vs[4].name == "credentials-secret")
  {
  }

  lemma NamesDiffer(input: ConfigInput, activePVC: string)
    ensures var vs := Volumes(input, activePVC); forall i, j :: 0 <= i < j < |vs| ==> vs[i].name != vs[j].name
  {
    var vs := Volumes(input, activePVC);
    VolumesNamed(input, activePVC);
    assert |vs[0].name| == 12 && |vs[1].name| == 10 && |vs[2].name| == 12 && |vs[3].name| == 10;
    assert vs[0].name[0] != vs[2].name[0] && vs[1].name[0] != vs[3].name[0];
    assert |vs| == 5 ==> |vs[4].name| == 18;
  }

  lemma MountsDeclared(input: ConfigInput, activePVC: string)
    ensures Declared(Volumes(input, activePVC), MainContainer(input).mounts)
  {
    var vs, ms := Volumes(input, activePVC), MainContainer(input).mounts;
    VolumesNamed(input, activePVC);
    assert ms[0].name == vs[0].name;
    assert |ms| == 2 ==> ms[1].name == vs[4].name;
  }

  lemma InitMountsDeclared(input: ConfigInput, activePVC: string, h: Harness.Kind, image: string, c: InitContainer)
    requires c in InitContainers(h, image)
    ensures Declared(Volumes(input, activePVC), c.mounts)
  {
    var vs := Volumes(input, activePVC);
    VolumesNamed(input, activePVC);
    assert HasVolume(vs, vs[0].name) && HasVolume(vs, vs[1].name) && HasVolume(vs, vs[2].name)
      && HasVolume(vs, vs[3].name);
  }

  /**
   The pod is well formed: volume names are distinct, every mount of every container, init
   containers included, names a declared volume, and the integration credentials are declared and
   mounted iff the agent names a secret.
   */
  lemma EveryMountDeclared(input: ConfigInput, activePVC: string)
    ensures var pod := DeploymentFor(input, activePVC).template;
            && (forall i, j :: 0 <= i < j < |pod.volumes| ==> pod.volumes[i].name != pod.volumes[j].name)
            && Declared(pod.volumes, pod.container.mounts)
            && (forall c :: c in pod.initContainers ==> Declared(pod.volumes, c.mounts))
            && (input.spec.credentialsSecret != "" <==> |pod.volumes| == 5)
            && (input.spec.credentialsSecret != "" <==> |pod.container.mounts| == 2)
  {
    var pod := DeploymentFor(input, activePVC).template;
    NamesDiffer(input, activePVC);
    MountsDeclared(input, activePVC);
    VolumesNamed(input, activePVC);
    var h := Harness.ForType(input.spec.harness.kind);
    forall c | c in pod.initContainers ensures Declared(pod.volumes, c.mounts) {
      InitMountsDeclared(input, activePVC, h, MainContainer(input).image, c);
    }
  }
}
