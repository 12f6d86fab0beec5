/**
 The contract between two packages that never check each other: every credential
 placeholder the configuration generators write must find its value in the environment
 of the container the Deployment builder produces.
 */
module Credentials {
  import opened Prelude
  import opened Api
  import opened Text
  import opened Deployment
  import OpenClaw
  import ObserveClaw
  import Hermes
  import Harness

  /** The keys each Kubernetes Secret of the namespace holds. */
  type Secrets = map<string, set<string>>

  predicate Holds(secrets: Secrets, secret: string, key: string) { secret in secrets && key in secrets[secret] }

  /** A variable has a value: an Env entry of that name whose key exists, or an EnvFrom secret holding it. */
  ghost predicate Served(c: Container, secrets: Secrets, v: string) {
    || (exists e :: e in c.env && e.name == v && (e.EnvSecretKey? ==> Holds(secrets, e.secret, e.key)))
    || (exists s :: s in c.envFrom && Holds(secrets, s, v))
  }

  /** Position `i` is the channel that decides its type's section. */
  predicate Deciding(chs: seq<ChannelSpec>, i: nat) {
    i < |chs| && forall j :: i < j < |chs| ==> chs[j].kind != chs[i].kind
  }

  /** A channel that decides its type asks for `v` under one of the two token keys. */
  ghost predicate ChannelAsks(doc: OpenClaw.ConfigDoc, chs: seq<ChannelSpec>, i: nat, key: string, v: string) {
    && Deciding(chs, i) && key !in chs[i].ConfigMap() && key in {OpenClaw.BOT_TOKEN_KEY, OpenClaw.APP_TOKEN_KEY}
    && doc.channels.Some? && chs[i].kind in doc.channels.value
    && Lookup(doc.channels.value[chs[i].kind], key) == Some(OpenClaw.Scalar(Placeholder(v)))
  }

  /** The generated document asks for variable `v`; values the user wrote over a token do not count. */
  ghost predicate OpenClawAsks(doc: OpenClaw.ConfigDoc, chs: seq<ChannelSpec>, v: string) {
    || (doc.providers.Some? && exists p :: p in doc.providers.value && doc.providers.value[p].apiKey == Placeholder(v))
    || (exists i: nat, key :: ChannelAsks(doc, chs, i, key, v))
    || (OpenClaw.A2A_PLUGIN in doc.plugins.entries
        && doc.plugins.entries[OpenClaw.A2A_PLUGIN].payload.A2AConfig?
        && A2AAsks(doc.plugins.entries[OpenClaw.A2A_PLUGIN].payload.a2a, v))
  }

  ghost predicate A2AAsks(a2a: OpenClaw.A2ADoc, v: string) {
    || a2a.securityToken == Some(Placeholder(v))
    || (a2a.peers.Some? && exists i :: 0 <= i < |a2a.peers.value| && a2a.peers.value[i].token == Some(Placeholder(v)))
  }

  ghost predicate HermesAsks(doc: Hermes.ConfigDoc, v: string) {
    || (doc.model.Some? && doc.model.value.apiKey == Placeholder(v))
    || (exists i :: 0 <= i < |doc.channels|
                    && (doc.channels[i].botToken == Some(Placeholder(v))
                      || doc.channels[i].appToken == Some(Placeholder(v))))
  }

  ghost predicate Asks(doc: Harness.Document, chs: seq<ChannelSpec>, v: string) {
    match doc
    case OpenClawJson(json) => OpenClawAsks(json, chs, v)
    case HermesYaml(yaml) => HermesAsks(yaml, v)
  }

  /**
   The documented key conventions of the secrets an agent refers to, spelled out: <PROVIDER>_API_KEY
   in the shared secret of provider keys, <TYPE>_BOT_TOKEN and <TYPE>_APP_TOKEN in a channel's
   secret, A2A_TOKEN in the agent's and in each peer's.
   */
  ghost predicate Conventional(input: ConfigInput, secrets: Secrets) {
    && (input.spec.model.provider != "" ==>
          Holds(secrets, "openclaw-api-keys", EnvName(input.spec.model.provider) + "_API_KEY"))
    && (forall i :: 0 <= i < |input.channels| ==> ChannelSecretConventional(input.channels[i], secrets))
    && (input.spec.a2a.enabled && input.spec.a2a.securityTokenSecret != "" ==>
          Holds(secrets, input.spec.a2a.securityTokenSecret, "A2A_TOKEN"))
    && (forall p :: p in Elems(input.spec.a2a.peers) && p.credentialsSecret != "" ==>
          Holds(secrets, p.credentialsSecret, "A2A_TOKEN"))
  }

  ghost predicate ChannelSecretConventional(ch: ChannelSpec, secrets: Secrets) {
    && ch.credentialsSecret != ""
    && (ch.kind in {"telegram", "slack", "discord", "msteams"} ==>
          Holds(secrets, ch.credentialsSecret, Upper(ch.kind) + "_BOT_TOKEN"))
    && (ch.kind == "slack" ==> Holds(secrets, ch.credentialsSecret, Upper(ch.kind) + "_APP_TOKEN"))
  }

  // ---------------------------------------------------- which secrets are mounted

  /** One of the three sources asks for the secret. */
  ghost predicate Wanted(input: ConfigInput, s: string) {
    || (input.spec.model.provider != "" && input.gatewayURL == "" && s == DEFAULT_PROVIDER_API_KEYS_SECRET)
    || (exists i :: 0 <= i < |input.channels| && input.channels[i].credentialsSecret == s)
    || (input.spec.a2a.enabled && input.spec.a2a.securityTokenSecret == s)
  }

  lemma ChannelSecretsMembers(chs: seq<ChannelSpec>, s: string)
    ensures s in ChannelSecrets(chs) <==> exists i :: 0 <= i < |chs| && chs[i].credentialsSecret == s
  {
    var secrets := ChannelSecrets(chs);
    assert |secrets| == |chs| && forall i :: 0 <= i < |chs| ==> secrets[i] == chs[i].credentialsSecret;
    if s in secrets {
      var i :| 0 <= i < |secrets| && secrets[i] == s;
      assert chs[i].credentialsSecret == s;
    }
  }

  lemma InConcat(a: seq<string>, b: seq<string>, c: seq<string>, s: string)
    ensures s in a + b + c <==> s in a || s in b || s in c
  {
  }

  /** A secret is mounted iff it has a name and one of the three sources asks for it. */
  lemma MountedExactly(input: ConfigInput, s: string)
    ensures s in MainContainer(input).envFrom <==> s != "" && Wanted(input, s)
  {
    InjectionExact(SecretsWanted(input));
    ChannelSecretsMembers(input.channels, s);
    InConcat(ProviderSecrets(input), ChannelSecrets(input.channels), A2ASecrets(input.spec.a2a), s);
  }

  lemma ChannelSecretMounted(input: ConfigInput, secrets: Secrets, i: nat)
    requires i < |input.channels| && ChannelSecretConventional(input.channels[i], secrets)
    ensures input.channels[i].kind in CHANNELS_WITH_BOT_TOKEN ==>
              Served(MainContainer(input), secrets, BotTokenVar(input.channels[i].kind))
    ensures input.channels[i].kind in CHANNELS_WITH_APP_TOKEN ==>
              Served(MainContainer(input), secrets, AppTokenVar(input.channels[i].kind))
  {
    MountedExactly(input, input.channels[i].credentialsSecret);
  }

  /** Each peer with credentials has an environment entry of its own. */
  lemma {:induction false} PeerEntry(peers: seq<A2APeer>, i: nat)
    requires i < |peers| && peers[i].credentialsSecret != ""
    ensures EnvSecretKey(PeerTokenVar(peers[i].name), peers[i].credentialsSecret, A2A_TOKEN_VAR) in PeerEnv(peers)
  {
    if i < |peers| - 1 { PeerEntry(peers[..|peers| - 1], i); }
  }

  lemma PeerServed(input: ConfigInput, secrets: Secrets, i: nat)
    requires Conventional(input, secrets) && input.spec.a2a.enabled
    requires i < |Elems(input.spec.a2a.peers)| && Elems(input.spec.a2a.peers)[i].credentialsSecret != ""
    ensures Served(MainContainer(input), secrets, PeerTokenVar(Elems(input.spec.a2a.peers)[i].name))
  {
    var peers := Elems(input.spec.a2a.peers);
    PeerEntry(peers, i);
    var e := EnvSecretKey(PeerTokenVar(peers[i].name), peers[i].credentialsSecret, A2A_TOKEN_VAR);
    assert e in MainContainer(input).env;
  }

  // --------------------------------------------------------------- the contract

  lemma A2AServed(input: ConfigInput, secrets: Secrets, v: string)
    requires Conventional(input, secrets) && input.spec.a2a.enabled
    requires A2AAsks(OpenClaw.A2AOf(input.name, input.ns, input.spec.a2a), v)
    ensures Served(MainContainer(input), secrets, v)
  {
    var a2a := OpenClaw.A2AOf(input.name, input.ns, input.spec.a2a);
    if a2a.securityToken == Some(Placeholder(v)) {
      PlaceholderInjective(A2A_TOKEN_VAR, v);
      MountedExactly(input, input.spec.a2a.securityTokenSecret);
    } else {
      var peers := Elems(input.spec.a2a.peers);
      var i :| 0 <= i < |a2a.peers.value| && a2a.peers.value[i].token == Some(Placeholder(v));
      PlaceholderInjective(PeerTokenVar(peers[i].name), v);
      PeerServed(input, secrets, i);
    }
  }

  lemma ChannelServed(input: ConfigInput, secrets: Secrets, i: nat, key: string, v: string)
    requires Conventional(input, secrets) && Deciding(input.channels, i) && key !in input.channels[i].ConfigMap()
    requires key in {OpenClaw.BOT_TOKEN_KEY, OpenClaw.APP_TOKEN_KEY}
    requires input.channels[i].kind in OpenClaw.Sections(input.channels)
    requires Lookup(OpenClaw.Sections(input.channels)[input.channels[i].kind], key)
        == Some(OpenClaw.Scalar(Placeholder(v)))
    ensures Served(MainContainer(input), secrets, v)
  {
    var ch := input.channels[i];
    OpenClaw.LastChannelDecides(input.channels, i);
    OpenClaw.UserConfigOverrides(ch, key);
    ChannelSecretMounted(input, secrets, i);
    if key == OpenClaw.BOT_TOKEN_KEY {
      PlaceholderInjective(BotTokenVar(ch.kind), v);
    } else {
      PlaceholderInjective(AppTokenVar(ch.kind), v);
    }
  }

  /** The providers section asks for nothing but the provider's own API key. */
  lemma ProvidersAskOneKey(gatewayURL: string, provider: string, p: string, v: string)
    requires p in OpenClaw.Providers(gatewayURL, provider)
    requires OpenClaw.Providers(gatewayURL, provider)[p].apiKey == Placeholder(v)
    ensures provider != "" && v == ApiKeyVar(provider)
  {
    NotASentinel(v);
    PlaceholderAgrees(v, ApiKeyVar(provider));
  }

  lemma PlaceholderAgrees(v: string, w: string)
    ensures Placeholder(v) == Placeholder(w) ==> v == w
  {
    if Placeholder(v) == Placeholder(w) { PlaceholderInjective(v, w); }
  }

  /** Every variable except the provider's API key is served, with or without a gateway. */
  lemma OpenClawServed(input: ConfigInput, secrets: Secrets, v: string)
    requires Conventional(input, secrets) && OpenClawAsks(OpenClaw.Config(input), input.channels, v)
    requires input.spec.model.provider != "" ==> v != ApiKeyVar(input.spec.model.provider)
    ensures Served(MainContainer(input), secrets, v)
  {
    var doc := OpenClaw.Config(input);
    var providers := OpenClaw.Providers(input.gatewayURL, input.spec.model.provider);
    forall p | p in providers ensures providers[p].apiKey != Placeholder(v) {
      if providers[p].apiKey == Placeholder(v) {
        ProvidersAskOneKey(input.gatewayURL, input.spec.model.provider, p, v);
      }
    }
    assert doc.providers.Some? ==> doc.providers.value == providers;
    if exists i: nat, key :: ChannelAsks(doc, input.channels, i, key, v) {
      var i: nat, key :| ChannelAsks(doc, input.channels, i, key, v);
      ChannelServed(input, secrets, i, key, v);
    } else {
      OpenClaw.A2AEntry(input);
      A2AServed(input, secrets, v);
    }
  }

  lemma NotASentinel(v: string)
    ensures Placeholder(v) != OpenClaw.GATEWAY_MANAGED
  {
    assert Placeholder(v)[0] != OpenClaw.GATEWAY_MANAGED[0];
  }

  lemma HermesServed(input: ConfigInput, secrets: Secrets, orders: KeyOrders, v: string)
    requires Conventional(input, secrets) && HermesAsks(Hermes.Config(input, orders), v)
    requires input.spec.model.provider != "" ==> v != ApiKeyVar(input.spec.model.provider)
    ensures Served(MainContainer(input), secrets, v)
  {
    var doc := Hermes.Config(input, orders);
    if doc.model.Some? && doc.model.value.apiKey == Placeholder(v) {
      PlaceholderInjective(v, ApiKeyVar(input.spec.model.provider));
    } else {
      var i :| 0 <= i < |doc.channels|
               && (doc.channels[i].botToken == Some(Placeholder(v))
                 || doc.channels[i].appToken == Some(Placeholder(v)));
      var ch := input.channels[i];
      ChannelSecretMounted(input, secrets, i);
      if doc.channels[i].botToken == Some(Placeholder(v)) {
        PlaceholderInjective(BotTokenVar(ch.kind), v);
      } else {
        PlaceholderInjective(AppTokenVar(ch.kind), v);
      }
    }
  }

  /** Both harness families always ask for the provider's API key, also behind a gateway. */
  lemma ProviderKeyAsked(input: ConfigInput, orders: KeyOrders)
    requires input.spec.model.provider != ""
    ensures Asks(Harness.Config(Harness.ForType(input.spec.harness.kind), input, orders), input.channels,
                 ApiKeyVar(input.spec.model.provider))
  {
    var p := input.spec.model.provider;
    var providers := OpenClaw.Providers(input.gatewayURL, p);
    assert p in providers && providers[p] == OpenClaw.DirectProvider(p);
  }

  /** No environment entry ever carries an API key variable. */
  lemma {:induction false} NoPeerIsAKey(peers: seq<A2APeer>, provider: string)
    ensures forall e :: e in PeerEnv(peers) ==> e.name != ApiKeyVar(provider)
  {
    if peers != [] {
      NoPeerIsAKey(peers[..|peers| - 1], provider);
      var v, w := PeerTokenVar(peers[|peers| - 1].name), ApiKeyVar(provider);
      assert v[|v| - 1] == 'N' && w[|w| - 1] == 'Y';
    }
  }

  lemma NoEntryIsAKey(input: ConfigInput, provider: string)
    ensures forall e :: e in MainContainer(input).env ==> e.name != ApiKeyVar(provider)
  {
    NoPeerIsAKey(Elems(input.spec.a2a.peers), provider);
    var w := ApiKeyVar(provider);
    assert w[|w| - 1] == 'Y';
    forall e | e in BaseEnv(input.name, input.otlpEndpoint) ensures e.name != w {
      assert e.name[|e.name| - 1] != 'Y';
    }
  }

  /** The API key has a value iff it is needed directly or another mounted secret happens to hold it. */
  ghost predicate KeyReachable(input: ConfigInput, secrets: Secrets) {
    || input.spec.model.provider == ""
    || input.gatewayURL == ""
    || (exists s :: s != "" && Wanted(input, s) && Holds(secrets, s, ApiKeyVar(input.spec.model.provider)))
  }

  lemma ProviderKeyServedExactly(input: ConfigInput, secrets: Secrets)
    requires Conventional(input, secrets) && input.spec.model.provider != ""
    ensures Served(MainContainer(input), secrets, ApiKeyVar(input.spec.model.provider)) <==>
        KeyReachable(input, secrets)
  {
    var v := ApiKeyVar(input.spec.model.provider);
    NoEntryIsAKey(input, input.spec.model.provider);
    if input.gatewayURL == "" {
      MountedExactly(input, DEFAULT_PROVIDER_API_KEYS_SECRET);
      assert DEFAULT_PROVIDER_API_KEYS_SECRET != "" by { assert |DEFAULT_PROVIDER_API_KEYS_SECRET| > 0; }
    } else {
      forall s ensures s in MainContainer(input).envFrom <==> s != "" && Wanted(input, s) {
        MountedExactly(input, s);
      }
    }
  }

  /**
   The contract: with secrets that follow the documented conventions, every placeholder of
   every generated document has a value in the container, unless the agent has both a direct
   provider and a gateway and no other mounted secret holds that provider's key. In that
   remaining case the placeholder is written and left without a value.
   */
  lemma PlaceholdersServedExactly(input: ConfigInput, secrets: Secrets, orders: KeyOrders)
    requires Conventional(input, secrets)
    ensures (forall v :: Asks(Harness.Config(Harness.ForType(input.spec.harness.kind), input, orders),
        input.channels, v)
                         ==> Served(MainContainer(input), secrets, v))
            <==> KeyReachable(input, secrets)
  {
    var doc := Harness.Config(Harness.ForType(input.spec.harness.kind), input, orders);
    var provider := input.spec.model.provider;
    if provider != "" {
      ProviderKeyAsked(input, orders);
      ProviderKeyServedExactly(input, secrets);
    }
    forall v | Asks(doc, input.channels, v) && (provider != "" ==> v != ApiKeyVar(provider))
      ensures Served(MainContainer(input), secrets, v)
    {
      if doc.OpenClawJson? { OpenClawServed(input, secrets, v); } else { HermesServed(input, secrets, orders, v); }
    }
  }

  // ------------------------------------------------- a key behind a gateway

  /** Any input, sent through a gateway with a direct provider and nothing else that mounts a secret. */
  function BehindGateway(input: ConfigInput, gatewayURL: string, provider: string): ConfigInput {
    input.(gatewayURL := gatewayURL, channels := [],
           spec := input.spec.(model := input.spec.model.(provider := provider),
                               a2a := input.spec.a2a.(enabled := false, peers := None)))
  }

  /** The remaining case: the secret holds the key as documented, the document asks for it, and nobody mounts it. */
  lemma GatewayLeavesKeyUnserved(input: ConfigInput, gatewayURL: string, provider: string, orders: KeyOrders)
    requires gatewayURL != "" && provider != ""
    ensures var i := BehindGateway(input, gatewayURL, provider);
            var secrets: Secrets := map[DEFAULT_PROVIDER_API_KEYS_SECRET := {ApiKeyVar(provider)}];
            && Conventional(i, secrets) && !KeyReachable(i, secrets)
            && Asks(Harness.Config(Harness.ForType(i.spec.harness.kind), i, orders), i.channels, ApiKeyVar(provider))
            && !Served(MainContainer(i), secrets, ApiKeyVar(provider))
  {
    var i := BehindGateway(input, gatewayURL, provider);
    var secrets: Secrets := map[DEFAULT_PROVIDER_API_KEYS_SECRET := {ApiKeyVar(provider)}];
    assert Conventional(i, secrets);
    assert forall s :: !Wanted(i, s);
    ProviderKeyAsked(i, orders);
    ProviderKeyServedExactly(i, secrets);
  }

  // ------------------------------------------------- mounted integration credentials

  /** Where the builder mounts the integration credentials, if it does. */
  function CredentialMounts(c: Container): seq<VolumeMount> { if |c.mounts| > 1 then c.mounts[1..] else [] }

  /**
   Builder and generator agree on integration credentials: they are mounted iff the document's
   deny list is longer than the policy's, and then everything under the mount path is denied.
   */
  lemma MountedCredentialsDenied(input: ConfigInput)
    requires !Harness.ForType(input.spec.harness.kind).HermesHarness?
    requires forall i :: 0 <= i < |input.channels| ==> input.channels[i].kind in CHANNEL_TYPES
    ensures var p := OpenClaw.Config(input).plugins;
            var ms := CredentialMounts(MainContainer(input));
            && OpenClaw.OBSERVE_PLUGIN in p.entries && p.entries[OpenClaw.OBSERVE_PLUGIN].payload.ObserveConfig?
            && var deny := p.entries[OpenClaw.OBSERVE_PLUGIN].payload.observe.tools.deny;
               && (ms != [] <==> deny != Elems(ObserveClaw.ToolPolicy(input.policy).deny))
               && forall m :: m in ms ==> m.readOnly && m.path + "/*" in deny
  {
    ObserveEntry(input);
    MountsOfCredentials(input);
    ObserveClaw.CredentialsDenied(input.spec.credentialsSecret, input.gatewayURL, input.policy, input.gateway);
    if input.spec.credentialsSecret != "" { MountPathDenied(input); }
  }

  lemma ObserveEntry(input: ConfigInput)
    requires forall i :: 0 <= i < |input.channels| ==> input.channels[i].kind in CHANNEL_TYPES
    ensures var entries := OpenClaw.Config(input).plugins.entries;
            OpenClaw.OBSERVE_PLUGIN in entries
            && entries[OpenClaw.OBSERVE_PLUGIN].payload == OpenClaw.ObserveConfig(OpenClaw.ObserveOf(input))
  {
    var a2a := if input.spec.a2a.enabled then Some(OpenClaw.A2AOf(input.name, input.ns, input.spec.a2a)) else None;
    OpenClaw.ObserveConfigSurvives(OpenClaw.ObserveOf(input), input.otlpEndpoint != "", input.channels, a2a);
  }

  function CredentialsPath(input: ConfigInput): string {
    Harness.HomePath(Harness.ForType(input.spec.harness.kind)) + "/credentials"
  }

  lemma MountsOfCredentials(input: ConfigInput)
    ensures CredentialMounts(MainContainer(input))
            == if input.spec.credentialsSecret != ""
              then [VolumeMount("credentials-secret", CredentialsPath(input), true)] else []
  {
  }

  lemma MountPathDenied(input: ConfigInput)
    requires !Harness.ForType(input.spec.harness.kind).HermesHarness? && input.spec.credentialsSecret != ""
    ensures CredentialsPath(input) + "/*" in OpenClaw.ObserveOf(input).tools.deny
  {
    CredentialPath(Harness.ForType(input.spec.harness.kind));
    var user := Elems(ObserveClaw.ToolPolicy(input.policy).deny);
    assert OpenClaw.ObserveOf(input).tools.deny == user + ObserveClaw.CREDENTIAL_DENY_PATTERNS;
  }

  lemma CredentialPath(h: Harness.Kind)
    requires !h.HermesHarness?
    ensures Harness.HomePath(h) + "/credentials" + "/*" in ObserveClaw.CREDENTIAL_DENY_PATTERNS
  {
    assert "/credentials" + "/*" == "/credentials/*";
    assert Harness.HomePath(h) + "/credentials" + "/*" == Harness.HomePath(h) + ("/credentials" + "/*");
    assert ObserveClaw.CREDENTIAL_DENY_PATTERNS[0] == ObserveClaw.HOME_PATH + "/credentials/*";
  }

  // ------------------------------------------------------ peers get their own token

  /** The entry that counts for a variable: the last one of that name. */
  function LastNamed(env: seq<EnvVar>, v: string): Option<EnvVar> {
    if env == [] then None
    else if env[|env| - 1].name == v then Some(env[|env| - 1])
    else LastNamed(env[..|env| - 1], v)
  }

  lemma {:induction false} LastNamedConcat(a: seq<EnvVar>, b: seq<EnvVar>, v: string)
    ensures LastNamed(a + b, v) == if LastNamed(b, v).Some? then LastNamed(b, v) else LastNamed(a, v)
  {
    if b == [] {
      assert a + b == a;
    } else {
      assert (a + b)[..|a + b| - 1] == a + b[..|b| - 1];
      LastNamedConcat(a, b[..|b| - 1], v);
    }
  }

  /** With distinct label names, a peer's variable takes the token of that peer's own secret. */
  lemma {:induction false} PeerGetsOwnToken(peers: seq<A2APeer>, i: nat)
    requires forall j :: 0 <= j < |peers| ==> IsLabel(peers[j].name)
    requires forall j, k :: 0 <= j < k < |peers| ==> peers[j].name != peers[k].name
    requires i < |peers| && peers[i].credentialsSecret != ""
    ensures LastNamed(PeerEnv(peers), PeerTokenVar(peers[i].name))
            == Some(EnvSecretKey(PeerTokenVar(peers[i].name), peers[i].credentialsSecret, A2A_TOKEN_VAR))
  {
    var init, last := peers[..|peers| - 1], peers[|peers| - 1];
    var v := PeerTokenVar(peers[i].name);
    var tail := if last.credentialsSecret != ""
                then [EnvSecretKey(PeerTokenVar(last.name), last.credentialsSecret, A2A_TOKEN_VAR)] else [];
    LastNamedConcat(PeerEnv(init), tail, v);
    if i < |peers| - 1 {
      PeerGetsOwnToken(init, i);
      if PeerTokenVar(last.name) == v { PeerTokenVarInjective(last.name, peers[i].name); }
    }
  }

  // -------------------------------------------------- channels and their own token

  /** Where a variable without an entry of its own comes from: the last mounted secret that holds it. */
  function LastHolding(envFrom: seq<string>, secrets: Secrets, v: string): Option<string> {
    if envFrom == [] then None
    else if Holds(secrets, envFrom[|envFrom| - 1], v) then Some(envFrom[|envFrom| - 1])
    else LastHolding(envFrom[..|envFrom| - 1], secrets, v)
  }

  lemma {:induction false} LastHoldingExactly(envFrom: seq<string>, secrets: Secrets, v: string, k: nat)
    requires k < |envFrom| && Holds(secrets, envFrom[k], v)
    requires forall i, j :: 0 <= i < j < |envFrom| ==> envFrom[i] != envFrom[j]
    ensures LastHolding(envFrom, secrets, v) == Some(envFrom[k])
            <==> forall j :: k < j < |envFrom| ==> !Holds(secrets, envFrom[j], v)
  {
    if k < |envFrom| - 1 && !Holds(secrets, envFrom[|envFrom| - 1], v) {
      LastHoldingExactly(envFrom[..|envFrom| - 1], secrets, v, k);
    }
  }

  /** No other secret that holds the variable is first asked for after this one. */
  ghost predicate NoLaterHolder(wanted: seq<string>, secrets: Secrets, own: string, v: string)
    requires own in wanted
  {
    forall s :: s in wanted && s != "" && FirstIndex(wanted, own) < FirstIndex(wanted, s) ==> !Holds(secrets, s, v)
  }

  lemma NoLaterHolderExactly(wanted: seq<string>, secrets: Secrets, k: nat, v: string)
    requires k < |Injected(wanted)| && Injected(wanted)[k] in wanted
    ensures NoLaterHolder(wanted, secrets, Injected(wanted)[k], v)
            <==> forall j :: k < j < |Injected(wanted)| ==> !Holds(secrets, Injected(wanted)[j], v)
  {
    InjectionExact(wanted);
    var r := Injected(wanted);
    if forall j :: k < j < |r| ==> !Holds(secrets, r[j], v) {
      forall s | s in wanted && s != "" && FirstIndex(wanted, r[k]) < FirstIndex(wanted, s)
        ensures !Holds(secrets, s, v)
      {
        assert s in r;
        var j :| 0 <= j < |r| && r[j] == s;
      }
    }
    if NoLaterHolder(wanted, secrets, r[k], v) {
      forall j | k < j < |r| ensures !Holds(secrets, r[j], v) {
        assert r[j] in r && FirstIndex(wanted, r[k]) < FirstIndex(wanted, r[j]);
      }
    }
  }

  /**
   Injection keeps the first occurrence of a secret while the container lets the last source of
   a variable win. So a channel's variable comes from the channel's own secret iff no secret
   that is first asked for later holds it too.
   */
  lemma ChannelGetsOwnTokenExactly(input: ConfigInput, secrets: Secrets, i: nat, v: string)
    requires i < |input.channels| && input.channels[i].credentialsSecret != ""
    requires Holds(secrets, input.channels[i].credentialsSecret, v)
    ensures var own, wanted := input.channels[i].credentialsSecret, SecretsWanted(input);
            && own in wanted
            && (LastHolding(MainContainer(input).envFrom, secrets, v) == Some(own)
                <==> NoLaterHolder(wanted, secrets, own, v))
  {
    var own, wanted := input.channels[i].credentialsSecret, SecretsWanted(input);
    ChannelSecretsMembers(input.channels, own);
    InConcat(ProviderSecrets(input), ChannelSecrets(input.channels), A2ASecrets(input.spec.a2a), own);
    InjectionExact(wanted);
    var k :| 0 <= k < |Injected(wanted)| && Injected(wanted)[k] == own;
    LastHoldingExactly(Injected(wanted), secrets, v, k);
    NoLaterHolderExactly(wanted, secrets, k, v);
  }

  lemma TokenLetters(kind: string)
    requires kind in CHANNELS_WITH_BOT_TOKEN || kind in CHANNELS_WITH_APP_TOKEN
    ensures BotTokenVar(kind)[0] == AppTokenVar(kind)[0] && BotTokenVar(kind)[0] !in {'P', 'O'}
  {
    assert BotTokenVar(kind)[0] == Upper(kind)[0] == UpperChar(kind[0]);
    assert AppTokenVar(kind)[0] == Upper(kind)[0];
  }

  lemma {:induction false} PeersStartWithP(peers: seq<A2APeer>)
    ensures forall e :: e in PeerEnv(peers) ==> |e.name| > 0 && e.name[0] == 'P'
  {
    if peers != [] {
      PeersStartWithP(peers[..|peers| - 1]);
      assert PeerTokenVar(peers[|peers| - 1].name)[0] == 'P';
    }
  }

  /** No environment entry takes precedence over a channel's token: their names start differently. */
  lemma NoEntryShadowsToken(input: ConfigInput, kind: string)
    requires kind in CHANNELS_WITH_BOT_TOKEN || kind in CHANNELS_WITH_APP_TOKEN
    ensures forall e :: e in MainContainer(input).env ==> e.name != BotTokenVar(kind) && e.name != AppTokenVar(kind)
  {
    TokenLetters(kind);
    PeersStartWithP(Elems(input.spec.a2a.peers));
    forall e | e in BaseEnv(input.name, input.otlpEndpoint) ensures e.name[0] == 'O' {}
  }

  /** Three channels of one type, the first and the last with the same secret. */
  function TwiceAround(input: ConfigInput, kind: string, a: string, b: string): ConfigInput {
    var x, y := ChannelSpec(kind, None, a, None), ChannelSpec(kind, None, b, None);
    input.(channels := [x, y, x],
           spec := input.spec.(model := input.spec.model.(provider := ""), a2a := input.spec.a2a.(enabled := false)))
  }

  /** The last channel decides the section and names secret `a`, but the container has the token of `b`. */
  lemma SectionGetsOtherToken(input: ConfigInput, kind: string, a: string, b: string, v: string)
    requires a != "" && b != "" && a != b
    ensures var i := TwiceAround(input, kind, a, b);
            && Deciding(i.channels, 2) && i.channels[2].credentialsSecret == a
            && LastHolding(MainContainer(i).envFrom, map[a := {v}, b := {v}], v) == Some(b)
  {
    var i := TwiceAround(input, kind, a, b);
    assert SecretsWanted(i) == [a, b, a];
    assert [a, b, a][..2] == [a, b] && [a, b][..1] == [a] && [a][..0] == [];
    assert Injected([a]) == [a] && Injected([a, b]) == [a, b];
    assert Injected([a, b, a]) == [a, b];
    assert [a, b][1] == b;
  }
}
