/**
 openclaw.json as the OpenClaw and ObserveClaw harnesses generate it: model providers,
 channel sections, plugin entries with their allow list, and the A2A gateway plugin.
 Rendering the document as JSON text is not modelled.
 */
module OpenClaw {
  import opened Prelude
  import opened Api
  import opened Text
  import ObserveClaw

  // ----------------------------------------------------------------- documents

  datatype ProviderDoc = ProviderDoc(baseURL: string, api: string, apiKey: string, models: seq<string>)

  datatype Value = Flag(on: bool) | Scalar(text: string)

  /** A channel section mixes generated keys with whatever the user configured. */
  type Section = map<string, Value>

  datatype PeerDoc = PeerDoc(name: string, agentCardURL: string, token: Option<string>)

  datatype A2ADoc = A2ADoc(
    cardName: string, cardDescription: string, url: string, skills: seq<string>, port: int,
    defaultAgentId: string, securityToken: Option<string>, peers: Option<seq<PeerDoc>>)

  datatype PluginPayload = NoPayload | ObserveConfig(observe: ObserveClaw.PluginDoc) | A2AConfig(a2a: A2ADoc)

  datatype PluginEntry = PluginEntry(enabled: bool, payload: PluginPayload)

  datatype PluginsDoc = PluginsDoc(
    enabled: bool, entries: map<string, PluginEntry>, allow: seq<string>, loadPaths: Option<seq<string>>)

  datatype CaptureDoc = CaptureDoc(
    inputMessages: bool, outputMessages: bool, systemInstructions: bool, toolDefinitions: bool, toolContent: bool)

  datatype OtelDoc = OtelDoc(endpoint: string, serviceName: string, capture: CaptureDoc, sampleRate: real)

  datatype ConfigDoc = ConfigDoc(
    agentId: string, gatewayPort: int, primaryModel: Option<string>, otel: Option<OtelDoc>,
    providers: Option<map<string, ProviderDoc>>, channels: Option<map<string, Section>>, plugins: PluginsDoc)

  // ------------------------------------------------------------- model providers

  const GATEWAY_PORT := 18789
  const GATEWAY_PROVIDER := "gateway-anthropic"

  /** The key is a sentinel: the gateway injects the real one on its side. */
  const GATEWAY_MANAGED := "gateway-managed"
  const GATEWAY_MODELS: seq<string> := ["claude-sonnet-4-6", "claude-haiku-4-5"]

  function DirectProvider(provider: string): ProviderDoc {
    ProviderDoc(
      if provider in PROVIDER_BASE_URLS then PROVIDER_BASE_URLS[provider] else "https://api.openai.com/v1",
      if provider in PROVIDER_API_FORMATS then PROVIDER_API_FORMATS[provider] else "openai-responses",
      Placeholder(ApiKeyVar(provider)), [])
  }

  function GatewayProviderDoc(gatewayURL: string): ProviderDoc {
    ProviderDoc(gatewayURL, "anthropic-messages", GATEWAY_MANAGED, GATEWAY_MODELS)
  }

  function Providers(gatewayURL: string, provider: string): map<string, ProviderDoc> {
    (if gatewayURL != "" then map[GATEWAY_PROVIDER := GatewayProviderDoc(gatewayURL)] else map[])
    + (if provider != "" then map[provider := DirectProvider(provider)] else map[])
  }

  method BuildProviders(gatewayURL: string, provider: string) returns (providers: map<string, ProviderDoc>)
    ensures providers == Providers(gatewayURL, provider)
  {
    providers := map[];
    if gatewayURL != "" {
      providers := providers[GATEWAY_PROVIDER := GatewayProviderDoc(gatewayURL)];
    }
    if provider != "" {
      providers := providers[provider := DirectProvider(provider)];
    }
  }

  /**
   The catch-all evaluator proxies to a provider and model that the same document
   registers, unless the agent's own provider takes the gateway provider's name.
   */
  lemma CatchAllTargetRegistered(gatewayURL: string, provider: string)
    requires gatewayURL != ""
    ensures var target := ObserveClaw.CATCH_ALL.proxyProvider.value;
            var model := ObserveClaw.CATCH_ALL.proxyModel.value;
            && target in Providers(gatewayURL, provider)
            && (model in Providers(gatewayURL, provider)[target].models <==> provider != target)
  {
    assert GATEWAY_MODELS[0] == ObserveClaw.CATCH_ALL.proxyModel.value;
  }

  // ------------------------------------------------------------- channel sections

  const ENABLED_KEY := "enabled"
  const BOT_TOKEN_KEY := "botToken"
  const APP_TOKEN_KEY := "appToken"

  /** Keys the generator writes before the user's own. */
  function Generated(ch: ChannelSpec): Section {
    var base: Section := map[ENABLED_KEY := Flag(true)];
    var withBot := if ch.kind in CHANNELS_WITH_BOT_TOKEN
                   then base[BOT_TOKEN_KEY := Scalar(Placeholder(BotTokenVar(ch.kind)))] else base;
    if ch.kind in CHANNELS_WITH_APP_TOKEN
      then withBot[APP_TOKEN_KEY := Scalar(Placeholder(AppTokenVar(ch.kind)))] else withBot
  }

  function UserKeys(config: map<string, string>): Section {
    map k | k in config :: Scalar(config[k])
  }

  /** User configuration overrides generated keys. */
  function SectionOf(ch: ChannelSpec): Section { Generated(ch) + UserKeys(ch.ConfigMap()) }

  /** Channels are written in list order, so a later channel of a type replaces an earlier one. */
  function Sections(chs: seq<ChannelSpec>): map<string, Section> {
    if chs == [] then map[]
    else Sections(chs[..|chs| - 1])[chs[|chs| - 1].kind := SectionOf(chs[|chs| - 1])]
  }

  method BuildSection(ch: ChannelSpec) returns (section: Section)
    ensures section == SectionOf(ch)
  {
    section := map[ENABLED_KEY := Flag(true)];
    if ch.kind in CHANNELS_WITH_BOT_TOKEN {
      section := section[BOT_TOKEN_KEY := Scalar(Placeholder(BotTokenVar(ch.kind)))];
    }
    if ch.kind in CHANNELS_WITH_APP_TOKEN {
      section := section[APP_TOKEN_KEY := Scalar(Placeholder(AppTokenVar(ch.kind)))];
    }
    ghost var generated := section;
    var config := ch.ConfigMap();
    var rest := config.Keys;
    while rest != {}
      invariant rest <= config.Keys
      invariant section == generated + map k | k in config && k !in rest :: Scalar(config[k])
      decreases rest
    {
      var k :| k in rest;
      section := section[k := Scalar(config[k])];
      rest := rest - {k};
    }
    assert generated == Generated(ch);
  }

  method BuildSections(chs: seq<ChannelSpec>) returns (sections: map<string, Section>)
    ensures sections == Sections(chs)
  {
    sections := map[];
    for i := 0 to |chs|
      invariant sections == Sections(chs[..i])
    {
      var section := BuildSection(chs[i]);
      assert chs[..i + 1][..i] == chs[..i];
      sections := sections[chs[i].kind := section];
    }
    assert chs[..|chs|] == chs;
  }

  /** The last channel of a type decides that type's section; no other types appear. */
  lemma {:induction false} LastChannelDecides(chs: seq<ChannelSpec>, i: nat)
    requires i < |chs| && forall j :: i < j < |chs| ==> chs[j].kind != chs[i].kind
    ensures chs[i].kind in Sections(chs) && Sections(chs)[chs[i].kind] == SectionOf(chs[i])
  {
    if i < |chs| - 1 {
      LastChannelDecides(chs[..|chs| - 1], i);
    }
  }

  lemma {:induction false} SectionTypes(chs: seq<ChannelSpec>)
    ensures Sections(chs).Keys == set ch | ch in chs :: ch.kind
  {
    if chs != [] {
      SectionTypes(chs[..|chs| - 1]);
      var last := chs[|chs| - 1];
      assert chs == chs[..|chs| - 1] + [last];
      assert (set ch | ch in chs :: ch.kind) == (set ch | ch in chs[..|chs| - 1] :: ch.kind) + {last.kind};
    }
  }

  /** Inside a section the user's value stands wherever the user gave one. */
  lemma UserConfigOverrides(ch: ChannelSpec, k: string)
    ensures k in ch.ConfigMap() ==> k in SectionOf(ch) && SectionOf(ch)[k] == Scalar(ch.ConfigMap()[k])
    ensures k !in ch.ConfigMap() ==> Lookup(SectionOf(ch), k) == Lookup(Generated(ch), k)
  {
  }

  // ------------------------------------------------------------- A2A gateway plugin

  function PeerOf(p: A2APeer): PeerDoc {
    PeerDoc(p.name, p.agentCardURL,
            if p.credentialsSecret != "" then Some(Placeholder(PeerTokenVar(p.name))) else None)
  }

  function PeerDocs(ps: seq<A2APeer>): (r: seq<PeerDoc>) {
    seq(|ps|, i requires 0 <= i < |ps| => PeerOf(ps[i]))
  }

  function A2AUrl(name: string, ns: string, port: int): string {
    "http://" + name + "." + ns + ".svc.cluster.local:" + Decimal(port) + "/a2a/jsonrpc"
  }

  function A2AOf(name: string, ns: string, a: A2ASpec): A2ADoc {
    A2ADoc(
      ObserveClaw.OrElse(a.agentCardName, name),
      ObserveClaw.OrElse(a.agentCardDescription, "Clawbernetes agent: " + name),
      A2AUrl(name, ns, a.ResolvedPort()),
      if Elems(a.skills) == [] then ["chat"] else Elems(a.skills),
      a.ResolvedPort(), name,
      if a.securityTokenSecret != "" then Some(Placeholder(A2A_TOKEN_VAR)) else None,
      if Elems(a.peers) == [] then None else Some(PeerDocs(Elems(a.peers))))
  }

  method BuildA2A(name: string, ns: string, a: A2ASpec) returns (doc: A2ADoc)
    ensures doc == A2AOf(name, ns, a)
  {
    var cardName := a.agentCardName;
    if cardName == "" { cardName := name; }
    var description := a.agentCardDescription;
    if description == "" { description := "Clawbernetes agent: " + name; }
    var skills: seq<string> := [];
    for i := 0 to |Elems(a.skills)|
      invariant skills == Elems(a.skills)[..i]
    {
      skills := skills + [Elems(a.skills)[i]];
    }
    if |skills| == 0 { skills := ["chat"]; }
    var securityToken: Option<string> := None;
    if a.securityTokenSecret != "" { securityToken := Some(Placeholder(A2A_TOKEN_VAR)); }
    var peers: Option<seq<PeerDoc>> := None;
    if |Elems(a.peers)| > 0 {
      var built := BuildPeers(Elems(a.peers));
      peers := Some(built);
    }
    doc := A2ADoc(cardName, description, A2AUrl(name, ns, a.ResolvedPort()), skills, a.ResolvedPort(), name,
                  securityToken, peers);
  }

  method BuildPeers(ps: seq<A2APeer>) returns (peers: seq<PeerDoc>)
    ensures peers == PeerDocs(ps)
  {
    peers := [];
    for i := 0 to |ps|
      invariant peers == PeerDocs(ps)[..i]
    {
      var token: Option<string> := None;
      if ps[i].credentialsSecret != "" { token := Some(Placeholder(PeerTokenVar(ps[i].name))); }
      peers := peers + [PeerDoc(ps[i].name, ps[i].agentCardURL, token)];
    }
  }

  // ------------------------------------------------------------- plugins

  const OBSERVE_PLUGIN := "observeclaw"
  const OTEL_PLUGIN := "diagnostics-otel"
  const A2A_PLUGIN := "a2a-gateway"

  function ChannelEntries(entries: map<string, PluginEntry>, chs: seq<ChannelSpec>): map<string, PluginEntry> {
    if chs == [] then entries
    else ChannelEntries(entries, chs[..|chs| - 1])[chs[|chs| - 1].kind := PluginEntry(true, NoPayload)]
  }

  function Kinds(chs: seq<ChannelSpec>): (r: seq<string>) {
    seq(|chs|, i requires 0 <= i < |chs| => chs[i].kind)
  }

  function BaseEntries(observe: ObserveClaw.PluginDoc, otel: bool): map<string, PluginEntry> {
    var base := map[OBSERVE_PLUGIN := PluginEntry(true, ObserveConfig(observe))];
    if otel then base[OTEL_PLUGIN := PluginEntry(true, NoPayload)] else base
  }

  function Plugins(observe: ObserveClaw.PluginDoc, otel: bool, chs: seq<ChannelSpec>, a2a: Option<A2ADoc>): PluginsDoc {
    var entries := ChannelEntries(BaseEntries(observe, otel), chs);
    PluginsDoc(
      true,
      if a2a.Some? then entries[A2A_PLUGIN := PluginEntry(true, A2AConfig(a2a.value))] else entries,
      [OBSERVE_PLUGIN] + Kinds(chs) + (if a2a.Some? then [A2A_PLUGIN] else []),
      if a2a.Some? then Some(["/home/node/.openclaw/workspace/plugins/a2a-gateway"]) else None)
  }

  method BuildPlugins(observe: ObserveClaw.PluginDoc, otel: bool, chs: seq<ChannelSpec>, a2a: Option<A2ADoc>)
    returns (plugins: PluginsDoc)
    ensures plugins == Plugins(observe, otel, chs, a2a)
  {
    var entries := map[OBSERVE_PLUGIN := PluginEntry(true, ObserveConfig(observe))];
    if otel { entries := entries[OTEL_PLUGIN := PluginEntry(true, NoPayload)]; }
    for i := 0 to |chs|
      invariant entries == ChannelEntries(BaseEntries(observe, otel), chs[..i])
    {
      assert chs[..i + 1][..i] == chs[..i];
      entries := entries[chs[i].kind := PluginEntry(true, NoPayload)];
    }
    assert chs[..|chs|] == chs;
    var allow := [OBSERVE_PLUGIN];
    for i := 0 to |chs|
      invariant allow == [OBSERVE_PLUGIN] + Kinds(chs)[..i]
    {
      allow := allow + [chs[i].kind];
    }
    var loadPaths: Option<seq<string>> := None;
    if a2a.Some? {
      entries := entries[A2A_PLUGIN := PluginEntry(true, A2AConfig(a2a.value))];
      allow := allow + [A2A_PLUGIN];
      loadPaths := Some(["/home/node/.openclaw/workspace/plugins/a2a-gateway"]);
    }
    plugins := PluginsDoc(true, entries, allow, loadPaths);
  }

  function Members(s: seq<string>): set<string> { set x | x in s }

  lemma {:induction false} ChannelEntriesShape(entries: map<string, PluginEntry>, chs: seq<ChannelSpec>)
    requires forall k :: k in entries ==> entries[k].enabled
    ensures ChannelEntries(entries, chs).Keys == entries.Keys + Members(Kinds(chs))
    ensures forall k :: k in ChannelEntries(entries, chs) ==> ChannelEntries(entries, chs)[k].enabled
    ensures forall k :: k in entries && k !in Kinds(chs) ==> ChannelEntries(entries, chs)[k] == entries[k]
  {
    if chs != [] {
      var init, last := chs[..|chs| - 1], chs[|chs| - 1];
      ChannelEntriesShape(entries, init);
      assert Kinds(chs) == Kinds(init) + [last.kind];
    }
  }

  lemma AllowMembers(observe: ObserveClaw.PluginDoc, otel: bool, chs: seq<ChannelSpec>, a2a: Option<A2ADoc>)
    ensures Members(Plugins(observe, otel, chs, a2a).allow)
            == {OBSERVE_PLUGIN} + Members(Kinds(chs)) + (if a2a.Some? then {A2A_PLUGIN} else {})
  {
    var allow := [OBSERVE_PLUGIN] + Kinds(chs) + (if a2a.Some? then [A2A_PLUGIN] else []);
    assert Plugins(observe, otel, chs, a2a).allow == allow;
    forall x ensures x in allow <==> x == OBSERVE_PLUGIN || x in Kinds(chs) || (a2a.Some? && x == A2A_PLUGIN) {}
  }

  lemma EntryKeys(observe: ObserveClaw.PluginDoc, otel: bool, chs: seq<ChannelSpec>, a2a: Option<A2ADoc>)
    ensures var p := Plugins(observe, otel, chs, a2a);
            && (forall k :: k in p.entries ==> p.entries[k].enabled)
            && p.entries.Keys == {OBSERVE_PLUGIN} + (if otel then {OTEL_PLUGIN} else {}) + Members(Kinds(chs))
                                 + (if a2a.Some? then {A2A_PLUGIN} else {})
  {
    ChannelEntriesShape(BaseEntries(observe, otel), chs);
  }

  /** The set argument behind PluginListsAgree, for any three distinct plugin names. */
  lemma ListsAgree(observe: string, otel: string, a2a: string, hasOtel: bool, hasA2A: bool, kinds: set<string>)
    requires observe != otel && a2a != otel
    ensures var tail := if hasA2A then {a2a} else {};
            var allow := {observe} + kinds + tail;
            var keys := {observe} + (if hasOtel then {otel} else {}) + kinds + tail;
            && (allow == keys - {otel} <==> otel !in kinds)
            && (allow == keys <==> !hasOtel || otel in kinds)
  {
    var tail := if hasA2A then {a2a} else {};
    var allow := {observe} + kinds + tail;
    var keys := {observe} + (if hasOtel then {otel} else {}) + kinds + tail;
    assert otel in allow <==> otel in kinds;
    assert otel in keys <==> hasOtel || otel in kinds;
    assert otel !in kinds ==> allow == keys - {otel};
    assert (!hasOtel || otel in kinds) ==> allow == keys;
  }

  /**
   The two plugin lists agree, for every channel list: everything listed is enabled, and
   the allow list names exactly the entries other than diagnostics-otel, provided no channel
   carries that name (no channel type the resource definition admits does).
   */
  lemma PluginListsAgree(observe: ObserveClaw.PluginDoc, otel: bool, chs: seq<ChannelSpec>, a2a: Option<A2ADoc>)
    ensures var p := Plugins(observe, otel, chs, a2a);
            && (forall k :: k in p.entries ==> p.entries[k].enabled)
            && (Members(p.allow) == p.entries.Keys - {OTEL_PLUGIN} <==> OTEL_PLUGIN !in Members(Kinds(chs)))
            && (Members(p.allow) == p.entries.Keys <==> !otel || OTEL_PLUGIN in Members(Kinds(chs)))
  {
    AllowMembers(observe, otel, chs, a2a);
    EntryKeys(observe, otel, chs, a2a);
    assert |OTEL_PLUGIN| != |OBSERVE_PLUGIN| && |OTEL_PLUGIN| != |A2A_PLUGIN|;
    ListsAgree(OBSERVE_PLUGIN, OTEL_PLUGIN, A2A_PLUGIN, otel, a2a.Some?, Members(Kinds(chs)));
  }

  /** The plugin configuration survives the channel entries for every admitted channel type. */
  lemma ObserveConfigSurvives(observe: ObserveClaw.PluginDoc, otel: bool, chs: seq<ChannelSpec>, a2a: Option<A2ADoc>)
    requires forall i :: 0 <= i < |chs| ==> chs[i].kind in CHANNEL_TYPES
    ensures var p := Plugins(observe, otel, chs, a2a);
            && OBSERVE_PLUGIN in p.entries && p.entries[OBSERVE_PLUGIN].payload == ObserveConfig(observe)
            && (a2a.Some? ==> A2A_PLUGIN in p.entries && p.entries[A2A_PLUGIN].payload == A2AConfig(a2a.value))
            && OTEL_PLUGIN !in Kinds(chs)
  {
    ChannelEntriesShape(BaseEntries(observe, otel), chs);
    assert OBSERVE_PLUGIN !in CHANNEL_TYPES && OTEL_PLUGIN !in CHANNEL_TYPES;
    assert OBSERVE_PLUGIN != A2A_PLUGIN by { assert OBSERVE_PLUGIN[0] != A2A_PLUGIN[0]; }
  }

  // ------------------------------------------------------------- whole document

  function CaptureOf(tc: TelemetryCaptureSpec): CaptureDoc {
    if tc.inputMessages || tc.outputMessages || tc.systemInstructions || tc.toolDefinitions || tc.toolContent
    then CaptureDoc(tc.inputMessages, tc.outputMessages, tc.systemInstructions, tc.toolDefinitions, tc.toolContent)
    else CaptureDoc(true, true, true, true, true)
  }

  function OtelOf(name: string, endpoint: string, tc: TelemetryCaptureSpec): OtelDoc {
    OtelDoc(endpoint, name, CaptureOf(tc), if tc.sampleRate.Some? then tc.sampleRate.value else 1.0)
  }

  function ObserveOf(input: ConfigInput): ObserveClaw.PluginDoc {
    ObserveClaw.PluginConfig(input.spec.credentialsSecret, input.gatewayURL, input.policy, input.gateway)
  }

  function PluginsOf(input: ConfigInput): PluginsDoc {
    Plugins(ObserveOf(input), input.otlpEndpoint != "", input.channels,
            if input.spec.a2a.enabled then Some(A2AOf(input.name, input.ns, input.spec.a2a)) else None)
  }

  function Config(input: ConfigInput): ConfigDoc {
    var model := input.spec.model;
    var providers := Providers(input.gatewayURL, model.provider);
    ConfigDoc(
      input.name, GATEWAY_PORT,
      if model.provider != "" && model.name != "" then Some(model.provider + "/" + model.name) else None,
      if input.otlpEndpoint != "" then Some(OtelOf(input.name, input.otlpEndpoint, input.spec.telemetryCapture))
        else None,
      if providers != map[] then Some(providers) else None,
      if input.channels != [] then Some(Sections(input.channels)) else None,
      PluginsOf(input))
  }

  /** The plugin section, with the two plugins that carry a configuration of their own. */
  method BuildExtensions(input: ConfigInput) returns (plugins: PluginsDoc)
    ensures plugins == PluginsOf(input)
  {
    var observe := ObserveClaw.BuildObserveclawConfig(input.spec.credentialsSecret, input.gatewayURL, input.policy,
      input.gateway);
    var a2a: Option<A2ADoc> := None;
    if input.spec.a2a.enabled {
      var a2aDoc := BuildA2A(input.name, input.ns, input.spec.a2a);
      a2a := Some(a2aDoc);
    }
    plugins := BuildPlugins(observe, input.otlpEndpoint != "", input.channels, a2a);
  }

  /** BuildConfig: the sections in the order the generator writes them. */
  method BuildConfig(input: ConfigInput) returns (doc: ConfigDoc)
    ensures doc == Config(input)
  {
    var primary: Option<string> := None;
    if input.spec.model.provider != "" && input.spec.model.name != "" {
      primary := Some(input.spec.model.provider + "/" + input.spec.model.name);
    }
    var otel: Option<OtelDoc> := None;
    if input.otlpEndpoint != "" {
      otel := Some(OtelOf(input.name, input.otlpEndpoint, input.spec.telemetryCapture));
    }
    var built := BuildProviders(input.gatewayURL, input.spec.model.provider);
    var providers: Option<map<string, ProviderDoc>> := None;
    if |built| > 0 { providers := Some(built); }
    var channels: Option<map<string, Section>> := None;
    if |input.channels| > 0 {
      var sections := BuildSections(input.channels);
      channels := Some(sections);
    }
    var plugins := BuildExtensions(input);
    doc := ConfigDoc(input.name, GATEWAY_PORT, primary, otel, providers, channels, plugins);
  }

  lemma {:induction false} ChannelEntriesPlain(entries: map<string, PluginEntry>, chs: seq<ChannelSpec>, k: string)
    requires k !in entries
    ensures k in ChannelEntries(entries, chs) ==> ChannelEntries(entries, chs)[k] == PluginEntry(true, NoPayload)
  {
    if chs != [] { ChannelEntriesPlain(entries, chs[..|chs| - 1], k); }
  }

  /** The A2A payload is in the generated document exactly when A2A is enabled. */
  lemma A2AEntry(input: ConfigInput)
    ensures var entries := Config(input).plugins.entries;
            (A2A_PLUGIN in entries && entries[A2A_PLUGIN].payload.A2AConfig? <==> input.spec.a2a.enabled)
            && (input.spec.a2a.enabled ==>
                  entries[A2A_PLUGIN].payload == A2AConfig(A2AOf(input.name, input.ns, input.spec.a2a)))
  {
    var base := BaseEntries(ObserveOf(input), input.otlpEndpoint != "");
    assert A2A_PLUGIN !in base by {
      assert |A2A_PLUGIN| == |OBSERVE_PLUGIN| && A2A_PLUGIN[0] != OBSERVE_PLUGIN[0] && |A2A_PLUGIN| != |OTEL_PLUGIN|;
    }
    ChannelEntriesPlain(base, input.channels, A2A_PLUGIN);
  }
}
