/**
 What holds across a finished document, the finished Deployment and the finished Service: where a
 request goes behind a gateway, which ports and names the parts use for each other, and what a
 provider is called with.
 */
module Documents {
  import opened Prelude
  import opened Api
  import opened Text
  import opened Deployment
  import opened ObserveClaw
  import Credentials
  import OpenClaw
  import Hermes
  import Harness

  // ------------------------------------------------------------ behind a gateway

  /** The engine matches the pattern of any one character exactly on texts that have one. */
  ghost predicate AnyCharacter(m: Matcher) {
    forall ev: RoutingEvaluator, text :: ev.kind == "regex" && ev.patterns == ["[\\s\\S]"] ==>
      (m(ev, text) <==> text != "")
  }

  /** The routing section of a finished document. */
  function RoutingOf(input: ConfigInput): Option<RoutingDoc> {
    var entries := OpenClaw.Config(input).plugins.entries;
    if "observeclaw" in entries && entries["observeclaw"].payload.ObserveConfig?
    then Some(entries["observeclaw"].payload.observe.routing) else None
  }

  predicate AdmittedTypes(input: ConfigInput) {
    forall i :: 0 <= i < |input.channels| ==>
      input.channels[i].kind in {"telegram", "slack", "discord", "whatsapp", "matrix", "msteams", "irc", "signal",
                                 "line", "feishu", "nostr", "mattermost", "googlechat"}
  }

  /** The evaluator sends a request to a provider and model of the document, reached at the given address. */
  predicate ProxiesTo(doc: OpenClaw.ConfigDoc, ev: EvaluatorEntry, url: string) {
    && ev.action == Some("proxy") && ev.proxyProvider.Some? && ev.proxyModel.Some?
    && doc.providers.Some? && ev.proxyProvider.value in doc.providers.value
    && doc.providers.value[ev.proxyProvider.value].baseURL == url
    && ev.proxyModel.value in doc.providers.value[ev.proxyProvider.value].models
  }

  /** It takes any request with a character, and yields to every evaluator of positive priority. */
  predicate TakesTheRest(evs: seq<EvaluatorEntry>) {
    && |evs| > 0
    && var last := evs[|evs| - 1];
       && last.enabled && last.kind == "regex" && last.patterns == Some(["[\\s\\S]"])
       && last.action == Some("proxy") && last.proxyProvider.Some? && last.proxyModel.Some?
       && forall j :: 0 <= j < |evs| - 1 && evs[j].priority > 0 ==> evs[j].priority > last.priority
  }

  lemma RoutingPresent(input: ConfigInput)
    requires AdmittedTypes(input)
    ensures RoutingOf(input)
            == Some(PluginConfig(input.spec.credentialsSecret, input.gatewayURL, input.policy, input.gateway).routing)
  {
    Credentials.ObserveEntry(input);
  }

  /**
   Behind a gateway the last evaluator of the finished document takes every request that is left:
   it is enabled, matches any character, ranks below every positive priority, and proxies. What it
   proxies to is a provider of the same document, at the gateway's address and with that model,
   exactly when the agent's own provider does not take that name.
   */
  lemma LastEvaluatorProxies(input: ConfigInput)
    requires AdmittedTypes(input) && input.gatewayURL != ""
    ensures var doc, r := OpenClaw.Config(input), RoutingOf(input);
            && r.Some? && r.value.enabled && TakesTheRest(r.value.evaluators)
            && var last := r.value.evaluators[|r.value.evaluators| - 1];
               && doc.providers.Some? && last.proxyProvider.value in doc.providers.value
               && (ProxiesTo(doc, last, input.gatewayURL) <==> input.spec.model.provider != last.proxyProvider.value)
  {
    RoutingPresent(input);
    var user := Entries(UserEvaluators(input.gateway));
    var evs := Evaluators(input.gatewayURL, input.gateway);
    assert evs[|evs| - 1] == CATCH_ALL && |evs| == |user| + 1;
    OpenClaw.CatchAllTargetRegistered(input.gatewayURL, input.spec.model.provider);
    CatchAllTarget(input.gatewayURL, input.spec.model.provider);
  }

  lemma CatchAllTarget(gatewayURL: string, provider: string)
    requires gatewayURL != ""
    ensures provider != OpenClaw.GATEWAY_PROVIDER ==>
              OpenClaw.Providers(gatewayURL, provider)[OpenClaw.GATEWAY_PROVIDER].baseURL == gatewayURL
    ensures CATCH_ALL.proxyProvider == Some(OpenClaw.GATEWAY_PROVIDER)
  {
  }

  /** The reading of the evaluators that the routing laws use. */
  lemma LastDecidesTheRest(evs: seq<EvaluatorEntry>, m: Matcher, text: string)
    requires TakesTheRest(evs) && AnyCharacter(m) && text != ""
    requires forall j :: 0 <= j < |evs| - 1 ==> evs[j].priority > 0
    ensures forall i :: Wins(ReadEntries(evs), m, text, i) <==>
              (Wins(ReadEntries(evs[..|evs| - 1]), m, text, i)
               || (i == |evs| - 1 && forall j :: 0 <= j < |evs| - 1 ==> !Matches(m, ReadEntries(evs)[j], text)))
  {
    var read, user := ReadEntries(evs), ReadEntries(evs[..|evs| - 1]);
    assert forall j :: 0 <= j < |evs| - 1 ==> read[j] == user[j];
    assert Matches(m, read[|evs| - 1], text);
    forall i: nat
      ensures Wins(read, m, text, i) <==>
              (Wins(user, m, text, i) || (i == |evs| - 1 && forall j :: 0 <= j < |evs| - 1 ==>
                !Matches(m, read[j], text)))
    {
      LastWins(evs, m, text, i);
    }
  }

  lemma LastWins(evs: seq<EvaluatorEntry>, m: Matcher, text: string, i: nat)
    requires TakesTheRest(evs) && AnyCharacter(m) && text != ""
    requires forall j :: 0 <= j < |evs| - 1 ==> evs[j].priority > 0
    ensures Wins(ReadEntries(evs), m, text, i) <==>
              (Wins(ReadEntries(evs[..|evs| - 1]), m, text, i)
               || (i == |evs| - 1 && forall j :: 0 <= j < |evs| - 1 ==> !Matches(m, ReadEntries(evs)[j], text)))
  {
    var read, user, k := ReadEntries(evs), ReadEntries(evs[..|evs| - 1]), |evs| - 1;
    assert forall j :: 0 <= j < k ==> read[j] == user[j] && read[j].priority > read[k].priority;
    assert Matches(m, read[k], text);
    if Wins(read, m, text, i) && i < k {
      forall j | 0 <= j < k && Matches(m, user[j], text) ensures user[j].priority <= user[i].priority {
        assert Matches(m, read[j], text);
      }
    }
    if Wins(read, m, text, k) {
      forall j | 0 <= j < k ensures !Matches(m, read[j], text) {}
    }
  }

  /**
   So with positive user priorities every request with a character that no evaluator of the
   resource matches is proxied to the gateway, unless the agent's provider has taken the name;
   and requests that one matches are decided by the resource's evaluators alone.
   */
  lemma RestGoesToGateway(input: ConfigInput, m: Matcher, text: string)
    requires AdmittedTypes(input) && input.gatewayURL != "" && AnyCharacter(m) && text != ""
    requires forall e :: e in UserEvaluators(input.gateway) ==> e.priority > 0
    ensures RoutingOf(input).Some?
    ensures var evs := RoutingOf(input).value.evaluators;
            var k := |UserEvaluators(input.gateway)|;
            && |evs| == k + 1
            && ((forall j :: 0 <= j < k ==> !Matches(m, ReadEntries(evs)[j], text)) ==>
                  && Wins(ReadEntries(evs), m, text, k) && evs[k].action == Some("proxy") && evs[k].proxyProvider.Some?
                  && (ProxiesTo(OpenClaw.Config(input), evs[k], input.gatewayURL)
                      <==> input.spec.model.provider != evs[k].proxyProvider.value))
            && ((exists j :: 0 <= j < k && Matches(m, ReadEntries(evs)[j], text)) ==>
                  forall i :: Wins(ReadEntries(evs), m, text, i) <==> Wins(ReadEntries(evs[..k]), m, text, i))
  {
    LastEvaluatorProxies(input);
    RoutingPresent(input);
    var evs := RoutingOf(input).value.evaluators;
    UserFirst(input);
    LastDecidesTheRest(evs, m, text);
  }

  lemma UserFirst(input: ConfigInput)
    requires input.gatewayURL != ""
    ensures var evs := Evaluators(input.gatewayURL, input.gateway);
            var user := UserEvaluators(input.gateway);
            && |evs| == |user| + 1 && forall j :: 0 <= j < |user| ==>
              evs[j].priority == user[j].priority && user[j] in user
  {
  }

  // ------------------------------------------------------------ ports and addresses

  predicate ListensOn(ports: seq<ContainerPort>, name: string, port: int) {
    exists i :: 0 <= i < |ports| && ports[i] == ContainerPort(name, port)
  }

  /** The port the runtime is told to open, by the generated configuration. */
  function ConfiguredPort(input: ConfigInput, orders: KeyOrders): int {
    if input.spec.harness.kind == "hermes"
      then Hermes.Config(input, orders).port else OpenClaw.Config(input).gatewayPort
  }

  /**
   Configuration, container and Service agree: the port the runtime opens is the container's and the
   Service's gateway port and the one both probes ask, the Service selects the pods the Deployment
   makes, and it has exactly the container's ports.
   */
  lemma PortsAgree(input: ConfigInput, orders: KeyOrders, pvc: string)
    ensures var d, svc, port := DeploymentFor(input, pvc), ServiceFor(input), ConfiguredPort(input, orders);
            && port == (if input.spec.harness.kind == "hermes" then 8642 else 18789)
            && ListensOn(d.template.container.ports, "gateway", port) && ListensOn(svc.ports, "gateway", port)
            && d.template.container.readiness.port == port && d.template.container.liveness.port == port
            && svc.selector == d.template.labels == d.selector == AgentLabels(input.name)
            && svc.ports == d.template.container.ports && |svc.ports| == (if input.spec.a2a.enabled then 2 else 1)
  {
    assert "hermes"[0] == 'h' && "observeclaw"[0] == 'o';
    var ports := DeploymentFor(input, pvc).template.container.ports;
    assert ports[0].name == "gateway";
  }

  /** The A2A section of a finished document. */
  function A2ASection(input: ConfigInput): Option<OpenClaw.A2ADoc> {
    var entries := OpenClaw.Config(input).plugins.entries;
    if "a2a-gateway" in entries && entries["a2a-gateway"].payload.A2AConfig?
    then Some(entries["a2a-gateway"].payload.a2a) else None
  }

  /**
   An agent that offers A2A listens where its card says: the section's port is the container's and
   the Service's, 18800 unless the agent names one, and the card's address is that of the agent's own
   Service. Names that are left out are the agent's, and the token is asked for iff there is one.
   */
  lemma A2AReachable(input: ConfigInput, pvc: string)
    ensures A2ASection(input).Some? <==> input.spec.a2a.enabled
    ensures input.spec.a2a.enabled ==>
              var doc, a := A2ASection(input).value, input.spec.a2a;
              && doc.port == (if a.port == 0 then 18800 else a.port)
              && ListensOn(DeploymentFor(input, pvc).template.container.ports, "a2a", doc.port)
              && ListensOn(ServiceFor(input).ports, "a2a", doc.port)
              && doc.url == "http://" + input.name + "." + input.ns + ".svc.cluster.local:" + Decimal(doc.port)
                + "/a2a/jsonrpc"
              && doc.defaultAgentId == input.name
              && doc.cardName == (if a.agentCardName == "" then input.name else a.agentCardName)
              && doc.cardDescription
                 == (if a.agentCardDescription == ""
                   then "Clawbernetes agent: " + input.name else a.agentCardDescription)
              && doc.skills == (if Elems(a.skills) == [] then ["chat"] else Elems(a.skills))
              && doc.securityToken == (if a.securityTokenSecret == "" then None else Some("${A2A_TOKEN}"))
  {
    OpenClaw.A2AEntry(input);
    if input.spec.a2a.enabled {
      var ports := DeploymentFor(input, pvc).template.container.ports;
      assert ports[1] == ContainerPort("a2a", input.spec.a2a.ResolvedPort());
      assert ServiceFor(input).ports == ports;
      TokenPlaceholder();
    }
  }

  lemma TokenPlaceholder()
    ensures Placeholder(A2A_TOKEN_VAR) == "${A2A_TOKEN}"
  {
  }

  // ------------------------------------------------------------------ providers

  /**
   Providers of the finished document: known ones are called in their own format at their own
   address, unknown ones as OpenAI is, always with a key of their own name and no fixed models; the
   gateway's is there behind a gateway, with the two models it serves and no key of the agent's.
   */
  lemma ProvidersSpelled(input: ConfigInput)
    ensures var doc, p := OpenClaw.Config(input), input.spec.model.provider;
            && (doc.providers.Some? <==> p != "" || input.gatewayURL != "")
            && (doc.providers.Some? ==>
                  && (forall k :: k in doc.providers.value
                        <==> (k == p && p != "") || (k == "gateway-anthropic" && input.gatewayURL != ""))
                  && (p != "" ==>
                        doc.providers.value[p]
                        == OpenClaw.ProviderDoc(
                             if p == "anthropic" then "https://api.anthropic.com"
                             else if p == "google" then "https://generativelanguage.googleapis.com/v1beta"
                             else "https://api.openai.com/v1",
                             if p == "anthropic" then "anthropic-messages"
                             else if p == "google" then "google-genai" else "openai-responses",
                             "${" + (EnvName(p) + "_API_KEY") + "}", []))
                  && (input.gatewayURL != "" && p != "gateway-anthropic" ==>
                        doc.providers.value["gateway-anthropic"]
                        == OpenClaw.ProviderDoc(input.gatewayURL, "anthropic-messages", "gateway-managed",
                                                ["claude-sonnet-4-6", "claude-haiku-4-5"])))
  {
    if input.spec.model.provider != "" { DirectProviderSpelled(input.spec.model.provider); }
    var ps := OpenClaw.Providers(input.gatewayURL, input.spec.model.provider);
    if input.spec.model.provider != "" { assert input.spec.model.provider in ps; }
    if input.gatewayURL != "" { assert OpenClaw.GATEWAY_PROVIDER in ps; }
  }

  lemma DirectProviderSpelled(p: string)
    ensures OpenClaw.DirectProvider(p)
            == OpenClaw.ProviderDoc(
                 if p == "anthropic" then "https://api.anthropic.com"
                 else if p == "google" then "https://generativelanguage.googleapis.com/v1beta"
                 else "https://api.openai.com/v1",
                 if p == "anthropic" then "anthropic-messages"
                 else if p == "google" then "google-genai" else "openai-responses",
                 "${" + (EnvName(p) + "_API_KEY") + "}", [])
  {
    assert "anthropic"[0] == 'a' && "openai"[0] == 'o' && "google"[0] == 'g';
  }

  /** Identity of the document: the agent, its default model when both parts are named, and its telemetry. */
  lemma DocumentSpelled(input: ConfigInput)
    ensures var doc, model, tc := OpenClaw.Config(input), input.spec.model, input.spec.telemetryCapture;
            && doc.agentId == input.name
            && doc.primaryModel == (if model.provider != ""
              && model.name != "" then Some(model.provider + "/" + model.name) else None)
            && (doc.otel.Some? <==> input.otlpEndpoint != "")
            && (doc.otel.Some? ==>
                  && doc.otel.value.endpoint == input.otlpEndpoint && doc.otel.value.serviceName == input.name
                  && doc.otel.value.sampleRate == (if tc.sampleRate.Some? then tc.sampleRate.value else 1.0)
                  && doc.otel.value.capture
                     == if tc.inputMessages || tc.outputMessages || tc.systemInstructions || tc.toolDefinitions
                       || tc.toolContent
                        then OpenClaw.CaptureDoc(tc.inputMessages, tc.outputMessages, tc.systemInstructions,
                                                 tc.toolDefinitions, tc.toolContent)
                        else OpenClaw.CaptureDoc(true, true, true, true, true))
            && (doc.channels.Some? <==> input.channels != [])
  {
  }

  /** The plugin lists by name: observeclaw, then the channels in order, then A2A, with its load path. */
  lemma PluginsSpelled(input: ConfigInput)
    ensures var p := OpenClaw.Config(input).plugins;
            && p.enabled && p.entries.Keys == {"observeclaw"}
              + (if input.otlpEndpoint != "" then {"diagnostics-otel"} else {})
                                              + OpenClaw.Members(OpenClaw.Kinds(input.channels))
                                              + (if input.spec.a2a.enabled then {"a2a-gateway"} else {})
            && (forall k :: k in p.entries ==> p.entries[k].enabled)
            && p.allow == ["observeclaw"] + OpenClaw.Kinds(input.channels)
                          + (if input.spec.a2a.enabled then ["a2a-gateway"] else [])
            && p.loadPaths == (if input.spec.a2a.enabled
                               then Some(["/home/node/.openclaw/workspace/plugins/a2a-gateway"]) else None)
  {
    var a2a := if input.spec.a2a.enabled then Some(OpenClaw.A2AOf(input.name, input.ns, input.spec.a2a)) else None;
    OpenClaw.EntryKeys(OpenClaw.ObserveOf(input), input.otlpEndpoint != "", input.channels, a2a);
  }

  /** The parts of config.yaml that are not about channels. */
  lemma HermesSpelled(input: ConfigInput, orders: KeyOrders)
    ensures var doc, model := Hermes.Config(input, orders), input.spec.model;
            && doc.agent == input.name
            && (doc.model.Some? <==> model.provider != "")
            && (doc.model.Some? ==>
                  && doc.model.value.provider == model.provider
                  && doc.model.value.model == (if model.name == "" then None else Some(model.name)))
            && doc.otel == (if input.otlpEndpoint == ""
              then None else Some(Hermes.OtelDoc(input.otlpEndpoint, input.name)))
  {
  }

  // --------------------------------------------------------------- the container

  /** The container of each harness, as the agent's spec leaves or overrides it. */
  lemma ContainerSpelled(input: ConfigInput, pvc: string)
    ensures var d := DeploymentFor(input, pvc);
            var c, kind := d.template.container, input.spec.harness.kind;
            && d.replicas == Some(1)
            && c.name == (if kind == "observeclaw" then "observeclaw" else if kind == "hermes"
              then "hermes" else "openclaw")
            && c.image == (if input.spec.harness.image != "" then input.spec.harness.image
                           else if kind == "observeclaw" then "clawbernetes/openclaw:latest"
                           else if kind == "hermes" then "nousresearch/hermes-agent:latest"
                           else "ghcr.io/openclaw/openclaw:latest")
            && c.command == (if kind == "hermes" then ["hermes", "gateway", "run"] else [])
            && c.resources == input.spec.resources
            && d.template.runAsUser == (if kind == "hermes" then None else Some(1000))
            && d.template.restartPolicy == (if input.spec.lifecycle.restartPolicy == "" then "Always"
                                            else input.spec.lifecycle.restartPolicy)
            && c.readiness.path == (if kind == "hermes" then "" else "/ready")
            && c.liveness.path == (if kind == "hermes" then "" else "/health")
            && |d.template.initContainers| == 2
            && d.template.initContainers[0].name == "copy-extensions" && d.template.initContainers[0].image == c.image
            && d.template.initContainers[1].name == "seed-workspace"
              && d.template.initContainers[1].image == "busybox:1.36"
            && c.readiness.initialDelay == 5 && c.readiness.period == 10
            && c.liveness.initialDelay == 10 && c.liveness.period == 30
  {
    assert "hermes"[0] == 'h' && "observeclaw"[0] == 'o';
  }

  /** The entries of peers: one for each peer with credentials, and no others. */
  ghost predicate PeerEntryOf(peers: seq<A2APeer>, e: EnvVar) {
    exists i :: 0 <= i < |peers| && peers[i].credentialsSecret != ""
                && e == EnvSecretKey("PEER_" + EnvName(peers[i].name)
                  + "_TOKEN", peers[i].credentialsSecret, "A2A_TOKEN")
  }

  lemma {:induction false} PeerEntriesExactly(peers: seq<A2APeer>, e: EnvVar)
    ensures e in PeerEnv(peers) <==> PeerEntryOf(peers, e)
  {
    if peers != [] {
      var init, last := peers[..|peers| - 1], peers[|peers| - 1];
      PeerEntriesExactly(init, e);
      if PeerEntryOf(init, e) {
        var i :| 0 <= i < |init| && init[i].credentialsSecret != ""
                 && e == EnvSecretKey("PEER_" + EnvName(init[i].name)
                   + "_TOKEN", init[i].credentialsSecret, "A2A_TOKEN");
        assert peers[i] == init[i];
      }
      if last.credentialsSecret != ""
        && e == EnvSecretKey("PEER_" + EnvName(last.name) + "_TOKEN", last.credentialsSecret, "A2A_TOKEN") {
        assert peers[|peers| - 1] == last;
      }
    }
  }

  /**
   The container's environment, entry by entry: the agent's name for its telemetry, the endpoint and
   empty headers iff there is an endpoint, and one secret per peer with credentials iff the agent
   offers A2A.
   */
  lemma EnvironmentExactly(input: ConfigInput, e: EnvVar)
    ensures e in MainContainer(input).env
            <==> || e == EnvValue("OTEL_SERVICE_NAME", input.name)
                 || (input.otlpEndpoint != "" && e == EnvValue("OTEL_EXPORTER_OTLP_ENDPOINT", input.otlpEndpoint))
                 || (input.otlpEndpoint != "" && e == EnvValue("OTEL_EXPORTER_OTLP_HEADERS", ""))
                 || (input.spec.a2a.enabled && PeerEntryOf(Elems(input.spec.a2a.peers), e))
  {
    var base := BaseEnv(input.name, input.otlpEndpoint);
    var peers := if input.spec.a2a.enabled then PeerEnv(Elems(input.spec.a2a.peers)) else [];
    BaseEntriesExactly(input.name, input.otlpEndpoint, e);
    PeerEntriesExactly(Elems(input.spec.a2a.peers), e);
    assert MainContainer(input).env == base + peers;
  }

  lemma BaseEntriesExactly(name: string, endpoint: string, e: EnvVar)
    ensures e in BaseEnv(name, endpoint)
            <==> || e == EnvValue("OTEL_SERVICE_NAME", name)
                 || (endpoint != "" && e == EnvValue("OTEL_EXPORTER_OTLP_ENDPOINT", endpoint))
                 || (endpoint != "" && e == EnvValue("OTEL_EXPORTER_OTLP_HEADERS", ""))
  {
  }
}
