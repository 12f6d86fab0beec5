/**
 The custom resources a user edits, as plain values, with the helper methods and
 lookup tables that the API package attaches to them.
 */
module Api {
  import opened Prelude

  // ---------------------------------------------------------------- ClawAgent

  datatype HarnessSpec = HarnessSpec(kind: string, image: string)

  datatype AgentIdentitySpec = AgentIdentitySpec(soul: string, user: string, agentIdentity: string)

  /** `sampleRate` is the parsed decimal; None stands for absent or unparsable. */
  datatype TelemetryCaptureSpec = TelemetryCaptureSpec(
    inputMessages: bool, outputMessages: bool, systemInstructions: bool,
    toolDefinitions: bool, toolContent: bool, sampleRate: Option<real>)

  datatype ModelFallbackSpec = ModelFallbackSpec(provider: string, name: string)

  datatype AgentModelSpec = AgentModelSpec(provider: string, name: string, fallback: Option<ModelFallbackSpec>)

  datatype AgentResources = AgentResources(
    requests: Nilable<map<string, nat>>, limits: Nilable<map<string, nat>>)

  datatype AgentLifecycleSpec = AgentLifecycleSpec(
    restartPolicy: string, hibernateAfterIdleMinutes: Option<int>, maxRuntime: string)

  const MODE_PERSISTENT := "persistent"
  const RECLAIM_RETAIN := "retain"
  const RECLAIM_DELETE := "delete"

  /** 5Gi, in bytes. */
  const DEFAULT_STORAGE_SIZE: nat := 5 * 1024 * 1024 * 1024

  datatype WorkspaceSpec = WorkspaceSpec(
    mode: string, storageSize: Option<nat>, storageClassName: Option<string>, reclaimPolicy: string)
  {
    predicate IsPersistent() { mode == MODE_PERSISTENT }

    function ResolvedReclaimPolicy(): string {
      if reclaimPolicy == "" then RECLAIM_RETAIN else reclaimPolicy
    }

    function ResolvedStorageSize(): nat {
      if storageSize.None? then DEFAULT_STORAGE_SIZE else storageSize.value
    }
  }

  datatype A2APeer = A2APeer(name: string, agentCardURL: string, credentialsSecret: string)

  datatype A2ASpec = A2ASpec(
    enabled: bool, agentCardName: string, agentCardDescription: string,
    skills: Nilable<seq<string>>, port: int, peers: Nilable<seq<A2APeer>>, securityTokenSecret: string)
  {
    function ResolvedPort(): int { if port == 0 then 18800 else port }
  }

  datatype AgentSpec = AgentSpec(
    harness: HarnessSpec, identity: AgentIdentitySpec, skillSet: string, policy: string,
    channels: Nilable<seq<string>>, gateway: string, observability: string,
    telemetryCapture: TelemetryCaptureSpec, model: AgentModelSpec, resources: AgentResources,
    lifecycle: AgentLifecycleSpec, workspace: WorkspaceSpec, credentialsSecret: string, a2a: A2ASpec)

  datatype AgentStatus = AgentStatus(phase: string, podName: string, workspacePVC: string)

  // -------------------------------------------------------------- ClawChannel

  datatype ChannelSpec = ChannelSpec(
    kind: string, enabled: Option<bool>, credentialsSecret: string, config: Nilable<map<string, string>>)
  {
    predicate IsEnabled() { enabled.None? || enabled.value }

    /** What a range over the possibly nil config map visits. */
    function ConfigMap(): map<string, string> { if config.Some? then config.value else map[] }
  }

  /** The enumeration the resource definition enforces on a channel's type. */
  const CHANNEL_TYPES: set<string> :=
    {"telegram", "slack", "discord", "whatsapp", "matrix", "msteams", "irc", "signal",
     "line", "feishu", "nostr", "mattermost", "googlechat"}

  const CHANNELS_WITH_BOT_TOKEN: set<string> := {"telegram", "slack", "discord", "msteams"}
  const CHANNELS_WITH_APP_TOKEN: set<string> := {"slack"}

  const PROVIDER_API_FORMATS: map<string, string> :=
    map["anthropic" := "anthropic-messages", "openai" := "openai-responses", "google" := "google-genai"]

  const PROVIDER_BASE_URLS: map<string, string> :=
    map["anthropic" := "https://api.anthropic.com", "openai" := "https://api.openai.com/v1",
        "google" := "https://generativelanguage.googleapis.com/v1beta"]

  const DEFAULT_PROVIDER_API_KEYS_SECRET := "openclaw-api-keys"

  // -------------------------------------------------------------- ClawGateway

  datatype GatewayWebhookSpec = GatewayWebhookSpec(
    url: string, minSeverity: string, headers: Nilable<map<string, string>>)

  datatype EvaluatorRouteSpec = EvaluatorRouteSpec(provider: string, model: string)

  datatype GatewayEvaluatorSpec = GatewayEvaluatorSpec(
    name: string, kind: string, priority: int, patterns: Nilable<seq<string>>, action: string,
    blockReply: string, emitEvent: bool, classifierModel: string, ollamaEndpoint: string,
    timeoutMs: int, proxyURL: string, redactReplacement: string,
    webhooks: Nilable<seq<GatewayWebhookSpec>>, classifierEndpoint: string,
    routes: Nilable<map<string, EvaluatorRouteSpec>>)

  datatype GatewayRoutingSpec = GatewayRoutingSpec(
    enabled: bool, logEveryDecision: bool, evaluators: Nilable<seq<GatewayEvaluatorSpec>>)

  datatype GatewayAnomalySpec = GatewayAnomalySpec(
    spendSpikeMultiplier: int, idleBurnMinutes: int, errorLoopThreshold: int,
    tokenInflationMultiplier: int, checkIntervalSeconds: int)

  datatype GatewaySpec = GatewaySpec(
    topology: string, port: int, routing: GatewayRoutingSpec, anomaly: GatewayAnomalySpec,
    webhooks: Nilable<seq<GatewayWebhookSpec>>)

  // ------------------------------------- ClawPolicy, ClawSkillSet, observability

  datatype ToolPolicySpec = ToolPolicySpec(allow: Nilable<seq<string>>, deny: Nilable<seq<string>>)

  /** `warnAt` is the parsed decimal; None stands for absent or unparsable. */
  datatype BudgetSpec = BudgetSpec(
    daily: int, monthly: int, warnAt: Option<real>, downgradeModel: string, downgradeProvider: string)

  datatype PolicySpec = PolicySpec(toolPolicy: ToolPolicySpec, budget: BudgetSpec)

  datatype SkillEntry = SkillEntry(name: string, content: string)

  // ------------------------------------------- resolved input of the generators

  /** What Reconcile has read for one agent: the agent itself and its references. */
  datatype ConfigInput = ConfigInput(
    name: string, ns: string, spec: AgentSpec, gatewayURL: string, otlpEndpoint: string,
    policy: Option<PolicySpec>, gateway: Option<GatewaySpec>, channels: seq<ChannelSpec>,
    skills: seq<SkillEntry>)

  /**
   The order in which Go's `range` visits each channel's config map, one list of
   keys per channel. Go leaves it open, so nothing may depend on it.
   */
  type KeyOrders = seq<seq<string>>

  ghost predicate VisitsOnce(order: seq<string>, m: map<string, string>) {
    && (forall k :: k in order <==> k in m)
    && (forall i, j :: 0 <= i < j < |order| ==> order[i] != order[j])
  }

  ghost predicate ValidOrders(orders: KeyOrders, channels: seq<ChannelSpec>) {
    |orders| == |channels| && forall i :: 0 <= i < |channels| ==> VisitsOnce(orders[i], channels[i].ConfigMap())
  }
}
