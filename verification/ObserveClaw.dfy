/**
 The observeclaw plugin section of openclaw.json: budgets, tool policy, anomaly
 thresholds, routing evaluators and webhooks, generated from ClawPolicy and ClawGateway.
 Objects with fixed keys are records whose optional keys are Options; objects with
 data-dependent keys are maps. The evaluators are read back the way the plugin documents
 them, highest priority first, so that the appended catch-all can be judged against the
 resource's own list.
 */
module ObserveClaw {
  import opened Prelude
  import opened Api

  // ----------------------------------------------------------------- documents

  datatype BudgetDefaults = BudgetDefaults(daily: int, monthly: int, warnAt: real)

  datatype ToolDefaults = ToolDefaults(allow: seq<string>, deny: seq<string>)

  datatype EvaluatorEntry = EvaluatorEntry(
    name: string, kind: string, priority: int, enabled: bool,
    action: Option<string>, patterns: Option<seq<string>>, blockReply: Option<string>,
    emitEvent: Option<bool>, classifierModel: Option<string>, timeoutMs: Option<int>,
    redactReplacement: Option<string>, proxyURL: Option<string>,
    routes: Option<map<string, EvaluatorRouteSpec>>,
    proxyProvider: Option<string>, proxyModel: Option<string>)

  datatype RoutingDoc = RoutingDoc(enabled: bool, logRouting: bool, evaluators: seq<EvaluatorEntry>)

  datatype WebhookEntry = WebhookEntry(
    url: string, minSeverity: Option<string>, headers: Option<map<string, string>>)

  datatype PluginDoc = PluginDoc(
    enabled: bool, currency: string, budgets: BudgetDefaults, downgradeModel: string,
    downgradeProvider: string, tools: ToolDefaults, anomaly: GatewayAnomalySpec,
    routing: RoutingDoc, webhooks: seq<WebhookEntry>)

  // ------------------------------------------------------------- specification

  function NonEmpty(s: string): Option<string> { if s == "" then None else Some(s) }

  function Positive(n: int, default: int): int { if n > 0 then n else default }

  function OrElse(s: string, default: string): string { if s == "" then default else s }

  const NO_BUDGET := BudgetSpec(0, 0, None, "", "")

  function Budget(policy: Option<PolicySpec>): BudgetSpec {
    if policy.Some? then policy.value.budget else NO_BUDGET
  }

  function ToolPolicy(policy: Option<PolicySpec>): ToolPolicySpec {
    if policy.Some? then policy.value.toolPolicy else ToolPolicySpec(None, None)
  }

  const HOME_PATH := "/home/node/.openclaw"

  const CREDENTIAL_DENY_PATTERNS: seq<string> :=
    [HOME_PATH + "/credentials/*", "cat.*credentials", "grep.*credentials", "head.*credentials",
     "tail.*credentials", "less.*credentials", "base64.*credentials"]

  const DEFAULT_ANOMALY := GatewayAnomalySpec(3, 10, 10, 2, 30)

  /** Thresholds that are set replace the defaults, one by one. */
  function Overlay(a: GatewayAnomalySpec): GatewayAnomalySpec {
    GatewayAnomalySpec(Positive(a.spendSpikeMultiplier, 3), Positive(a.idleBurnMinutes, 10),
                       Positive(a.errorLoopThreshold, 10), Positive(a.tokenInflationMultiplier, 2),
                       Positive(a.checkIntervalSeconds, 30))
  }

  /** One evaluator of the resource as an entry; zero-valued fields are left out. */
  function Entry(ev: GatewayEvaluatorSpec): EvaluatorEntry {
    EvaluatorEntry(
      ev.name, ev.kind, ev.priority, true, NonEmpty(ev.action),
      if Elems(ev.patterns) == [] then None else ev.patterns,
      NonEmpty(ev.blockReply), if ev.emitEvent then Some(true) else None, NonEmpty(ev.classifierModel),
      if ev.timeoutMs > 0 then Some(ev.timeoutMs) else None, NonEmpty(ev.redactReplacement),
      NonEmpty(ev.proxyURL), ev.routes, None, None)
  }

  /** The pattern matches any one character. */
  const CATCH_ALL_PATTERN := "[\\s\\S]"

  const CATCH_ALL: EvaluatorEntry :=
    EvaluatorEntry("gateway-proxy", "regex", 0, true, Some("proxy"), Some([CATCH_ALL_PATTERN]), None, None, None,
                   None, None, None, None, Some("gateway-anthropic"), Some("claude-sonnet-4-6"))

  function UserEvaluators(gateway: Option<GatewaySpec>): seq<GatewayEvaluatorSpec> {
    if gateway.Some? then Elems(gateway.value.routing.evaluators) else []
  }

  function Entries(evs: seq<GatewayEvaluatorSpec>): (r: seq<EvaluatorEntry>) {
    seq(|evs|, i requires 0 <= i < |evs| => Entry(evs[i]))
  }

  function Evaluators(gatewayURL: string, gateway: Option<GatewaySpec>): seq<EvaluatorEntry> {
    Entries(UserEvaluators(gateway)) + (if gatewayURL != "" then [CATCH_ALL] else [])
  }

  function Webhook(wh: GatewayWebhookSpec): WebhookEntry {
    WebhookEntry(wh.url, NonEmpty(wh.minSeverity),
                 if wh.headers.Some? && wh.headers.value != map[] then wh.headers else None)
  }

  function UserWebhooks(gateway: Option<GatewaySpec>): seq<GatewayWebhookSpec> {
    if gateway.Some? then Elems(gateway.value.webhooks) else []
  }

  function Webhooks(whs: seq<GatewayWebhookSpec>): (r: seq<WebhookEntry>) {
    seq(|whs|, i requires 0 <= i < |whs| => Webhook(whs[i]))
  }

  const DEFAULT_DOWNGRADE_MODEL := "claude-haiku-4-5"
  const DEFAULT_DOWNGRADE_PROVIDER := "anthropic"

  /** Limits that are set replace the defaults, one by one. */
  function Budgets(b: BudgetSpec): BudgetDefaults {
    BudgetDefaults(Positive(b.daily, 100), Positive(b.monthly, 2000), if b.warnAt.Some? then b.warnAt.value else 0.8)
  }

  /** The policy's lists, with the credential files denied on top when credentials are mounted. */
  function Tools(credentialsSecret: string, tp: ToolPolicySpec): ToolDefaults {
    ToolDefaults(Elems(tp.allow), Elems(tp.deny) + if credentialsSecret != "" then CREDENTIAL_DENY_PATTERNS else [])
  }

  /** The whole plugin configuration. */
  function PluginConfig(credentialsSecret: string, gatewayURL: string,
                        policy: Option<PolicySpec>, gateway: Option<GatewaySpec>): PluginDoc {
    var b := Budget(policy);
    var evaluators := Evaluators(gatewayURL, gateway);
    PluginDoc(
      true, "USD", Budgets(b),
      OrElse(b.downgradeModel, DEFAULT_DOWNGRADE_MODEL), OrElse(b.downgradeProvider, DEFAULT_DOWNGRADE_PROVIDER),
      Tools(credentialsSecret, ToolPolicy(policy)),
      if gateway.Some? then Overlay(gateway.value.anomaly) else DEFAULT_ANOMALY,
      RoutingDoc(evaluators != [], gateway.Some? && gateway.value.routing.logEveryDecision, evaluators),
      Webhooks(UserWebhooks(gateway)))
  }

  // -------------------------------------------------------------- construction

  /** Copies a routes map entry by entry, in whatever order the keys come. */
  method CopyRoutes(routes: map<string, EvaluatorRouteSpec>) returns (out: map<string, EvaluatorRouteSpec>)
    ensures out == routes
  {
    out := map[];
    var rest := routes.Keys;
    while rest != {}
      invariant rest <= routes.Keys
      invariant out == map k | k in routes && k !in rest :: routes[k]
      decreases rest
    {
      var k :| k in rest;
      out := out[k := routes[k]];
      rest := rest - {k};
    }
  }

  /** Fills one evaluator entry, field by field. */
  method BuildEvaluator(ev: GatewayEvaluatorSpec) returns (entry: EvaluatorEntry)
    ensures entry == Entry(ev)
  {
    var action: Option<string>, patterns: Option<seq<string>>, blockReply: Option<string> := None, None, None;
    var emitEvent: Option<bool>, classifierModel: Option<string>, timeoutMs: Option<int> := None, None, None;
    var redactReplacement: Option<string>, proxyURL: Option<string> := None, None;
    var routes: Option<map<string, EvaluatorRouteSpec>> := None;
    if ev.action != "" { action := Some(ev.action); }
    if |Elems(ev.patterns)| > 0 { patterns := ev.patterns; }
    if ev.blockReply != "" { blockReply := Some(ev.blockReply); }
    if ev.emitEvent { emitEvent := Some(true); }
    if ev.classifierModel != "" { classifierModel := Some(ev.classifierModel); }
    if ev.timeoutMs > 0 { timeoutMs := Some(ev.timeoutMs); }
    if ev.redactReplacement != "" { redactReplacement := Some(ev.redactReplacement); }
    if ev.proxyURL != "" { proxyURL := Some(ev.proxyURL); }
    if ev.routes.Some? {
      var copied := CopyRoutes(ev.routes.value);
      routes := Some(copied);
    }
    entry := EvaluatorEntry(ev.name, ev.kind, ev.priority, true, action, patterns, blockReply, emitEvent,
                            classifierModel, timeoutMs, redactReplacement, proxyURL, routes, None, None);
  }

  method BuildRouting(gatewayURL: string, gateway: Option<GatewaySpec>) returns (routing: RoutingDoc)
    ensures routing.evaluators == Evaluators(gatewayURL, gateway)
    ensures routing.enabled <==> routing.evaluators != []
    ensures routing.logRouting <==> gateway.Some? && gateway.value.routing.logEveryDecision
  {
    var evaluators: seq<EvaluatorEntry> := [];
    var evs := UserEvaluators(gateway);
    for i := 0 to |evs|
      invariant evaluators == Entries(evs)[..i]
    {
      var entry := BuildEvaluator(evs[i]);
      evaluators := evaluators + [entry];
    }
    if gatewayURL != "" {
      evaluators := evaluators + [CATCH_ALL];
    }
    routing := RoutingDoc(|evaluators| > 0, gateway.Some? && gateway.value.routing.logEveryDecision, evaluators);
  }

  method BuildWebhooks(gateway: Option<GatewaySpec>) returns (webhooks: seq<WebhookEntry>)
    ensures webhooks == Webhooks(UserWebhooks(gateway))
  {
    webhooks := [];
    var whs := UserWebhooks(gateway);
    for i := 0 to |whs|
      invariant webhooks == Webhooks(whs)[..i]
    {
      var entry := WebhookEntry(whs[i].url, None, None);
      if whs[i].minSeverity != "" { entry := entry.(minSeverity := Some(whs[i].minSeverity)); }
      if whs[i].headers.Some? && |whs[i].headers.value| > 0 { entry := entry.(headers := whs[i].headers); }
      webhooks := webhooks + [entry];
    }
  }

  method BuildAnomaly(gateway: Option<GatewaySpec>) returns (anomaly: GatewayAnomalySpec)
    ensures anomaly == if gateway.Some? then Overlay(gateway.value.anomaly) else DEFAULT_ANOMALY
  {
    var spike, idle, errors, inflation, interval := 3, 10, 10, 2, 30;
    if gateway.Some? {
      var a := gateway.value.anomaly;
      if a.spendSpikeMultiplier > 0 { spike := a.spendSpikeMultiplier; }
      if a.idleBurnMinutes > 0 { idle := a.idleBurnMinutes; }
      if a.errorLoopThreshold > 0 { errors := a.errorLoopThreshold; }
      if a.tokenInflationMultiplier > 0 { inflation := a.tokenInflationMultiplier; }
      if a.checkIntervalSeconds > 0 { interval := a.checkIntervalSeconds; }
    }
    anomaly := GatewayAnomalySpec(spike, idle, errors, inflation, interval);
  }

  method BuildBudgets(policy: Option<PolicySpec>)
    returns (budgets: BudgetDefaults, downgradeModel: string, downgradeProvider: string)
    ensures budgets == Budgets(Budget(policy))
    ensures downgradeModel == OrElse(Budget(policy).downgradeModel, DEFAULT_DOWNGRADE_MODEL)
    ensures downgradeProvider == OrElse(Budget(policy).downgradeProvider, DEFAULT_DOWNGRADE_PROVIDER)
  {
    var daily, monthly, warnAt := 100, 2000, 0.8;
    downgradeModel, downgradeProvider := DEFAULT_DOWNGRADE_MODEL, DEFAULT_DOWNGRADE_PROVIDER;
    if policy.Some? {
      var b := policy.value.budget;
      if b.daily > 0 { daily := b.daily; }
      if b.monthly > 0 { monthly := b.monthly; }
      if b.warnAt.Some? { warnAt := b.warnAt.value; }
      if b.downgradeModel != "" { downgradeModel := b.downgradeModel; }
      if b.downgradeProvider != "" { downgradeProvider := b.downgradeProvider; }
    }
    budgets := BudgetDefaults(daily, monthly, warnAt);
  }

  method BuildTools(credentialsSecret: string, policy: Option<PolicySpec>) returns (tools: ToolDefaults)
    ensures tools == Tools(credentialsSecret, ToolPolicy(policy))
  {
    var allow: seq<string>, deny: seq<string> := [], [];
    if policy.Some? {
      var tp := policy.value.toolPolicy;
      if |Elems(tp.allow)| > 0 { allow := Elems(tp.allow); }
      if |Elems(tp.deny)| > 0 { deny := Elems(tp.deny); }
    }
    if credentialsSecret != "" {
      deny := deny + CREDENTIAL_DENY_PATTERNS;
    }
    tools := ToolDefaults(allow, deny);
  }

  /** buildObserveclawConfig: defaults first, then the overlays the resources ask for. */
  method BuildObserveclawConfig(credentialsSecret: string, gatewayURL: string,
                                policy: Option<PolicySpec>, gateway: Option<GatewaySpec>) returns (cfg: PluginDoc)
    ensures cfg == PluginConfig(credentialsSecret, gatewayURL, policy, gateway)
  {
    var budgets, downgradeModel, downgradeProvider := BuildBudgets(policy);
    var tools := BuildTools(credentialsSecret, policy);
    var anomaly := BuildAnomaly(gateway);
    var routing := BuildRouting(gatewayURL, gateway);
    var webhooks := BuildWebhooks(gateway);
    cfg := PluginDoc(true, "USD", budgets, downgradeModel, downgradeProvider, tools, anomaly, routing, webhooks);
  }

  // --------------------------------------------------- what the safeguards amount to

  /** Every threshold of the anomaly detector is positive. */
  predicate AllPositive(a: GatewayAnomalySpec) {
    && a.spendSpikeMultiplier > 0 && a.idleBurnMinutes > 0 && a.errorLoopThreshold > 0
    && a.tokenInflationMultiplier > 0 && a.checkIntervalSeconds > 0
  }

  /** The share of a budget at which the plugin warns is a proper share. */
  predicate ProperShare(warnAt: real) { 0.0 < warnAt <= 1.0 }

  /**
   No resource can switch a limit off: every limit and anomaly threshold the plugin gets is
   positive and a downgrade target is named, whatever policy and gateway say, and a limit is the
   policy's own exactly when that is positive. The warning threshold alone is passed on unchecked:
   it is a proper share of the budget iff the policy's own is, or there is none.
   */
  lemma SafeguardsAlwaysSet(credentialsSecret: string, gatewayURL: string,
                            policy: Option<PolicySpec>, gateway: Option<GatewaySpec>)
    ensures var cfg := PluginConfig(credentialsSecret, gatewayURL, policy, gateway);
            && cfg.budgets.daily > 0 && cfg.budgets.monthly > 0 && AllPositive(cfg.anomaly)
            && cfg.downgradeModel != "" && cfg.downgradeProvider != ""
            && (policy.Some? ==> (cfg.budgets.daily == policy.value.budget.daily <==> policy.value.budget.daily > 0)
                                 && (cfg.budgets.monthly == policy.value.budget.monthly <==>
                                   policy.value.budget.monthly > 0))
            && (gateway.Some? ==> (cfg.anomaly == gateway.value.anomaly <==> AllPositive(gateway.value.anomaly)))
            && (ProperShare(cfg.budgets.warnAt)
                <==> Budget(policy).warnAt.Some? ==> ProperShare(Budget(policy).warnAt.value))
  {
    assert DEFAULT_DOWNGRADE_MODEL != "" by { assert |DEFAULT_DOWNGRADE_MODEL| > 0; }
    assert DEFAULT_DOWNGRADE_PROVIDER != "" by { assert |DEFAULT_DOWNGRADE_PROVIDER| > 0; }
  }

  /** The whole section of an agent without policy, gateway and credentials. */
  lemma BaselineSpelled()
    ensures PluginConfig("", "", None, None)
            == PluginDoc(true, "USD", BudgetDefaults(100, 2000, 0.8), "claude-haiku-4-5", "anthropic",
              ToolDefaults([], []),
                         GatewayAnomalySpec(3, 10, 10, 2, 30), RoutingDoc(false, false, []), [])
  {
  }

  /** What a policy or gateway says, where it says something usable, is what the plugin gets. */
  lemma OverridesSpelled(credentialsSecret: string, gatewayURL: string, policy: PolicySpec, gateway: GatewaySpec)
    ensures var cfg := PluginConfig(credentialsSecret, gatewayURL, Some(policy), Some(gateway));
            var b, a, r := policy.budget, gateway.anomaly, cfg.anomaly;
            && cfg.budgets == BudgetDefaults(if b.daily > 0 then b.daily else 100, if b.monthly > 0
              then b.monthly else 2000,
                                             if b.warnAt.Some? then b.warnAt.value else 0.8)
            && cfg.downgradeModel == (if b.downgradeModel != "" then b.downgradeModel else "claude-haiku-4-5")
            && cfg.downgradeProvider == (if b.downgradeProvider != "" then b.downgradeProvider else "anthropic")
            && r.spendSpikeMultiplier == (if a.spendSpikeMultiplier > 0 then a.spendSpikeMultiplier else 3)
            && r.idleBurnMinutes == (if a.idleBurnMinutes > 0 then a.idleBurnMinutes else 10)
            && r.errorLoopThreshold == (if a.errorLoopThreshold > 0 then a.errorLoopThreshold else 10)
            && r.tokenInflationMultiplier == (if a.tokenInflationMultiplier > 0 then a.tokenInflationMultiplier else 2)
            && r.checkIntervalSeconds == (if a.checkIntervalSeconds > 0 then a.checkIntervalSeconds else 30)
            && (cfg.routing.logRouting <==> gateway.routing.logEveryDecision)
            && cfg.enabled && cfg.currency == "USD"
  {
  }

  /** The webhook reads back, an empty severity or header table being left out. */
  predicate SameWebhook(wh: GatewayWebhookSpec, out: WebhookEntry) {
    && out.url == wh.url && OrZero(out.minSeverity) == wh.minSeverity
    && (if out.headers.Some? then out.headers.value else map[])
      == (if wh.headers.Some? then wh.headers.value else map[])
    && (out.minSeverity.Some? ==> out.minSeverity.value != "")
    && (out.headers.Some? ==> out.headers.value != map[])
  }

  lemma WebhookReadsBack(wh: GatewayWebhookSpec)
    ensures SameWebhook(wh, Webhook(wh))
  {
  }

  /** The gateway's webhooks read back in order. */
  lemma WebhooksReadBack(credentialsSecret: string, gatewayURL: string, policy: Option<PolicySpec>,
                         gateway: GatewaySpec)
    ensures var out := PluginConfig(credentialsSecret, gatewayURL, policy, Some(gateway)).webhooks;
            var whs := Elems(gateway.webhooks);
            |out| == |whs| && forall i :: 0 <= i < |whs| ==> SameWebhook(whs[i], out[i])
  {
    var whs := Elems(gateway.webhooks);
    forall i | 0 <= i < |whs| ensures SameWebhook(whs[i], Webhooks(whs)[i]) { WebhookReadsBack(whs[i]); }
  }

  /** The commands that read credential files, and the files themselves, by name. */
  lemma DeniedSpelled(tool: string)
    requires tool in {"cat", "grep", "head", "tail", "less", "base64"}
    ensures tool + ".*credentials" in CREDENTIAL_DENY_PATTERNS
  {
    var ps := CREDENTIAL_DENY_PATTERNS;
    if tool == "cat" { assert ps[1] == tool + ".*credentials"; }
    else if tool == "grep" { assert ps[2] == tool + ".*credentials"; }
    else if tool == "head" { assert ps[3] == tool + ".*credentials"; }
    else if tool == "tail" { assert ps[4] == tool + ".*credentials"; }
    else if tool == "less" { assert ps[5] == tool + ".*credentials"; }
    else { assert ps[6] == tool + ".*credentials"; }
  }

  /** A gateway resource with every optional field left out. */
  function BareGateway(topology: string, port: int, enabled: bool): GatewaySpec {
    GatewaySpec(topology, port, GatewayRoutingSpec(enabled, false, None), GatewayAnomalySpec(0, 0, 0, 0, 0), None)
  }

  /** A missing policy reads as one that sets nothing, and a missing gateway likewise. */
  lemma AbsentIsEmpty(credentialsSecret: string, gatewayURL: string, policy: Option<PolicySpec>,
                      gateway: Option<GatewaySpec>, topology: string, port: int, enabled: bool)
    ensures PluginConfig(credentialsSecret, gatewayURL, None, gateway)
            == PluginConfig(credentialsSecret, gatewayURL, Some(PolicySpec(ToolPolicySpec(None, None), NO_BUDGET)),
              gateway)
    ensures PluginConfig(credentialsSecret, gatewayURL, policy, None)
            == PluginConfig(credentialsSecret, gatewayURL, policy, Some(BareGateway(topology, port, enabled)))
  {
    assert Overlay(GatewayAnomalySpec(0, 0, 0, 0, 0)) == DEFAULT_ANOMALY;
  }

  /**
   The user's deny list is kept in front and the allow list as it is; with credentials mounted
   every credential pattern is denied after it, and without them nothing is added.
   */
  lemma CredentialsDenied(credentialsSecret: string, gatewayURL: string,
                          policy: Option<PolicySpec>, gateway: Option<GatewaySpec>)
    ensures var tools := PluginConfig(credentialsSecret, gatewayURL, policy, gateway).tools;
            var deny, allow := Elems(ToolPolicy(policy).deny), Elems(ToolPolicy(policy).allow);
            && tools.allow == allow && deny <= tools.deny
            && (credentialsSecret == "" <==> tools.deny == deny)
            && (credentialsSecret != "" ==> forall p :: p in CREDENTIAL_DENY_PATTERNS ==> p in tools.deny[|deny|..])
  {
    var tools := PluginConfig(credentialsSecret, gatewayURL, policy, gateway).tools;
    var deny := Elems(ToolPolicy(policy).deny);
    if credentialsSecret != "" {
      assert tools.deny[|deny|..] == CREDENTIAL_DENY_PATTERNS;
    }
  }

  // ------------------------------------------------- reading evaluators back

  function OrZero(s: Option<string>): string { if s.Some? then s.value else "" }

  /** What a ClawGateway evaluator says about routing, without its alerting webhooks and endpoints. */
  datatype RoutingEvaluator = RoutingEvaluator(
    name: string, kind: string, priority: int, enabled: bool, action: string, patterns: seq<string>,
    blockReply: string, emitEvent: bool, classifierModel: string, timeoutMs: int,
    redactReplacement: string, proxyURL: string, routes: Nilable<map<string, EvaluatorRouteSpec>>,
    proxyProvider: string, proxyModel: string)

  /** An absent key reads as the zero value. */
  function ReadEntry(e: EvaluatorEntry): RoutingEvaluator {
    RoutingEvaluator(
      e.name, e.kind, e.priority, e.enabled, OrZero(e.action), Elems(e.patterns), OrZero(e.blockReply),
      e.emitEvent == Some(true), OrZero(e.classifierModel), if e.timeoutMs.Some? then e.timeoutMs.value else 0,
      OrZero(e.redactReplacement), OrZero(e.proxyURL), e.routes, OrZero(e.proxyProvider), OrZero(e.proxyModel))
  }

  /** What the ClawGateway author asked for; a non-positive timeout means none. */
  function Requested(ev: GatewayEvaluatorSpec): RoutingEvaluator {
    RoutingEvaluator(
      ev.name, ev.kind, ev.priority, true, ev.action, Elems(ev.patterns), ev.blockReply, ev.emitEvent,
      ev.classifierModel, if ev.timeoutMs > 0 then ev.timeoutMs else 0, ev.redactReplacement, ev.proxyURL,
      ev.routes, "", "")
  }

  function ReadEntries(es: seq<EvaluatorEntry>): (r: seq<RoutingEvaluator>) {
    seq(|es|, i requires 0 <= i < |es| => ReadEntry(es[i]))
  }

  function RequestedAll(evs: seq<GatewayEvaluatorSpec>): (r: seq<RoutingEvaluator>) {
    seq(|evs|, i requires 0 <= i < |evs| => Requested(evs[i]))
  }

  const GATEWAY_PROXY: RoutingEvaluator := ReadEntry(CATCH_ALL)

  /** Round trip: the emitted entries read back as the requested ones, plus the catch-all behind a gateway. */
  lemma EmittedReadsBack(credentialsSecret: string, gatewayURL: string,
                         policy: Option<PolicySpec>, gateway: Option<GatewaySpec>)
    ensures ReadEntries(PluginConfig(credentialsSecret, gatewayURL, policy, gateway).routing.evaluators)
            == RequestedAll(UserEvaluators(gateway)) + (if gatewayURL != "" then [GATEWAY_PROXY] else [])
  {
    var evs := UserEvaluators(gateway);
    forall i | 0 <= i < |evs| ensures ReadEntry(Entry(evs[i])) == Requested(evs[i]) {}
  }

  /** Equal but for what the generator drops: webhooks, endpoints, nil against empty patterns, useless timeouts. */
  predicate SameButDropped(e: GatewayEvaluatorSpec, f: GatewayEvaluatorSpec) {
    && e == f.(webhooks := e.webhooks, ollamaEndpoint := e.ollamaEndpoint, classifierEndpoint := e.classifierEndpoint,
               patterns := e.patterns, timeoutMs := e.timeoutMs)
    && Elems(e.patterns) == Elems(f.patterns)
    && (e.timeoutMs == f.timeoutMs || (e.timeoutMs <= 0 && f.timeoutMs <= 0))
  }

  /** Two evaluators give the same entry iff they differ in nothing but what the generator drops. */
  lemma EntryForgetsExactly(e: GatewayEvaluatorSpec, f: GatewayEvaluatorSpec)
    ensures Entry(e) == Entry(f) <==> SameButDropped(e, f)
  {
    var x, y := Entry(e), Entry(f);
    assert Elems(x.patterns) == Elems(e.patterns) && Elems(y.patterns) == Elems(f.patterns);
    assert OrZero(x.action) == e.action && OrZero(y.action) == f.action;
    assert OrZero(x.blockReply) == e.blockReply && OrZero(y.blockReply) == f.blockReply;
    assert OrZero(x.classifierModel) == e.classifierModel && OrZero(y.classifierModel) == f.classifierModel;
    assert OrZero(x.redactReplacement) == e.redactReplacement && OrZero(y.redactReplacement) == f.redactReplacement;
    assert OrZero(x.proxyURL) == e.proxyURL && OrZero(y.proxyURL) == f.proxyURL;
  }

  /** The gateway's own switch for routing is never read: the section is enabled iff it has evaluators. */
  lemma RoutingSwitchIgnored(credentialsSecret: string, gatewayURL: string, policy: Option<PolicySpec>,
                             gateway: GatewaySpec, enabled: bool)
    ensures var cfg := PluginConfig(credentialsSecret, gatewayURL, policy, Some(gateway));
            && cfg == PluginConfig(credentialsSecret, gatewayURL, policy,
                                   Some(gateway.(routing := gateway.routing.(enabled := enabled))))
            && (cfg.routing.enabled <==> Elems(gateway.routing.evaluators) != [] || gatewayURL != "")
  {
  }

  // --------------------------------------------------------- routing decisions

  /** Whether an evaluator matches a request text. Its regex or classifier is not modelled. */
  type Matcher = (RoutingEvaluator, string) -> bool

  predicate Matches(m: Matcher, ev: RoutingEvaluator, text: string) { ev.enabled && m(ev, text) }

  /** Evaluator `i` decides the request: it matches and nothing that matches has higher priority. */
  ghost predicate Wins(evs: seq<RoutingEvaluator>, m: Matcher, text: string, i: nat) {
    && i < |evs|
    && Matches(m, evs[i], text)
    && forall j :: 0 <= j < |evs| && Matches(m, evs[j], text) ==> evs[j].priority <= evs[i].priority
  }

  /** The catch-all pattern asks for one character of any kind. */
  ghost predicate CatchAllNeedsText(m: Matcher) {
    forall text :: m(GATEWAY_PROXY, text) <==> text != ""
  }

  /** First matching evaluator of greatest priority among the first `n`. */
  ghost function Best(evs: seq<RoutingEvaluator>, m: Matcher, text: string, n: nat): (b: Option<nat>)
    requires n <= |evs|
    ensures b.Some? ==> b.value < n && Matches(m, evs[b.value], text)
    ensures b.Some? ==> forall j :: 0 <= j < n && Matches(m, evs[j], text) ==> evs[j].priority <= evs[b.value].priority
    ensures b.None? ==> forall j :: 0 <= j < n ==> !Matches(m, evs[j], text)
  {
    if n == 0 then None
    else
      var b := Best(evs, m, text, n - 1);
      if Matches(m, evs[n - 1], text)
        && (b.None? || evs[b.value].priority < evs[n - 1].priority) then Some(n - 1) else b
  }

  /**
   Appending the catch-all keeps the resource's routing, and exactly how far:
   a user evaluator that would have decided a request still does iff its priority is
   not negative, and the catch-all decides iff no user evaluator of positive priority
   matches. No tie-breaking rule is assumed.
   */
  lemma CatchAllKeepsRouting(user: seq<RoutingEvaluator>, m: Matcher, text: string, i: nat)
    requires CatchAllNeedsText(m) && text != ""
    ensures i < |user| ==> (Wins(user + [GATEWAY_PROXY], m, text, i) <==>
        Wins(user, m, text, i) && user[i].priority >= 0)
    ensures Wins(user + [GATEWAY_PROXY], m, text, |user|)
            <==> forall j :: 0 <= j < |user| && Matches(m, user[j], text) ==> user[j].priority <= 0
  {
    var all := user + [GATEWAY_PROXY];
    assert all[|user|] == GATEWAY_PROXY && Matches(m, GATEWAY_PROXY, text);
    assert forall j :: 0 <= j < |user| ==> all[j] == user[j];
    if i < |user| && Wins(all, m, text, i) {
      assert all[|user|].priority <= all[i].priority;
      forall j | 0 <= j < |user| && Matches(m, user[j], text) ensures user[j].priority <= user[i].priority {
        assert Matches(m, all[j], text);
      }
    }
    if Wins(all, m, text, |user|) {
      forall j | 0 <= j < |user| && Matches(m, user[j], text) ensures user[j].priority <= 0 {
        assert Matches(m, all[j], text);
      }
    }
  }

  /**
   Routing through a gateway is total on every non-empty request, and when every user
   priority is positive the winners are exactly the resource's own, or the catch-all alone.
   */
  lemma RoutingIsTotal(credentialsSecret: string, gatewayURL: string, policy: Option<PolicySpec>,
                       gateway: Option<GatewaySpec>, m: Matcher, text: string)
    requires gatewayURL != "" && CatchAllNeedsText(m) && text != ""
    ensures var evs := ReadEntries(PluginConfig(credentialsSecret, gatewayURL, policy, gateway).routing.evaluators);
            var user := RequestedAll(UserEvaluators(gateway));
            && |evs| == |user| + 1
            && (exists i :: Wins(evs, m, text, i))
            && ((forall j :: 0 <= j < |user| ==> user[j].priority > 0) ==>
                  forall i :: Wins(evs, m, text, i) <==>
                              (Wins(user, m, text, i)
                               || (i == |user| && forall j :: 0 <= j < |user| ==> !Matches(m, user[j], text))))
  {
    var evs := ReadEntries(PluginConfig(credentialsSecret, gatewayURL, policy, gateway).routing.evaluators);
    var user := RequestedAll(UserEvaluators(gateway));
    EmittedReadsBack(credentialsSecret, gatewayURL, policy, gateway);
    assert evs == user + [GATEWAY_PROXY];
    assert Matches(m, evs[|user|], text);
    var b := Best(evs, m, text, |evs|);
    assert Wins(evs, m, text, b.value);
    if forall j :: 0 <= j < |user| ==> user[j].priority > 0 {
      forall i: nat
        ensures Wins(evs, m, text, i) <==>
                (Wins(user, m, text, i) || (i == |user| && forall j :: 0 <= j < |user| ==> !Matches(m, user[j], text)))
      {
        CatchAllKeepsRouting(user, m, text, i);
      }
    }
  }

  /** The empty request is the exception: the catch-all pattern does not match it. */
  lemma EmptyRequestEscapes(user: seq<RoutingEvaluator>, m: Matcher, i: nat)
    requires CatchAllNeedsText(m)
    ensures Wins(user + [GATEWAY_PROXY], m, "", i) <==> Wins(user, m, "", i)
  {
    var all := user + [GATEWAY_PROXY];
    assert all[|user|] == GATEWAY_PROXY && !Matches(m, GATEWAY_PROXY, "");
    assert forall j :: 0 <= j < |user| ==> all[j] == user[j];
    if Wins(all, m, "", i) {
      forall j | 0 <= j < |user| && Matches(m, user[j], "") ensures user[j].priority <= user[i].priority {
        assert Matches(m, all[j], "");
      }
    }
  }
}
