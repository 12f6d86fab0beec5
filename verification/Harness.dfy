/** The registry of agent runtimes and what each contributes to an agent's children. */
module Harness {
  import opened Prelude
  import opened Api
  import Names
  import OpenClaw
  import Hermes

  datatype Kind = OpenClawHarness | ObserveClawHarness | HermesHarness

  /** ForType: anything unknown runs as OpenClaw. */
  function ForType(kind: string): Kind {
    if kind == "observeclaw" then ObserveClawHarness
    else if kind == "hermes" then HermesHarness
    else OpenClawHarness
  }

  function DefaultImage(h: Kind): string {
    match h
    case OpenClawHarness => "ghcr.io/openclaw/openclaw:latest"
    case ObserveClawHarness => "clawbernetes/openclaw:latest"
    case HermesHarness => "nousresearch/hermes-agent:latest"
  }

  function GatewayPort(h: Kind): int { if h.HermesHarness? then Hermes.GATEWAY_PORT else OpenClaw.GATEWAY_PORT }

  function HomePath(h: Kind): string { if h.HermesHarness? then "/opt/data" else "/home/node/.openclaw" }

  function ConfigFileName(h: Kind): string { if h.HermesHarness? then "config.yaml" else "openclaw.json" }

  function ConfigMapSuffix(h: Kind): string {
    match h
    case OpenClawHarness => Names.OPENCLAW_SUFFIX
    case ObserveClawHarness => Names.OBSERVECLAW_SUFFIX
    case HermesHarness => Names.HERMES_SUFFIX
  }

  function ContainerName(h: Kind): string {
    match h
    case OpenClawHarness => "openclaw"
    case ObserveClawHarness => "observeclaw"
    case HermesHarness => "hermes"
  }

  function ContainerCommand(h: Kind): seq<string> {
    if h.HermesHarness? then ["hermes", "gateway", "run"] else []
  }

  function ReadinessPath(h: Kind): string { if h.HermesHarness? then "" else "/ready" }
  function LivenessPath(h: Kind): string { if h.HermesHarness? then "" else "/health" }
  function RunAsUser(h: Kind): Option<int> { if h.HermesHarness? then None else Some(1000) }

  /** One `cp` of a seed script: from a mounted file to a file under the home volume; a tolerated one may fail. */
  datatype Copy = Copy(mount: string, file: string, dest: string, tolerated: bool)

  /** The files a harness's seed script copies, in order; the skills are copied by the loop after them. */
  function SeedCopies(h: Kind): seq<Copy> {
    if h.HermesHarness? then
      [Copy("/config-src", ConfigFileName(h), ConfigFileName(h), false),
       Copy("/config-src", "HEARTBEAT.md", "skills/HEARTBEAT.md", true),
       Copy("/identity-src", "SOUL.md", "SOUL.md", true), Copy("/identity-src", "USER.md", "memories/USER.md", true),
       Copy("/identity-src", "IDENTITY.md", "memories/IDENTITY.md", true)]
    else
      [Copy("/config-src", ConfigFileName(h), ConfigFileName(h), false),
       Copy("/config-src", "HEARTBEAT.md", "workspace/HEARTBEAT.md", false),
       Copy("/config-src", "TOOLS.md", "workspace/TOOLS.md", true),
       Copy("/identity-src", "SOUL.md", "workspace/SOUL.md", true),
       Copy("/identity-src", "USER.md", "workspace/USER.md", true),
       Copy("/identity-src", "IDENTITY.md", "workspace/IDENTITY.md", true)]
  }

  datatype Document = OpenClawJson(json: OpenClaw.ConfigDoc) | HermesYaml(yaml: Hermes.ConfigDoc)

  /** The configuration a harness generates; only Hermes looks at the iteration orders. */
  function Config(h: Kind, input: ConfigInput, orders: KeyOrders): Document {
    if h.HermesHarness? then HermesYaml(Hermes.Config(input, orders)) else OpenClawJson(OpenClaw.Config(input))
  }

  /** Dynamic dispatch of BuildConfig. */
  method BuildConfig(h: Kind, input: ConfigInput) returns (doc: Document)
    ensures exists orders :: ValidOrders(orders, input.channels) && doc == Config(h, input, orders)
  {
    if h.HermesHarness? {
      var yaml := Hermes.BuildConfig(input);
      ghost var orders :| ValidOrders(orders, input.channels) && yaml == Hermes.Config(input, orders);
      doc := HermesYaml(yaml);
      assert doc == Config(h, input, orders);
    } else {
      var json := OpenClaw.BuildConfig(input);
      ghost var orders := Hermes.SomeOrders(input.channels);
      doc := OpenClawJson(json);
      assert doc == Config(h, input, orders);
    }
  }
}
