/**
 Which token ends up where, with the names spelled out: the variables the two generators write into
 a document, and the secret and key from which the container takes each of them.
 */
module Tokens {
  import opened Prelude
  import opened Api
  import opened Text
  import opened Deployment
  import opened Credentials
  import OpenClaw
  import Hermes

  /** The two tokens of a channel are different variables, whatever its type. */
  lemma TokensDiffer(kind: string)
    ensures Upper(kind) + "_BOT_TOKEN" != Upper(kind) + "_APP_TOKEN"
  {
    assert (Upper(kind) + "_BOT_TOKEN")[|Upper(kind)| + 1] == 'B';
    assert (Upper(kind) + "_APP_TOKEN")[|Upper(kind)| + 1] == 'A';
  }

  lemma TokenKeysDiffer()
    ensures "botToken" != "appToken" && "botToken" != "enabled" && "appToken" != "enabled"
  {
    assert "botToken"[0] == 'b' && "appToken"[0] == 'a' && "enabled"[0] == 'e';
  }

  /** What one of the keys of a section holds when the user has not set it. */
  predicate TokenValue(section: OpenClaw.Section, key: string, written: bool, v: string) {
    Lookup(section, key) == if written then Some(OpenClaw.Scalar("${" + v + "}")) else None
  }

  /**
   A channel that decides its type's section of openclaw.json is enabled there, asks for its bot
   token under botToken and for its app token under appToken, by their own names, and types
   without such a token ask for nothing; a key the user has set is the user's.
   */
  lemma SectionTokens(input: ConfigInput, i: nat)
    requires Deciding(input.channels, i)
    ensures var ch := input.channels[i];
            var doc := OpenClaw.Config(input);
            && doc.channels.Some? && ch.kind in doc.channels.value
            && var section := doc.channels.value[ch.kind];
               && ("enabled" !in ch.ConfigMap() ==> Lookup(section, "enabled") == Some(OpenClaw.Flag(true)))
               && ("botToken" !in ch.ConfigMap() ==>
                     TokenValue(section, "botToken", ch.kind in {"telegram", "slack", "discord", "msteams"},
                                Upper(ch.kind) + "_BOT_TOKEN"))
               && ("appToken" !in ch.ConfigMap() ==>
                     TokenValue(section, "appToken", ch.kind == "slack", Upper(ch.kind) + "_APP_TOKEN"))
               && (forall k :: k in ch.ConfigMap() ==> Lookup(section, k) == Some(OpenClaw.Scalar(ch.ConfigMap()[k])))
  {
    var ch := input.channels[i];
    OpenClaw.LastChannelDecides(input.channels, i);
    GeneratedTokens(ch);
    forall k ensures k in ch.ConfigMap() ==>
      Lookup(OpenClaw.SectionOf(ch), k) == Some(OpenClaw.Scalar(ch.ConfigMap()[k]))
    {
      OpenClaw.UserConfigOverrides(ch, k);
    }
    OpenClaw.UserConfigOverrides(ch, "enabled");
    OpenClaw.UserConfigOverrides(ch, "botToken");
    OpenClaw.UserConfigOverrides(ch, "appToken");
  }

  lemma GeneratedTokens(ch: ChannelSpec)
    ensures var g := OpenClaw.Generated(ch);
            && Lookup(g, "enabled") == Some(OpenClaw.Flag(true))
            && TokenValue(g, "botToken", ch.kind in {"telegram", "slack", "discord", "msteams"}, Upper(ch.kind)
              + "_BOT_TOKEN")
            && TokenValue(g, "appToken", ch.kind == "slack", Upper(ch.kind) + "_APP_TOKEN")
  {
    TokenKeysDiffer();
  }

  /** The same for config.yaml, channel by channel. */
  lemma HermesTokens(input: ConfigInput, orders: KeyOrders, i: nat)
    requires i < |input.channels|
    ensures var ch := input.channels[i];
            var doc := Hermes.Config(input, orders);
            && |doc.channels| == |input.channels| && doc.channels[i].kind == ch.kind
            && doc.channels[i].botToken == (if ch.kind in {"telegram", "slack", "discord", "msteams"}
                                            then Some("${" + (Upper(ch.kind) + "_BOT_TOKEN") + "}") else None)
            && doc.channels[i].appToken == (if ch.kind == "slack"
                                            then Some("${" + (Upper(ch.kind) + "_APP_TOKEN") + "}") else None)
  {
  }

  /** The provider's key in both documents. */
  lemma ProviderKeySpelled(input: ConfigInput, orders: KeyOrders)
    requires input.spec.model.provider != ""
    ensures var p := input.spec.model.provider;
            var key := "${" + (EnvName(p) + "_API_KEY") + "}";
            && OpenClaw.Config(input).providers.Some? && p in OpenClaw.Config(input).providers.value
            && OpenClaw.Config(input).providers.value[p].apiKey == key
            && Hermes.Config(input, orders).model.Some? && Hermes.Config(input, orders).model.value.apiKey == key
  {
    var p := input.spec.model.provider;
    assert p in OpenClaw.Providers(input.gatewayURL, p);
  }

  // ------------------------------------------------------------------- deliveries

  datatype Origin = Origin(secret: string, key: string)

  /** Where the container takes a variable from: its last entry of that name, or else the last secret holding it. */
  function Delivery(c: Container, secrets: Secrets, v: string): Option<Origin> {
    var e := LastNamed(c.env, v);
    if e.Some? then (if e.value.EnvSecretKey? then Some(Origin(e.value.secret, e.value.key)) else None)
    else
      var s := LastHolding(c.envFrom, secrets, v);
      if s.Some? then Some(Origin(s.value, v)) else None
  }

  lemma {:induction false} NotNamed(env: seq<EnvVar>, v: string)
    requires forall e :: e in env ==> e.name != v
    ensures LastNamed(env, v) == None
  {
    if env != [] { NotNamed(env[..|env| - 1], v); }
  }

  /** A channel with a bot token (or `app`, an app token) and a secret that follows the conventions. */
  predicate HasToken(ch: ChannelSpec, app: bool) {
    if app then ch.kind == "slack" else ch.kind in {"telegram", "slack", "discord", "msteams"}
  }

  function TokenName(kind: string, app: bool): string { Upper(kind) + (if app then "_APP_TOKEN" else "_BOT_TOKEN") }

  /**
   A channel's token comes from the channel's own secret, under the token's own name, iff no secret
   first asked for later holds that name too.
   */
  lemma TokenDeliveredExactly(input: ConfigInput, secrets: Secrets, i: nat, app: bool)
    requires i < |input.channels| && HasToken(input.channels[i], app)
    requires ChannelSecretConventional(input.channels[i], secrets)
    ensures var own, v := input.channels[i].credentialsSecret, TokenName(input.channels[i].kind, app);
            && own in SecretsWanted(input)
            && (Delivery(MainContainer(input), secrets, v) == Some(Origin(own, v))
                <==> NoLaterHolder(SecretsWanted(input), secrets, own, v))
  {
    var ch := input.channels[i];
    var v := TokenName(ch.kind, app);
    NoEntryShadowsToken(input, ch.kind);
    NotNamed(MainContainer(input).env, v);
    ChannelGetsOwnTokenExactly(input, secrets, i, v);
  }

  /** A peer's token is asked for by the peer's name and comes from the peer's secret, under A2A_TOKEN. */
  lemma PeerTokenSpelled(input: ConfigInput, i: nat)
    requires input.spec.a2a.enabled && i < |Elems(input.spec.a2a.peers)|
    requires Elems(input.spec.a2a.peers)[i].credentialsSecret != ""
    ensures var p := Elems(input.spec.a2a.peers)[i];
            var v := "PEER_" + EnvName(p.name) + "_TOKEN";
            var a2a := OpenClaw.A2AOf(input.name, input.ns, input.spec.a2a);
            && a2a.peers.Some? && |a2a.peers.value| == |Elems(input.spec.a2a.peers)|
            && a2a.peers.value[i].name == p.name && a2a.peers.value[i].agentCardURL == p.agentCardURL
            && a2a.peers.value[i].token == Some("${" + v + "}")
            && EnvSecretKey(v, p.credentialsSecret, "A2A_TOKEN") in MainContainer(input).env
  {
    PeerEntry(Elems(input.spec.a2a.peers), i);
  }
}
