/**
 config.yaml as the Hermes harness generates it. The fixed parts are a record; the user's
 channel settings are kept as the text the generator writes, because there Go's map
 iteration order shows: this module proves exactly when it does not matter.
 */
module Hermes {
  import opened Prelude
  import opened Api
  import opened Text

  datatype ModelDoc = ModelDoc(provider: string, model: Option<string>, apiKey: string)

  datatype ChannelDoc = ChannelDoc(kind: string, botToken: Option<string>, appToken: Option<string>, settings: string)

  datatype OtelDoc = OtelDoc(endpoint: string, serviceName: string)

  datatype ConfigDoc = ConfigDoc(
    agent: string, model: Option<ModelDoc>, port: int, channels: seq<ChannelDoc>, otel: Option<OtelDoc>)

  const GATEWAY_PORT := 8642

  /** One user setting as a line of the channel block. */
  function Line(k: string, v: string): string { "    " + k + ": " + v + "\n" }

  function SettingLine(config: map<string, string>, k: string): string {
    Line(k, if k in config then config[k] else "")
  }

  /** The settings of one channel, written in the given order of keys. */
  function Settings(config: map<string, string>, order: seq<string>): string {
    if order == [] then "" else SettingLine(config, order[0]) + Settings(config, order[1..])
  }

  function ChannelOf(ch: ChannelSpec, order: seq<string>): ChannelDoc {
    ChannelDoc(
      ch.kind,
      if ch.kind in CHANNELS_WITH_BOT_TOKEN then Some(Placeholder(BotTokenVar(ch.kind))) else None,
      if ch.kind in CHANNELS_WITH_APP_TOKEN then Some(Placeholder(AppTokenVar(ch.kind))) else None,
      Settings(ch.ConfigMap(), order))
  }

  function ChannelDocs(chs: seq<ChannelSpec>, orders: KeyOrders): (r: seq<ChannelDoc>) {
    seq(|chs|, i requires 0 <= i < |chs| => ChannelOf(chs[i], if i < |orders| then orders[i] else []))
  }

  /** The document for one choice of iteration orders. */
  function Config(input: ConfigInput, orders: KeyOrders): ConfigDoc {
    var model := input.spec.model;
    ConfigDoc(
      input.name,
      if model.provider != ""
      then Some(ModelDoc(model.provider, if model.name != "" then Some(model.name) else None,
                         Placeholder(ApiKeyVar(model.provider))))
      else None,
      GATEWAY_PORT,
      ChannelDocs(input.channels, orders),
      if input.otlpEndpoint != "" then Some(OtelDoc(input.otlpEndpoint, input.name)) else None)
  }

  // -------------------------------------------------------------- construction

  method BuildSettings(config: map<string, string>) returns (text: string)
    ensures exists order :: VisitsOnce(order, config) && text == Settings(config, order)
  {
    text := "";
    ghost var order: seq<string> := [];
    var rest := config.Keys;
    while rest != {}
      invariant rest <= config.Keys
      invariant forall k :: k in order <==> k in config && k !in rest
      invariant forall i, j :: 0 <= i < j < |order| ==> order[i] != order[j]
      invariant text == Settings(config, order)
      decreases rest
    {
      var k :| k in rest;
      SettingsAppend(config, order, [k]);
      text := text + Line(k, config[k]);
      order := order + [k];
      rest := rest - {k};
    }
  }

  /** BuildConfig visits every config map in an order of its own choosing. */
  method BuildConfig(input: ConfigInput) returns (doc: ConfigDoc)
    ensures exists orders :: ValidOrders(orders, input.channels) && doc == Config(input, orders)
  {
    var model: Option<ModelDoc> := None;
    if input.spec.model.provider != "" {
      model := Some(ModelDoc(input.spec.model.provider, None, Placeholder(ApiKeyVar(input.spec.model.provider))));
      if input.spec.model.name != "" { model := Some(model.value.(model := Some(input.spec.model.name))); }
    }
    var channels: seq<ChannelDoc> := [];
    ghost var orders: KeyOrders := [];
    for i := 0 to |input.channels|
      invariant |channels| == |orders| == i
      invariant forall j :: 0 <= j < i ==> VisitsOnce(orders[j], input.channels[j].ConfigMap())
      invariant forall j :: 0 <= j < i ==> channels[j] == ChannelOf(input.channels[j], orders[j])
    {
      var ch := input.channels[i];
      var botToken: Option<string>, appToken: Option<string> := None, None;
      if ch.kind in CHANNELS_WITH_BOT_TOKEN { botToken := Some(Placeholder(BotTokenVar(ch.kind))); }
      if ch.kind in CHANNELS_WITH_APP_TOKEN { appToken := Some(Placeholder(AppTokenVar(ch.kind))); }
      var settings := BuildSettings(ch.ConfigMap());
      ghost var order :| VisitsOnce(order, ch.ConfigMap()) && settings == Settings(ch.ConfigMap(), order);
      channels := channels + [ChannelDoc(ch.kind, botToken, appToken, settings)];
      orders := orders + [order];
    }
    var otel: Option<OtelDoc> := None;
    if input.otlpEndpoint != "" { otel := Some(OtelDoc(input.otlpEndpoint, input.name)); }
    doc := ConfigDoc(input.name, model, GATEWAY_PORT, channels, otel);
    assert doc == Config(input, orders);
  }

  // --------------------------------------------------- when order does not matter

  lemma {:induction false} SettingsAppend(config: map<string, string>, a: seq<string>, b: seq<string>)
    ensures Settings(config, a + b) == Settings(config, a) + Settings(config, b)
  {
    if a == [] {
      assert a + b == b;
    } else {
      assert (a + b)[1..] == a[1..] + b;
      SettingsAppend(config, a[1..], b);
    }
  }

  ghost predicate Commute(u: string, v: string) { u + v == v + u }

  /** Any two setting lines can change places without changing the text. */
  ghost predicate LinesCommute(config: map<string, string>) {
    forall k, l :: k in config && l in config ==> Commute(SettingLine(config, k), SettingLine(config, l))
  }

  ghost predicate OrderIrrelevant(config: map<string, string>) {
    forall o, p :: VisitsOnce(o, config) && VisitsOnce(p, config) ==> Settings(config, o) == Settings(config, p)
  }

  /** A line that commutes with every line of a block commutes with the block. */
  lemma {:induction false} CommutesWithBlock(config: map<string, string>, k: string, block: seq<string>)
    requires forall l :: l in block ==> Commute(SettingLine(config, k), SettingLine(config, l))
    ensures Commute(SettingLine(config, k), Settings(config, block))
  {
    var u := SettingLine(config, k);
    if block != [] {
      var v, w := SettingLine(config, block[0]), Settings(config, block[1..]);
      CommutesWithBlock(config, k, block[1..]);
      calc {
        u + (v + w);
        (u + v) + w;
        { assert Commute(u, v); }
        (v + u) + w;
        v + (u + w);
        v + (w + u);
        (v + w) + u;
      }
    }
  }

  /** A key whose line commutes with those before it can be visited first. */
  lemma MoveToFront(config: map<string, string>, before: seq<string>, k: string, after: seq<string>)
    requires forall l :: l in before ==> Commute(SettingLine(config, k), SettingLine(config, l))
    ensures Settings(config, before + ([k] + after)) == SettingLine(config, k) + Settings(config, before + after)
  {
    CommutesWithBlock(config, k, before);
    SettingsAppend(config, before, [k] + after);
    SettingsAppend(config, before, after);
    var u, b, a := SettingLine(config, k), Settings(config, before), Settings(config, after);
    assert ([k] + after)[1..] == after;
    calc {
      b + (u + a);
      (b + u) + a;
      { assert Commute(u, b); }
      (u + b) + a;
      u + (b + a);
    }
  }

  predicate Distinct(o: seq<string>) { forall i, j :: 0 <= i < j < |o| ==> o[i] != o[j] }

  predicate SameKeys(o: seq<string>, p: seq<string>) {
    (forall k :: k in o ==> k in p) && (forall k :: k in p ==> k in o)
  }

  lemma HasKey(p: seq<string>)
    ensures p != [] ==> exists k :: k in p
  {
    if p != [] { assert p[0] in p; }
  }

  /** Taking one shared key out of two orders leaves the same keys in both. */
  lemma DropShared(o: seq<string>, p: seq<string>, i: nat)
    requires Distinct(o) && Distinct(p) && SameKeys(o, p) && |o| > 0
    requires i < |p| && p[i] == o[0]
    ensures var q := p[..i] + p[i + 1..]; Distinct(o[1..]) && Distinct(q) && SameKeys(o[1..], q)
  {
    var q := p[..i] + p[i + 1..];
    forall k | k in o[1..] ensures k in q {
      assert k in o && k in p;
      var j :| 0 <= j < |p| && p[j] == k;
      assert k == if j < i then q[j] else q[j - 1];
    }
    forall k | k in q ensures k in o[1..] {
      var j :| 0 <= j < |q| && q[j] == k;
      assert k == if j < i then p[j] else p[j + 1];
      assert k in o;
    }
  }

  /** Two repetition-free orders of the same keys give the same text when lines commute. */
  lemma {:induction false} SameText(config: map<string, string>, o: seq<string>, p: seq<string>)
    requires LinesCommute(config)
    requires SameKeys(o, p) && Distinct(o) && Distinct(p)
    requires forall k :: k in o ==> k in config
    ensures Settings(config, o) == Settings(config, p)
    decreases |o|
  {
    if o == [] {
      HasKey(p);
    } else {
      assert o[0] in o && o[0] in p;
      var i :| 0 <= i < |p| && p[i] == o[0];
      DropShared(o, p, i);
      SameText(config, o[1..], p[..i] + p[i + 1..]);
      MoveToFront(config, p[..i], o[0], p[i + 1..]);
      assert p == p[..i] + ([o[0]] + p[i + 1..]);
    }
  }

  /** Every finite set of keys can be listed once. */
  lemma SomeOrder(keys: set<string>) returns (order: seq<string>)
    ensures forall k :: k in order <==> k in keys
    ensures forall i, j :: 0 <= i < j < |order| ==> order[i] != order[j]
    decreases keys
  {
    if keys == {} {
      order := [];
    } else {
      var k :| k in keys;
      var rest := SomeOrder(keys - {k});
      order := [k] + rest;
    }
  }

  lemma CancelSuffix(u: string, v: string, w: string)
    requires u + w == v + w
    ensures u == v
  {
    assert (u + w)[..|u + w| - |w|] == u;
    assert (v + w)[..|v + w| - |w|] == v;
  }

  lemma IrrelevantOnlyIfCommuting(config: map<string, string>, k: string, l: string)
    requires OrderIrrelevant(config) && k in config && l in config && k != l
    ensures Commute(SettingLine(config, k), SettingLine(config, l))
  {
    var rest := SomeOrder(config.Keys - {k, l});
    var o, p := [k, l] + rest, [l, k] + rest;
    assert VisitsOnce(o, config) && VisitsOnce(p, config);
    SettingsAppend(config, [k, l], rest);
    SettingsAppend(config, [l, k], rest);
    CancelSuffix(Settings(config, [k, l]), Settings(config, [l, k]), Settings(config, rest));
    TwoLines(config, k, l);
    TwoLines(config, l, k);
  }

  /** One channel's text is independent of the iteration order iff its lines commute pairwise. */
  lemma OrderIrrelevantExactly(config: map<string, string>)
    ensures OrderIrrelevant(config) <==> LinesCommute(config)
  {
    if LinesCommute(config) {
      forall o, p | VisitsOnce(o, config) && VisitsOnce(p, config)
        ensures Settings(config, o) == Settings(config, p)
      {
        SameText(config, o, p);
      }
    }
    if OrderIrrelevant(config) {
      forall k, l | k in config && l in config
        ensures Commute(SettingLine(config, k), SettingLine(config, l))
      {
        if k != l { IrrelevantOnlyIfCommuting(config, k, l); }
      }
    }
  }

  lemma TwoLines(config: map<string, string>, k: string, l: string)
    ensures Settings(config, [k, l]) == SettingLine(config, k) + SettingLine(config, l)
  {
    assert [k, l][1..] == [l];
    assert [l][1..] == [];
    assert Settings(config, [l]) == SettingLine(config, l) + "";
  }

  ghost predicate Deterministic(input: ConfigInput) {
    forall o, p :: ValidOrders(o, input.channels) && ValidOrders(p, input.channels)
                   ==> Config(input, o) == Config(input, p)
  }

  lemma DeterministicChannel(input: ConfigInput, i: nat)
    requires Deterministic(input) && i < |input.channels|
    ensures OrderIrrelevant(input.channels[i].ConfigMap())
  {
    var chs := input.channels;
    var base := SomeOrders(chs);
    var config := chs[i].ConfigMap();
    forall a, b | VisitsOnce(a, config) && VisitsOnce(b, config)
      ensures Settings(config, a) == Settings(config, b)
    {
      var o, p := base[i := a], base[i := b];
      assert ValidOrders(o, chs) && ValidOrders(p, chs);
      assert ChannelDocs(chs, o)[i].settings == Settings(config, a);
      assert ChannelDocs(chs, p)[i].settings == Settings(config, b);
      assert Config(input, o).channels == Config(input, p).channels;
    }
  }

  /**
   The generated document is the same for every iteration order iff the setting lines of
   each channel commute pairwise.
   */
  lemma DeterministicExactly(input: ConfigInput)
    ensures Deterministic(input)
            <==> forall i :: 0 <= i < |input.channels| ==> LinesCommute(input.channels[i].ConfigMap())
  {
    var chs := input.channels;
    if forall i :: 0 <= i < |chs| ==> LinesCommute(chs[i].ConfigMap()) {
      forall o, p | ValidOrders(o, chs) && ValidOrders(p, chs) ensures Config(input, o) == Config(input, p) {
        forall i | 0 <= i < |chs| ensures ChannelDocs(chs, o)[i] == ChannelDocs(chs, p)[i] {
          OrderIrrelevantExactly(chs[i].ConfigMap());
        }
        assert ChannelDocs(chs, o) == ChannelDocs(chs, p);
      }
    }
    if Deterministic(input) {
      forall i | 0 <= i < |chs| ensures LinesCommute(chs[i].ConfigMap()) {
        DeterministicChannel(input, i);
        OrderIrrelevantExactly(chs[i].ConfigMap());
      }
    }
  }

  lemma TwoKeys(config: map<string, string>, k: string, l: string)
    requires k in config && l in config && k != l
    ensures |config| >= 2
  {
    assert |config.Keys - {k, l}| == |config.Keys| - 2;
  }

  /** At most one setting is always deterministic. */
  lemma OneKeyCommutes(config: map<string, string>)
    requires |config| <= 1
    ensures LinesCommute(config)
  {
    forall k, l | k in config && l in config ensures k == l {
      if k != l { TwoKeys(config, k, l); }
    }
  }

  lemma {:induction false} SomeOrders(chs: seq<ChannelSpec>) returns (orders: KeyOrders)
    ensures ValidOrders(orders, chs)
  {
    if chs == [] {
      orders := [];
    } else {
      var first := SomeOrder(chs[0].ConfigMap().Keys);
      var rest := SomeOrders(chs[1..]);
      orders := [first] + rest;
    }
  }

  // ------------------------------------------------------------ plain settings

  /** A key without newline or colon and a value without newline: one line of YAML. */
  predicate PlainSetting(k: string, v: string) { '\n' !in k && ':' !in k && '\n' !in v }

  predicate PlainSettings(config: map<string, string>) { forall k :: k in config ==> PlainSetting(k, config[k]) }

  /** A text that ends in its only newline. */
  ghost predicate OneLine(u: string) {
    |u| > 0 && u[|u| - 1] == '\n' && forall i :: 0 <= i < |u| - 1 ==> u[i] != '\n'
  }

  lemma PlainIsOneLine(k: string, v: string)
    requires PlainSetting(k, v)
    ensures OneLine(Line(k, v))
  {
    var u := Line(k, v);
    assert |u| == |k| + |v| + 7;
    forall i | 0 <= i < |u| - 1 ensures u[i] != '\n' {
      if 4 <= i < 4 + |k| {
        assert u[i] == k[i - 4];
      } else if 6 + |k| <= i {
        assert u[i] == v[i - 6 - |k|];
      }
    }
  }

  /** Lines that commute are the same line: both texts break at the same place. */
  lemma CommutingLinesAgree(u: string, v: string)
    requires OneLine(u) && OneLine(v) && Commute(u, v)
    ensures u == v
  {
    assert (u + v)[|u| - 1] == '\n' && (v + u)[|v| - 1] == '\n';
    assert forall i :: 0 <= i < |u| ==> (u + v)[i] == u[i];
    assert forall i :: 0 <= i < |v| ==> (v + u)[i] == v[i];
    assert u == (u + v)[..|u|] && v == (v + u)[..|v|];
  }

  /** A plain line determines its key: the key ends at the first colon. */
  lemma LineShowsKey(k: string, v: string, l: string, w: string)
    requires PlainSetting(k, v) && PlainSetting(l, w) && Line(k, v) == Line(l, w)
    ensures k == l
  {
    var a, b := Line(k, v), Line(l, w);
    assert a[4 + |k|] == ':' && b[4 + |l|] == ':';
    assert forall i :: 4 <= i < 4 + |k| ==> a[i] == k[i - 4];
    assert forall i :: 4 <= i < 4 + |l| ==> b[i] == l[i - 4];
    assert a[4..4 + |k|] == k && b[4..4 + |l|] == l;
  }

  /** So two different plain settings never commute. */
  lemma PlainLinesDiffer(config: map<string, string>, k: string, l: string)
    requires PlainSettings(config) && k in config && l in config && k != l
    ensures !Commute(SettingLine(config, k), SettingLine(config, l))
  {
    PlainIsOneLine(k, config[k]);
    PlainIsOneLine(l, config[l]);
    if Commute(SettingLine(config, k), SettingLine(config, l)) {
      CommutingLinesAgree(SettingLine(config, k), SettingLine(config, l));
      LineShowsKey(k, config[k], l, config[l]);
    }
  }

  lemma PlainCommuteExactly(config: map<string, string>)
    requires PlainSettings(config)
    ensures LinesCommute(config) <==> |config| <= 1
  {
    if |config| <= 1 {
      OneKeyCommutes(config);
    } else {
      var k :| k in config;
      var l :| l in config.Keys - {k} by { assert |config.Keys - {k}| == |config.Keys| - 1; }
      PlainLinesDiffer(config, k, l);
    }
  }

  /** With plain settings the document is deterministic iff every channel has at most one of them. */
  lemma PlainDeterministicExactly(input: ConfigInput)
    requires forall i :: 0 <= i < |input.channels| ==> PlainSettings(input.channels[i].ConfigMap())
    ensures Deterministic(input) <==> forall i :: 0 <= i < |input.channels| ==> |input.channels[i].ConfigMap()| <= 1
  {
    DeterministicExactly(input);
    forall i | 0 <= i < |input.channels|
      ensures LinesCommute(input.channels[i].ConfigMap()) <==> |input.channels[i].ConfigMap()| <= 1
    {
      PlainCommuteExactly(input.channels[i].ConfigMap());
    }
  }
}
