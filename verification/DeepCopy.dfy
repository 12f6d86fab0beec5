/**
 The generated deep-copy code as a statement about the heap. Go structs are values that hold
 references to slices, maps and pointer targets; a copy must show the same tree of values,
 nil kept apart from empty, and share no reference with its source or with itself.
 */
module DeepCopy {
  import opened Api

  // ------------------------------------------------------------ structs on the heap

  /** The object behind a Go map. */
  class Table<V> {
    var entries: map<string, V>

    constructor ()
      ensures entries == map[]
    {
      entries := map[];
    }
  }

  /** The object behind a Go pointer. */
  class Cell<T> {
    var value: T

    constructor (value: T)
      ensures this.value == value
    {
      this.value := value;
    }
  }

  datatype Webhook = Webhook(url: string, minSeverity: string, headers: Table?<string>)

  datatype Evaluator = Evaluator(
    name: string, kind: string, priority: int, patterns: array?<string>, action: string,
    blockReply: string, emitEvent: bool, classifierModel: string, ollamaEndpoint: string,
    timeoutMs: int, proxyURL: string, redactReplacement: string,
    webhooks: array?<Webhook>, classifierEndpoint: string, routes: Table?<EvaluatorRouteSpec>)

  datatype Routing = Routing(enabled: bool, logEveryDecision: bool, evaluators: array?<Evaluator>)

  datatype Gateway = Gateway(
    topology: string, port: int, routing: Routing, anomaly: GatewayAnomalySpec, webhooks: array?<Webhook>)

  // ----------------------------------------------- equal trees, and what they hold

  ghost predicate SameTable<V>(t: Table?<V>, u: Table?<V>)
    reads t, u
  {
    (t == null <==> u == null) && (t != null ==> t.entries == u.entries)
  }

  ghost predicate SameSlice<T>(a: array?<T>, b: array?<T>)
    reads a, b
  {
    (a == null <==> b == null) && (a != null ==> a[..] == b[..])
  }

  ghost predicate SameCell<T>(c: Cell?<T>, d: Cell?<T>)
    reads c, d
  {
    (c == null <==> d == null) && (c != null ==> c.value == d.value)
  }

  ghost predicate SameWebhook(w: Webhook, c: Webhook)
    reads w.headers, c.headers
  {
    c == w.(headers := c.headers) && SameTable(w.headers, c.headers)
  }

  /** The header tables a list of webhooks holds. */
  ghost function Headers(a: array?<Webhook>): set<Table<string>>
    reads a
  {
    if a == null then {} else set i | 0 <= i < a.Length && a[i].headers != null :: a[i].headers
  }

  ghost predicate SameWebhooks(a: array?<Webhook>, b: array?<Webhook>)
    reads a, b, Headers(a), Headers(b)
  {
    (a == null <==> b == null)
    && (a != null ==> a.Length == b.Length && forall i :: 0 <= i < a.Length ==> SameWebhook(a[i], b[i]))
  }

  /** Every webhook of the list has its own header table. */
  ghost predicate OwnHeaders(a: array?<Webhook>)
    reads a
  {
    a != null ==>
      forall i, j :: 0 <= i < j < a.Length && a[i].headers != null ==> a[i].headers != a[j].headers
  }

  ghost predicate SameEvaluator(e: Evaluator, c: Evaluator)
    reads e.patterns, c.patterns, e.webhooks, c.webhooks, Headers(e.webhooks), Headers(c.webhooks), e.routes, c.routes
  {
    && c == e.(patterns := c.patterns, webhooks := c.webhooks, routes := c.routes)
    && SameSlice(e.patterns, c.patterns) && SameWebhooks(e.webhooks, c.webhooks) && SameTable(e.routes, c.routes)
  }

  /** Every object an evaluator holds. */
  ghost function Refs(e: Evaluator): set<object>
    reads e.webhooks
  {
    var patterns: set<object> := if e.patterns == null then {} else {e.patterns};
    var webhooks: set<object> := if e.webhooks == null then {} else {e.webhooks};
    var headers: set<object> := Headers(e.webhooks);
    var routes: set<object> := if e.routes == null then {} else {e.routes};
    patterns + webhooks + headers + routes
  }

  // ------------------------------------------------------------------- the copies

  /** `make` and range over a map; nil stays nil. */
  method CopyTable<V>(t: Table?<V>) returns (out: Table?<V>)
    ensures SameTable(t, out) && (out != null ==> fresh(out))
  {
    if t == null { return null; }
    out := new Table();
    var rest := t.entries.Keys;
    while rest != {}
      invariant rest <= t.entries.Keys && fresh(out)
      invariant out.entries == map k | k in t.entries && k !in rest :: t.entries[k]
      decreases rest
    {
      var k :| k in rest;
      out.entries := out.entries[k := t.entries[k]];
      rest := rest - {k};
    }
    assert out.entries == t.entries;
  }

  /** `make` and `copy` of a slice whose elements hold no references. */
  method CopySlice<T(0)>(a: array?<T>) returns (out: array?<T>)
    ensures SameSlice(a, out) && (out != null ==> fresh(out))
  {
    if a == null { return null; }
    out := new T[a.Length];
    for i := 0 to a.Length
      invariant fresh(out) && out.Length == a.Length && out[..i] == a[..i]
    {
      out[i] := a[i];
    }
    assert out[..] == a[..];
  }

  method CopyCell<T>(c: Cell?<T>) returns (out: Cell?<T>)
    ensures SameCell(c, out) && (out != null ==> fresh(out))
  {
    if c == null { return null; }
    out := new Cell(c.value);
  }

  method CopyWebhooks(a: array?<Webhook>) returns (out: array?<Webhook>)
    ensures SameWebhooks(a, out) && (out != null ==> fresh(out)) && fresh(Headers(out)) && OwnHeaders(out)
  {
    if a == null { return null; }
    out := new Webhook[a.Length](_ => Webhook("", "", null));
    for i := 0 to a.Length
      invariant fresh(out) && out.Length == a.Length
      invariant forall j :: 0 <= j < i ==> SameWebhook(a[j], out[j])
      invariant forall j :: 0 <= j < i && out[j].headers != null ==> fresh(out[j].headers)
      invariant forall j, k :: 0 <= j < k < i && out[j].headers != null ==> out[j].headers != out[k].headers
      invariant forall j :: i <= j < a.Length ==> out[j].headers == null
    {
      var headers := CopyTable(a[i].headers);
      out[i] := a[i].(headers := headers);
    }
  }

  method CopyEvaluator(e: Evaluator) returns (out: Evaluator)
    ensures SameEvaluator(e, out) && OwnHeaders(out.webhooks)
    ensures fresh(Refs(out))
  {
    var patterns := CopySlice(e.patterns);
    var webhooks := CopyWebhooks(e.webhooks);
    var routes := CopyTable(e.routes);
    out := e.(patterns := patterns, webhooks := webhooks, routes := routes);
  }

  // ---------------------------------------------------------- lists of evaluators

  /** Two evaluators have no object in common. */
  ghost predicate Apart(e: Evaluator, f: Evaluator)
    reads e.webhooks, f.webhooks
  {
    Refs(e) !! Refs(f)
  }

  /** `c` is a copy of `e` that holds exactly the objects `refs`. */
  ghost predicate CopyOf(e: Evaluator, c: Evaluator, refs: set<object>)
    reads e.patterns, c.patterns, e.webhooks, c.webhooks, Headers(e.webhooks), Headers(c.webhooks), e.routes, c.routes
  {
    SameEvaluator(e, c) && OwnHeaders(c.webhooks) && Refs(c) == refs
  }

  /** A copy made now has nothing in common with anything that was there before. */
  method CopyBeside(e: Evaluator, ghost others: set<object>) returns (c: Evaluator, ghost refs: set<object>)
    ensures CopyOf(e, c, refs) && fresh(refs) && refs !! others
  {
    c := CopyEvaluator(e);
    refs := Refs(c);
  }

  /** The loop over the elements, before they are placed in the slice that was made for them. */
  method CopyElements(a: array<Evaluator>) returns (cs: seq<Evaluator>)
    ensures |cs| == a.Length
    ensures forall i :: 0 <= i < |cs| ==> SameEvaluator(a[i], cs[i])
    ensures forall i :: 0 <= i < |cs| ==> fresh(Refs(cs[i])) && OwnHeaders(cs[i].webhooks)
    ensures forall i, j :: 0 <= i < j < |cs| ==> Apart(cs[i], cs[j])
  {
    cs := [];
    ghost var refs: seq<set<object>>, all: set<object> := [], {};
    for i := 0 to a.Length
      invariant |cs| == |refs| == i
      invariant forall j :: 0 <= j < i ==> CopyOf(a[j], cs[j], refs[j])
      invariant forall j :: 0 <= j < i ==> refs[j] <= all
      invariant fresh(all)
      invariant forall j, k :: 0 <= j < k < i ==> refs[j] !! refs[k]
    {
      var c; ghost var rs;
      c, rs := CopyBeside(a[i], all);
      cs, refs, all := cs + [c], refs + [rs], all + rs;
    }
    assert forall i, j :: 0 <= i < j < |cs| ==> refs[i] !! refs[j] ==> Apart(cs[i], cs[j]);
  }

  method CopyEvaluators(a: array?<Evaluator>) returns (out: array?<Evaluator>)
    ensures (out == null <==> a == null) && (out != null ==> fresh(out) && out.Length == a.Length)
    ensures out != null ==> forall i :: 0 <= i < out.Length ==> SameEvaluator(a[i], out[i])
    ensures out != null ==> forall i :: 0 <= i < out.Length ==> fresh(Refs(out[i])) && OwnHeaders(out[i].webhooks)
    ensures out != null ==> forall i, j :: 0 <= i < j < out.Length ==> Apart(out[i], out[j])
  {
    if a == null { return null; }
    var cs := CopyElements(a);
    out := new Evaluator[|cs|](i requires 0 <= i < |cs| => cs[i]);
    assert forall i :: 0 <= i < |cs| ==> out[i] == cs[i];
  }

  // ------------------------------------------------------------- whole specs

  /** The evaluator holds neither the list of webhooks nor any of its header tables. */
  ghost predicate HoldsNone(e: Evaluator, a: array?<Webhook>)
    reads e.webhooks, a
  {
    (a != null ==> a !in Refs(e)) && forall h :: h in Headers(a) ==> h !in Refs(e)
  }

  /** Nested twice over: a gateway's evaluators, their webhooks, and the gateway's own webhooks. */
  method CopyGateway(g: Gateway) returns (out: Gateway)
    ensures out == g.(routing := g.routing.(evaluators := out.routing.evaluators), webhooks := out.webhooks)
    ensures SameWebhooks(g.webhooks, out.webhooks) && OwnHeaders(out.webhooks)
    ensures (out.webhooks != null ==> fresh(out.webhooks)) && fresh(Headers(out.webhooks))
    ensures var a, b := g.routing.evaluators, out.routing.evaluators;
            && (b == null <==> a == null) && (b != null ==> fresh(b) && b.Length == a.Length)
            && (b != null ==> forall i :: 0 <= i < b.Length ==> SameEvaluator(a[i], b[i]))
            && (b != null ==> forall i :: 0 <= i < b.Length ==> fresh(Refs(b[i])) && OwnHeaders(b[i].webhooks))
            && (b != null ==> forall i, j :: 0 <= i < j < b.Length ==> Apart(b[i], b[j]))
            && (b != null ==> forall i :: 0 <= i < b.Length ==> HoldsNone(b[i], out.webhooks))
  {
    var evaluators := CopyEvaluators(g.routing.evaluators);
    var webhooks := CopyWebhooks(g.webhooks);
    out := g.(routing := g.routing.(evaluators := evaluators), webhooks := webhooks);
  }

  datatype Resources = Resources(requests: Table?<nat>, limits: Table?<nat>)

  datatype Lifecycle = Lifecycle(restartPolicy: string, hibernateAfterIdleMinutes: Cell?<int>, maxRuntime: string)

  datatype Workspace = Workspace(
    mode: string, storageSize: string, storageClassName: Cell?<string>, reclaimPolicy: string)

  datatype Model = Model(provider: string, name: string, fallback: Cell?<ModelFallbackSpec>)

  datatype A2A = A2A(
    enabled: bool, agentCardName: string, agentCardDescription: string, skills: array?<string>, port: int,
    peers: array?<A2APeer>, securityTokenSecret: string)

  datatype AgentStruct = AgentStruct(
    harness: HarnessSpec, identity: AgentIdentitySpec, skillSet: string, policy: string, channels: array?<string>,
    gateway: string, observability: string, telemetryCapture: TelemetryCaptureSpec, model: Model,
    resources: Resources, lifecycle: Lifecycle, workspace: Workspace, credentialsSecret: string, a2a: A2A)

  /** What shallow assignment copies: everything but the references. */
  predicate SameValues(s: AgentStruct, c: AgentStruct) {
    c == s.(channels := c.channels, model := s.model.(fallback := c.model.fallback), resources := c.resources,
            lifecycle := s.lifecycle.(hibernateAfterIdleMinutes := c.lifecycle.hibernateAfterIdleMinutes),
            workspace := s.workspace.(storageClassName := c.workspace.storageClassName),
            a2a := s.a2a.(skills := c.a2a.skills, peers := c.a2a.peers))
  }

  ghost predicate SameResources(r: Resources, c: Resources)
    reads r.requests, c.requests, r.limits, c.limits
  {
    SameTable(r.requests, c.requests) && SameTable(r.limits, c.limits)
  }

  ghost predicate SameA2A(a: A2A, c: A2A)
    reads a.skills, c.skills, a.peers, c.peers
  {
    SameSlice(a.skills, c.skills) && SameSlice(a.peers, c.peers)
  }

  ghost predicate SameCells(s: AgentStruct, c: AgentStruct)
    reads s.model.fallback, c.model.fallback
    reads s.lifecycle.hibernateAfterIdleMinutes, c.lifecycle.hibernateAfterIdleMinutes
    reads s.workspace.storageClassName, c.workspace.storageClassName
  {
    && SameCell(s.model.fallback, c.model.fallback)
    && SameCell(s.lifecycle.hibernateAfterIdleMinutes, c.lifecycle.hibernateAfterIdleMinutes)
    && SameCell(s.workspace.storageClassName, c.workspace.storageClassName)
  }

  /** The two string slices and the two resource tables of a spec are different objects. */
  predicate NoSharing(s: AgentStruct) {
    && (s.channels != null ==> s.channels != s.a2a.skills)
    && (s.resources.requests != null ==> s.resources.requests != s.resources.limits)
  }

  method CopyAgentSpec(s: AgentStruct) returns (out: AgentStruct)
    ensures SameValues(s, out) && SameSlice(s.channels, out.channels) && SameCells(s, out)
    ensures SameResources(s.resources, out.resources) && SameA2A(s.a2a, out.a2a) && NoSharing(out)
    ensures out.channels != null ==> fresh(out.channels)
    ensures out.model.fallback != null ==> fresh(out.model.fallback)
    ensures out.resources.requests != null ==> fresh(out.resources.requests)
    ensures out.resources.limits != null ==> fresh(out.resources.limits)
    ensures out.lifecycle.hibernateAfterIdleMinutes != null ==> fresh(out.lifecycle.hibernateAfterIdleMinutes)
    ensures out.workspace.storageClassName != null ==> fresh(out.workspace.storageClassName)
    ensures out.a2a.skills != null ==> fresh(out.a2a.skills)
    ensures out.a2a.peers != null ==> fresh(out.a2a.peers)
  {
    var channels := CopySlice(s.channels);
    var fallback := CopyCell(s.model.fallback);
    var requests := CopyTable(s.resources.requests);
    var limits := CopyTable(s.resources.limits);
    var hibernate := CopyCell(s.lifecycle.hibernateAfterIdleMinutes);
    var storageClass := CopyCell(s.workspace.storageClassName);
    var skills := CopySlice(s.a2a.skills);
    var peers := CopySlice(s.a2a.peers);
    out := s.(channels := channels, model := s.model.(fallback := fallback), resources := Resources(requests, limits),
              lifecycle := s.lifecycle.(hibernateAfterIdleMinutes := hibernate),
              workspace := s.workspace.(storageClassName := storageClass),
              a2a := s.a2a.(skills := skills, peers := peers));
  }
}
