/**
 The redaction proxy of the gateway server. The regular-expression engine is a search function
 with the contract of a leftmost scanner; patterns, the log, and the rebuilt text are followed
 exactly, replacements being taken literally. Lists of messages may see a different pattern
 list at every text, because another request can replace the list in between.
 */
module Redaction {
  import opened Prelude

  datatype Match = Match(start: nat, end: nat)

  /** `search(text, pos, advance)` is the next match from `pos`; with `advance` it may not be empty there. */
  type Search = (string, nat, bool) -> Option<Match>

  datatype Pattern = Pattern(source: string, replacement: string, search: Search)

  ghost predicate Scans(p: Pattern) {
    forall text: string, pos: nat, advance: bool ::
      pos <= |text| ==> MatchOk(p.search(text, pos, advance), |text|, pos, advance)
  }

  predicate MatchOk(m: Option<Match>, size: nat, pos: nat, advance: bool) {
    m.Some? ==> pos <= m.value.start <= m.value.end <= size && (advance ==> m.value.end > pos)
  }

  datatype Redaction = Redaction(original: string, replacement: string, pattern: string)

  // --------------------------------------------------------------- one pattern

  /** finditer: non-overlapping matches, left to right; after an empty match the next one must advance. */
  ghost function Matches(p: Pattern, text: string, pos: nat, advance: bool): (ms: seq<Match>)
    requires Scans(p) && pos <= |text|
    decreases |text| - pos, if advance then 0 else 1
  {
    var m := p.search(text, pos, advance);
    assert MatchOk(m, |text|, pos, advance);
    if m.None? then [] else [m.value] + Matches(p, text, m.value.end, m.value.start == m.value.end)
  }

  /** sub: the text from `pos` on with every match replaced. */
  ghost function Substituted(p: Pattern, text: string, pos: nat, advance: bool): (r: string)
    requires Scans(p) && pos <= |text|
    decreases |text| - pos, if advance then 0 else 1
  {
    var m := p.search(text, pos, advance);
    assert MatchOk(m, |text|, pos, advance);
    if m.None? then text[pos..]
    else text[pos..m.value.start] + p.replacement + Substituted(p, text, m.value.end, m.value.start == m.value.end)
  }

  predicate WithinText(text: string, ms: seq<Match>) {
    forall i :: 0 <= i < |ms| ==> ms[i].start <= ms[i].end <= |text|
  }

  function Logged(p: Pattern, text: string, ms: seq<Match>): (log: seq<Redaction>)
    requires WithinText(text, ms)
  {
    seq(|ms|, i requires 0 <= i < |ms| => Redaction(text[ms[i].start..ms[i].end], p.replacement, p.source))
  }

  /** The matches lie inside the text, in order and without overlap. */
  lemma {:induction false} MatchesOrdered(p: Pattern, text: string, pos: nat, advance: bool)
    requires Scans(p) && pos <= |text|
    ensures var ms := Matches(p, text, pos, advance);
            && WithinText(text, ms)
            && (forall i :: 0 <= i < |ms| ==> pos <= ms[i].start)
            && (forall i, j :: 0 <= i < j < |ms| ==> ms[i].end <= ms[j].start)
    decreases |text| - pos, if advance then 0 else 1
  {
    var m := p.search(text, pos, advance);
    assert MatchOk(m, |text|, pos, advance);
    if m.Some? { MatchesOrdered(p, text, m.value.end, m.value.start == m.value.end); }
  }

  /** The finditer loop of redact: one log entry per match. */
  method CollectMatches(p: Pattern, text: string) returns (log: seq<Redaction>)
    requires Scans(p)
    ensures WithinText(text, Matches(p, text, 0, false))
    ensures log == Logged(p, text, Matches(p, text, 0, false))
  {
    MatchesOrdered(p, text, 0, false);
    ghost var all := Matches(p, text, 0, false);
    log := [];
    var pos, advance := 0, false;
    var m := p.search(text, pos, advance);
    assert MatchOk(m, |text|, pos, advance);
    while m.Some?
      invariant pos <= |text| && m == p.search(text, pos, advance) && MatchOk(m, |text|, pos, advance)
      invariant |log| <= |all| && all[|log|..] == Matches(p, text, pos, advance)
      invariant log == Logged(p, text, all)[..|log|]
      decreases |text| - pos, if advance then 0 else 1
    {
      assert all[|log|] == m.value;
      assert all[|log| + 1..] == all[|log|..][1..];
      log := log + [Redaction(text[m.value.start..m.value.end], p.replacement, p.source)];
      pos, advance := m.value.end, m.value.start == m.value.end;
      m := p.search(text, pos, advance);
      assert MatchOk(m, |text|, pos, advance);
    }
  }

  /** The scan behind pattern.sub. */
  method Substitute(p: Pattern, text: string) returns (out: string)
    requires Scans(p)
    ensures out == Substituted(p, text, 0, false)
  {
    out := "";
    var pos, advance := 0, false;
    var m := p.search(text, pos, advance);
    assert MatchOk(m, |text|, pos, advance);
    while m.Some?
      invariant pos <= |text| && m == p.search(text, pos, advance) && MatchOk(m, |text|, pos, advance)
      invariant out + Substituted(p, text, pos, advance) == Substituted(p, text, 0, false)
      decreases |text| - pos, if advance then 0 else 1
    {
      ghost var rest := Substituted(p, text, m.value.end, m.value.start == m.value.end);
      assert out + (text[pos..m.value.start] + p.replacement + rest)
        == (out + text[pos..m.value.start] + p.replacement) + rest;
      out := out + text[pos..m.value.start] + p.replacement;
      pos, advance := m.value.end, m.value.start == m.value.end;
      m := p.search(text, pos, advance);
      assert MatchOk(m, |text|, pos, advance);
    }
    out := out + text[pos..];
  }

  // ------------------------------------------------- nothing lost between matches

  /** The stretches of text around the matches. */
  ghost function Gaps(text: string, pos: nat, ms: seq<Match>): (gaps: seq<string>)
    requires pos <= |text| && WithinText(text, ms)
    requires ms != [] ==> pos <= ms[0].start
    requires forall i, j :: 0 <= i < j < |ms| ==> ms[i].end <= ms[j].start
    ensures |gaps| == |ms| + 1
    decreases |ms|
  {
    if ms == [] then [text[pos..]]
    else [text[pos..ms[0].start]] + Gaps(text, ms[0].end, ms[1..])
  }

  /** Gap, filling, gap, filling, ..., gap. */
  function Woven(gaps: seq<string>, fillings: seq<string>): string
    requires |gaps| == |fillings| + 1
  {
    if fillings == [] then gaps[0] else gaps[0] + fillings[0] + Woven(gaps[1..], fillings[1..])
  }

  function Originals(log: seq<Redaction>): (r: seq<string>) {
    seq(|log|, i requires 0 <= i < |log| => log[i].original)
  }

  function Replacements(log: seq<Redaction>): (r: seq<string>) {
    seq(|log|, i requires 0 <= i < |log| => log[i].replacement)
  }

  predicate Ordered(text: string, pos: nat, ms: seq<Match>) {
    && pos <= |text| && WithinText(text, ms)
    && (forall i :: 0 <= i < |ms| ==> pos <= ms[i].start)
    && (forall i, j :: 0 <= i < j < |ms| ==> ms[i].end <= ms[j].start)
  }

  lemma {:induction false} WeaveOriginals(p: Pattern, text: string, pos: nat, ms: seq<Match>)
    requires Ordered(text, pos, ms)
    ensures Woven(Gaps(text, pos, ms), Originals(Logged(p, text, ms))) == text[pos..]
    decreases |ms|
  {
    if ms != [] {
      WeaveOriginals(p, text, ms[0].end, ms[1..]);
      assert Originals(Logged(p, text, ms))[1..] == Originals(Logged(p, text, ms[1..]));
      assert text[pos..] == text[pos..ms[0].start] + text[ms[0].start..ms[0].end] + text[ms[0].end..];
    }
  }

  function Filled(ms: seq<Match>, replacement: string): (r: seq<string>) {
    seq(|ms|, i requires 0 <= i < |ms| => replacement)
  }

  lemma {:induction false} WeaveReplacements(p: Pattern, text: string, pos: nat, advance: bool)
    requires Scans(p) && pos <= |text| && Ordered(text, pos, Matches(p, text, pos, advance))
    ensures var ms := Matches(p, text, pos, advance);
            Woven(Gaps(text, pos, ms), Filled(ms, p.replacement)) == Substituted(p, text, pos, advance)
    decreases |text| - pos, if advance then 0 else 1
  {
    var ms := Matches(p, text, pos, advance);
    var m := p.search(text, pos, advance);
    assert MatchOk(m, |text|, pos, advance);
    if m.Some? {
      MatchesOrdered(p, text, m.value.end, m.value.start == m.value.end);
      WeaveReplacements(p, text, m.value.end, m.value.start == m.value.end);
      assert ms[0] == m.value && ms[1..] == Matches(p, text, m.value.end, m.value.start == m.value.end);
      assert Filled(ms, p.replacement)[1..] == Filled(ms[1..], p.replacement);
    }
  }

  /**
   One pattern's pass is reversible from its log: input and output are the same gaps woven
   with the originals and with the replacements.
   */
  ghost predicate Reversible(text: string, out: string, log: seq<Redaction>) {
    exists gaps :: |gaps| == |log| + 1 && Woven(gaps, Originals(log)) == text && Woven(gaps, Replacements(log)) == out
  }

  function Total(ss: seq<string>): nat { if ss == [] then 0 else |ss[0]| + Total(ss[1..]) }

  lemma {:induction false} WovenLength(gaps: seq<string>, fillings: seq<string>)
    requires |gaps| == |fillings| + 1
    ensures |Woven(gaps, fillings)| == Total(gaps) + Total(fillings)
  {
    if fillings == [] {
      assert gaps[1..] == [];
    } else {
      WovenLength(gaps[1..], fillings[1..]);
    }
  }

  lemma {:induction false} TotalConcat(a: seq<string>, b: seq<string>)
    ensures Total(a + b) == Total(a) + Total(b)
  {
    if a == [] {
      assert a + b == b;
    } else {
      assert (a + b)[1..] == a[1..] + b;
      TotalConcat(a[1..], b);
    }
  }

  /** Length is conserved between a text and what the log says was done to it. */
  predicate Conserved(before: nat, after: nat, log: seq<Redaction>) {
    after + Total(Originals(log)) == before + Total(Replacements(log))
  }

  lemma ReversibleConserves(text: string, out: string, log: seq<Redaction>)
    requires Reversible(text, out, log)
    ensures Conserved(|text|, |out|, log)
    ensures log == [] ==> out == text
  {
    var gaps :| |gaps| == |log| + 1 && Woven(gaps, Originals(log)) == text && Woven(gaps, Replacements(log)) == out;
    WovenLength(gaps, Originals(log));
    WovenLength(gaps, Replacements(log));
  }

  lemma ConservedConcat(a: nat, b: nat, c: nat, log: seq<Redaction>, more: seq<Redaction>)
    requires Conserved(a, b, log) && Conserved(b, c, more)
    ensures Conserved(a, c, log + more)
  {
    assert Originals(log + more) == Originals(log) + Originals(more);
    assert Replacements(log + more) == Replacements(log) + Replacements(more);
    TotalConcat(Originals(log), Originals(more));
    TotalConcat(Replacements(log), Replacements(more));
  }

  lemma ConservedBeside(a: nat, b: nat, log: seq<Redaction>, c: nat, d: nat, more: seq<Redaction>)
    requires Conserved(a, b, log) && Conserved(c, d, more)
    ensures Conserved(a + c, b + d, log + more)
  {
    assert Originals(log + more) == Originals(log) + Originals(more);
    assert Replacements(log + more) == Replacements(log) + Replacements(more);
    TotalConcat(Originals(log), Originals(more));
    TotalConcat(Replacements(log), Replacements(more));
  }

  // ----------------------------------------------------------------- one text

  ghost predicate AllScan(patterns: seq<Pattern>) { forall i :: 0 <= i < |patterns| ==> Scans(patterns[i]) }

  datatype Redacted = Redacted(text: string, log: seq<Redaction>)

  ghost function Pass(p: Pattern, text: string): Redacted
    requires Scans(p)
  {
    MatchesOrdered(p, text, 0, false);
    Redacted(Substituted(p, text, 0, false), Logged(p, text, Matches(p, text, 0, false)))
  }

  /** Patterns are applied in list order, each to the text the previous ones left. */
  ghost function RedactedBy(patterns: seq<Pattern>, text: string): Redacted
    requires AllScan(patterns)
  {
    if patterns == [] then Redacted(text, [])
    else
      var before := RedactedBy(patterns[..|patterns| - 1], text);
      var pass := Pass(patterns[|patterns| - 1], before.text);
      Redacted(pass.text, before.log + pass.log)
  }

  /** redact, on the pattern list it copied under the lock. */
  method Redact(patterns: seq<Pattern>, text: string) returns (r: Redacted)
    requires AllScan(patterns)
    ensures r == RedactedBy(patterns, text)
    ensures Conserved(|text|, |r.text|, r.log)
    ensures r.log == [] ==> r.text == text
  {
    var current, redactions := text, [];
    for i := 0 to |patterns|
      invariant Redacted(current, redactions) == RedactedBy(patterns[..i], text)
    {
      assert patterns[..i + 1][..i] == patterns[..i];
      var log := CollectMatches(patterns[i], current);
      redactions := redactions + log;
      current := Substitute(patterns[i], current);
    }
    assert patterns[..|patterns|] == patterns;
    r := Redacted(current, redactions);
    RedactConserves(patterns, text);
  }

  lemma PassReversible(p: Pattern, text: string)
    requires Scans(p)
    ensures var r := Pass(p, text); Reversible(text, r.text, r.log)
  {
    MatchesOrdered(p, text, 0, false);
    var ms := Matches(p, text, 0, false);
    WeaveOriginals(p, text, 0, ms);
    WeaveReplacements(p, text, 0, false);
    var gaps, log := Gaps(text, 0, ms), Logged(p, text, ms);
    assert Replacements(log) == Filled(ms, p.replacement);
    assert text[0..] == text;
  }

  /** Redaction of a text conserves length, and an empty log means an unchanged text. */
  lemma {:induction false} RedactConserves(patterns: seq<Pattern>, text: string)
    requires AllScan(patterns)
    ensures var r := RedactedBy(patterns, text); Conserved(|text|, |r.text|, r.log) && (r.log == [] ==> r.text == text)
  {
    if patterns != [] {
      var init, p := patterns[..|patterns| - 1], patterns[|patterns| - 1];
      RedactConserves(init, text);
      var before := RedactedBy(init, text);
      PassReversible(p, before.text);
      var pass := Pass(p, before.text);
      ReversibleConserves(before.text, pass.text, pass.log);
      ConservedConcat(|text|, |before.text|, |pass.text|, before.log, pass.log);
    }
  }

  // ------------------------------------------------------------------ messages

  /** A content block; a text block may come without its text. */
  datatype Block = TextBlock(text: Option<string>, rest: string) | OtherBlock(payload: string)

  datatype Content = Absent | Plain(text: string) | Blocks(blocks: seq<Block>) | Opaque(payload: string)

  datatype Message = Message(role: Option<string>, content: Content, rest: string)

  const USER_ROLE := "user"

  predicate FromUser(m: Message) { m.role == Some(USER_ROLE) }

  function OrEmpty(t: Option<string>): string { if t.Some? then t.value else "" }

  /** The pattern list each successive redact call copies; other requests may change it in between. */
  type Plan = nat -> seq<Pattern>

  ghost predicate PlanScans(plan: Plan) { forall k :: AllScan(plan(k)) }

  function BlockSize(b: Block): nat { if b.TextBlock? then |OrEmpty(b.text)| else 0 }

  function BlocksSize(bs: seq<Block>): nat {
    if bs == [] then 0 else BlocksSize(bs[..|bs| - 1]) + BlockSize(bs[|bs| - 1])
  }

  /** Characters of a message that redaction may touch. */
  function Size(m: Message): nat {
    if !FromUser(m) then 0
    else match m.content
      case Plain(text) => |text|
      case Blocks(blocks) => BlocksSize(blocks)
      case _ => 0
  }

  function Sizes(ms: seq<Message>): nat { if ms == [] then 0 else Sizes(ms[..|ms| - 1]) + Size(ms[|ms| - 1]) }

  /** Only the text of a text block may differ. */
  predicate SameBlockShape(b: Block, c: Block) {
    if b.TextBlock? then c.TextBlock? && c.rest == b.rest && c.text.Some? else c == b
  }

  predicate SameBlockShapes(bs: seq<Block>, cs: seq<Block>) {
    |cs| == |bs| && forall i :: 0 <= i < |bs| ==> SameBlockShape(bs[i], cs[i])
  }

  /** Only the text inside a user message may differ. */
  predicate SameShape(m: Message, c: Message) {
    if !FromUser(m) then c == m
    else
      && c.role == m.role && c.rest == m.rest
      && match m.content
         case Blocks(blocks) =>
           c.content.Blocks? && SameBlockShapes(blocks, c.content.blocks)
         case Opaque(_) => c == m
         case _ => c.content.Plain?
  }

  /** A user message carries its content, and its text blocks their text. */
  predicate Complete(m: Message) {
    FromUser(m) ==>
      !m.content.Absent?
      && (m.content.Blocks? ==> forall i :: 0 <= i < |m.content.blocks| ==> m.content.blocks[i].TextBlock? ==>
        m.content.blocks[i].text.Some?)
  }

  /** A message whose missing texts are the empty text. */
  function FilledBlock(b: Block): Block { if b.TextBlock? then b.(text := Some(OrEmpty(b.text))) else b }

  function FilledBlocks(bs: seq<Block>): (r: seq<Block>) {
    seq(|bs|, i requires 0 <= i < |bs| => FilledBlock(bs[i]))
  }

  function FilledMessage(m: Message): Message {
    if !FromUser(m) then m
    else match m.content
      case Absent => m.(content := Plain(""))
      case Blocks(blocks) => m.(content := Blocks(FilledBlocks(blocks)))
      case _ => m
  }

  lemma FilledBlocksExactly(bs: seq<Block>)
    ensures FilledBlocks(bs) == bs <==> forall i :: 0 <= i < |bs| ==> bs[i].TextBlock? ==> bs[i].text.Some?
  {
    forall i | 0 <= i < |bs| ensures FilledBlocks(bs)[i] == bs[i] <==> (bs[i].TextBlock? ==> bs[i].text.Some?) {}
    if forall i :: 0 <= i < |bs| ==> bs[i].TextBlock? ==> bs[i].text.Some? {
      assert forall i :: 0 <= i < |bs| ==> FilledBlocks(bs)[i] == bs[i];
    }
  }

  lemma FilledExactly(m: Message)
    ensures FilledMessage(m) == m <==> Complete(m)
  {
    if m.content.Blocks? { FilledBlocksExactly(m.content.blocks); }
  }

  // Which texts are redacted, with which pattern list, and where the log entries go.

  ghost function BlockResult(plan: Plan, k: nat, b: Block): (Block, seq<Redaction>, nat)
    requires PlanScans(plan)
  {
    if b.TextBlock? then
      assert AllScan(plan(k));
      var r := RedactedBy(plan(k), OrEmpty(b.text));
      (b.(text := Some(r.text)), r.log, k + 1)
    else (b, [], k)
  }

  ghost function BlocksResult(plan: Plan, k: nat, bs: seq<Block>): (seq<Block>, seq<Redaction>, nat)
    requires PlanScans(plan)
  {
    if bs == [] then ([], [], k)
    else
      var (cleaned, log, k1) := BlocksResult(plan, k, bs[..|bs| - 1]);
      var (c, more, k2) := BlockResult(plan, k1, bs[|bs| - 1]);
      (cleaned + [c], log + more, k2)
  }

  ghost function MessageResult(plan: Plan, k: nat, m: Message): (Message, seq<Redaction>, nat)
    requires PlanScans(plan)
  {
    assert AllScan(plan(k));
    if !FromUser(m) || m.content.Opaque? then (m, [], k)
    else if m.content.Blocks? then
      var (cleaned, log, k') := BlocksResult(plan, k, m.content.blocks);
      (m.(content := Blocks(cleaned)), log, k')
    else
      var r := RedactedBy(plan(k), if m.content.Plain? then m.content.text else "");
      (m.(content := Plain(r.text)), r.log, k + 1)
  }

  ghost function MessagesResult(plan: Plan, ms: seq<Message>): (seq<Message>, seq<Redaction>, nat)
    requires PlanScans(plan)
  {
    if ms == [] then ([], [], 0)
    else
      var (cleaned, log, k1) := MessagesResult(plan, ms[..|ms| - 1]);
      var (c, more, k2) := MessageResult(plan, k1, ms[|ms| - 1]);
      (cleaned + [c], log + more, k2)
  }

  method RedactBlock(plan: Plan, k: nat, b: Block) returns (c: Block, log: seq<Redaction>, k': nat)
    requires PlanScans(plan)
    ensures (c, log, k') == BlockResult(plan, k, b)
  {
    c, log, k' := b, [], k;
    if b.TextBlock? {
      assert AllScan(plan(k));
      var r := Redact(plan(k), OrEmpty(b.text));
      return b.(text := Some(r.text)), r.log, k + 1;
    }
  }

  /** The block loop of redact_messages. */
  method RedactBlocks(plan: Plan, k: nat, blocks: seq<Block>)
    returns (cleaned: seq<Block>, log: seq<Redaction>, k': nat)
    requires PlanScans(plan)
    ensures (cleaned, log, k') == BlocksResult(plan, k, blocks)
  {
    cleaned, log, k' := [], [], k;
    for i := 0 to |blocks|
      invariant (cleaned, log, k') == BlocksResult(plan, k, blocks[..i])
    {
      assert blocks[..i + 1][..i] == blocks[..i];
      var c, more;
      c, more, k' := RedactBlock(plan, k', blocks[i]);
      cleaned := cleaned + [c];
      log := log + more;
    }
    assert blocks[..|blocks|] == blocks;
  }

  method RedactMessage(plan: Plan, k: nat, m: Message) returns (c: Message, log: seq<Redaction>, k': nat)
    requires PlanScans(plan)
    ensures (c, log, k') == MessageResult(plan, k, m)
  {
    c, log, k' := m, [], k;
    if m.role == Some(USER_ROLE) {
      assert AllScan(plan(k));
      match m.content {
        case Blocks(blocks) =>
          var cleaned;
          cleaned, log, k' := RedactBlocks(plan, k, blocks);
          c := m.(content := Blocks(cleaned));
        case Absent =>
          c, log, k' := RedactText(plan, k, m, "");
        case Plain(text) =>
          c, log, k' := RedactText(plan, k, m, text);
        case Opaque(_) =>
      }
    }
  }

  /** A string content, the empty one when the key is absent. */
  method RedactText(plan: Plan, k: nat, m: Message, text: string) returns (c: Message, log: seq<Redaction>, k': nat)
    requires PlanScans(plan) && AllScan(plan(k))
    ensures var r := RedactedBy(plan(k), text); (c, log, k') == (m.(content := Plain(r.text)), r.log, k + 1)
  {
    var r := Redact(plan(k), text);
    return m.(content := Plain(r.text)), r.log, k + 1;
  }

  lemma BlockFacts(plan: Plan, k: nat, b: Block)
    requires PlanScans(plan)
    ensures var (c, log, _) := BlockResult(plan, k, b);
            SameBlockShape(b, c) && Conserved(BlockSize(b), BlockSize(c), log) && (log == [] ==> c == FilledBlock(b))
  {
    assert AllScan(plan(k));
    if b.TextBlock? { RedactConserves(plan(k), OrEmpty(b.text)); }
  }

  lemma BlockShapesSnoc(bs: seq<Block>, cs: seq<Block>, b: Block, c: Block)
    requires SameBlockShapes(bs, cs) && SameBlockShape(b, c)
    ensures SameBlockShapes(bs + [b], cs + [c])
  {
  }

  lemma FilledBlocksSnoc(bs: seq<Block>, b: Block)
    ensures FilledBlocks(bs + [b]) == FilledBlocks(bs) + [FilledBlock(b)]
  {
  }

  lemma {:induction false} BlocksShape(plan: Plan, k: nat, bs: seq<Block>)
    requires PlanScans(plan)
    ensures SameBlockShapes(bs, BlocksResult(plan, k, bs).0)
  {
    if bs != [] {
      var init, b := bs[..|bs| - 1], bs[|bs| - 1];
      BlocksShape(plan, k, init);
      var (cleaned, _, k1) := BlocksResult(plan, k, init);
      BlockFacts(plan, k1, b);
      BlockShapesSnoc(init, cleaned, b, BlockResult(plan, k1, b).0);
      assert init + [b] == bs;
    }
  }

  lemma {:induction false} BlocksFilled(plan: Plan, k: nat, bs: seq<Block>)
    requires PlanScans(plan)
    ensures var (cs, log, _) := BlocksResult(plan, k, bs); log == [] ==> cs == FilledBlocks(bs)
  {
    if bs != [] {
      var init, b := bs[..|bs| - 1], bs[|bs| - 1];
      BlocksFilled(plan, k, init);
      BlockFacts(plan, BlocksResult(plan, k, init).2, b);
      FilledBlocksSnoc(init, b);
      assert init + [b] == bs;
    }
  }

  lemma BlocksSizeSnoc(bs: seq<Block>, b: Block)
    ensures BlocksSize(bs + [b]) == BlocksSize(bs) + BlockSize(b)
  {
    assert (bs + [b])[..|bs + [b]| - 1] == bs;
  }

  lemma {:induction false} BlocksConserved(plan: Plan, k: nat, bs: seq<Block>)
    requires PlanScans(plan)
    ensures var (cs, log, _) := BlocksResult(plan, k, bs); Conserved(BlocksSize(bs), BlocksSize(cs), log)
  {
    if bs != [] {
      var init, b := bs[..|bs| - 1], bs[|bs| - 1];
      BlocksConserved(plan, k, init);
      var (cleaned, log, k1) := BlocksResult(plan, k, init);
      BlockFacts(plan, k1, b);
      var (c, more, _) := BlockResult(plan, k1, b);
      BlocksSizeSnoc(cleaned, c);
      ConservedBeside(BlocksSize(init), BlocksSize(cleaned), log, BlockSize(b), BlockSize(c), more);
    }
  }

  lemma MessageShape(plan: Plan, k: nat, m: Message)
    requires PlanScans(plan)
    ensures var (c, log, _) := MessageResult(plan, k, m); SameShape(m, c) && (log == [] ==> c == FilledMessage(m))
  {
    assert AllScan(plan(k));
    if m.content.Blocks? {
      BlocksShape(plan, k, m.content.blocks);
      BlocksFilled(plan, k, m.content.blocks);
    }
    RedactConserves(plan(k), if m.content.Plain? then m.content.text else "");
  }

  lemma MessageConserved(plan: Plan, k: nat, m: Message)
    requires PlanScans(plan)
    ensures var (c, log, _) := MessageResult(plan, k, m); Conserved(Size(m), Size(c), log)
  {
    assert AllScan(plan(k));
    if m.content.Blocks? { BlocksConserved(plan, k, m.content.blocks); }
    RedactConserves(plan(k), if m.content.Plain? then m.content.text else "");
  }

  function FilledMessages(ms: seq<Message>): (r: seq<Message>) {
    seq(|ms|, i requires 0 <= i < |ms| => FilledMessage(ms[i]))
  }

  predicate SameShapes(ms: seq<Message>, cs: seq<Message>) {
    |cs| == |ms| && forall i :: 0 <= i < |ms| ==> SameShape(ms[i], cs[i])
  }

  lemma ShapesSnoc(ms: seq<Message>, cs: seq<Message>, m: Message, c: Message)
    requires SameShapes(ms, cs) && SameShape(m, c)
    ensures SameShapes(ms + [m], cs + [c])
  {
  }

  lemma FilledSnoc(ms: seq<Message>, m: Message)
    ensures FilledMessages(ms + [m]) == FilledMessages(ms) + [FilledMessage(m)]
  {
  }

  lemma {:induction false} MessagesShape(plan: Plan, ms: seq<Message>)
    requires PlanScans(plan)
    ensures SameShapes(ms, MessagesResult(plan, ms).0)
  {
    if ms != [] {
      var init, m := ms[..|ms| - 1], ms[|ms| - 1];
      MessagesShape(plan, init);
      var (cleaned, _, k1) := MessagesResult(plan, init);
      MessageShape(plan, k1, m);
      ShapesSnoc(init, cleaned, m, MessageResult(plan, k1, m).0);
      assert init + [m] == ms;
    }
  }

  lemma {:induction false} MessagesFilled(plan: Plan, ms: seq<Message>)
    requires PlanScans(plan)
    ensures var (cs, log, _) := MessagesResult(plan, ms); log == [] ==> cs == FilledMessages(ms)
  {
    if ms != [] {
      var init, m := ms[..|ms| - 1], ms[|ms| - 1];
      MessagesFilled(plan, init);
      MessageShape(plan, MessagesResult(plan, init).2, m);
      FilledSnoc(init, m);
      assert init + [m] == ms;
    }
  }

  lemma {:induction false} MessagesConserved(plan: Plan, ms: seq<Message>)
    requires PlanScans(plan)
    ensures var (cs, log, _) := MessagesResult(plan, ms); Conserved(Sizes(ms), Sizes(cs), log)
  {
    if ms != [] {
      var init, m := ms[..|ms| - 1], ms[|ms| - 1];
      MessagesConserved(plan, init);
      var (cleaned, log, k1) := MessagesResult(plan, init);
      MessageConserved(plan, k1, m);
      var (c, more, _) := MessageResult(plan, k1, m);
      assert (cleaned + [c])[..|cleaned|] == cleaned;
      ConservedBeside(Sizes(init), Sizes(cleaned), log, Size(m), Size(c), more);
    }
  }

  /**
   redact_messages, for every message list, every pattern list and every replacement of the
   list between texts: messages keep their number, order, roles and non-text parts, other
   messages are untouched, the length of all user text is conserved against the log, and with an
   empty log the output is the input iff no user message or text block lacks its text.
   */
  method RedactMessages(plan: Plan, messages: seq<Message>) returns (cleaned: seq<Message>, log: seq<Redaction>)
    requires PlanScans(plan)
    ensures MessagesResult(plan, messages).0 == cleaned && MessagesResult(plan, messages).1 == log
    ensures SameShapes(messages, cleaned)
    ensures Conserved(Sizes(messages), Sizes(cleaned), log)
    ensures log == [] ==> (cleaned == messages <==> forall i :: 0 <= i < |messages| ==> Complete(messages[i]))
  {
    cleaned, log := [], [];
    var k := 0;
    for i := 0 to |messages|
      invariant (cleaned, log, k) == MessagesResult(plan, messages[..i])
    {
      assert messages[..i + 1][..i] == messages[..i];
      var c, more;
      c, more, k := RedactMessage(plan, k, messages[i]);
      cleaned := cleaned + [c];
      log := log + more;
    }
    assert messages[..|messages|] == messages;
    MessagesShape(plan, messages);
    MessagesFilled(plan, messages);
    MessagesConserved(plan, messages);
    AllFilled(messages);
  }

  lemma AllFilled(ms: seq<Message>)
    ensures FilledMessages(ms) == ms <==> forall i :: 0 <= i < |ms| ==> Complete(ms[i])
  {
    forall i | 0 <= i < |ms| ensures FilledMessages(ms)[i] == ms[i] <==> Complete(ms[i]) {
      FilledExactly(ms[i]);
    }
    if forall i :: 0 <= i < |ms| ==> Complete(ms[i]) {
      assert forall i :: 0 <= i < |ms| ==> FilledMessages(ms)[i] == ms[i];
    }
  }

  // ------------------------------------------------------------- pattern updates

  datatype PatternEntry = PatternEntry(source: string, replacement: Option<string>)

  const DEFAULT_REPLACEMENT := "[REDACTED]"

  /** The compiled form of an entry, none when the engine rejects its source. */
  function CompiledEntry(engine: string -> Option<Search>, e: PatternEntry): seq<Pattern> {
    match engine(e.source)
    case None => []
    case Some(search) => [Pattern(e.source, if e.replacement.Some?
      then e.replacement.value else DEFAULT_REPLACEMENT, search)]
  }

  function CompiledAll(engine: string -> Option<Search>, raw: seq<PatternEntry>): seq<Pattern> {
    if raw == [] then []
    else CompiledAll(engine, raw[..|raw| - 1]) + CompiledEntry(engine, raw[|raw| - 1])
  }

  ghost predicate EngineScans(engine: string -> Option<Search>) {
    forall source: string, replacement: string ::
      engine(source).Some? ==> Scans(Pattern(source, replacement, engine(source).value))
  }

  /** Whatever is pushed, the list that redact copies afterwards is one it can scan with. */
  lemma {:induction false} CompiledScans(engine: string -> Option<Search>, raw: seq<PatternEntry>)
    requires EngineScans(engine)
    ensures AllScan(CompiledAll(engine, raw)) && |CompiledAll(engine, raw)| <= |raw|
  {
    if raw != [] { CompiledScans(engine, raw[..|raw| - 1]); }
  }

  /** The server's pattern list; every access is one critical section. */
  class PatternStore {
    var patterns: seq<Pattern>

    constructor ()
      ensures patterns == []
    {
      patterns := [];
    }

    /** update_patterns: bad sources are dropped, the rest replaces the list at once. */
    method Update(engine: string -> Option<Search>, raw: seq<PatternEntry>) returns (count: nat)
      requires EngineScans(engine)
      modifies this
      ensures patterns == CompiledAll(engine, raw) && count == |patterns| && AllScan(patterns)
    {
      var compiled: seq<Pattern> := [];
      for i := 0 to |raw|
        invariant compiled == CompiledAll(engine, raw[..i])
      {
        assert raw[..i + 1][..i] == raw[..i];
        var search := engine(raw[i].source);
        if search.Some? {
          var replacement := DEFAULT_REPLACEMENT;
          if raw[i].replacement.Some? { replacement := raw[i].replacement.value; }
          compiled := compiled + [Pattern(raw[i].source, replacement, search.value)];
        }
      }
      assert raw[..|raw|] == raw;
      patterns := compiled;
      CompiledScans(engine, raw);
      return |compiled|;
    }
  }
}
