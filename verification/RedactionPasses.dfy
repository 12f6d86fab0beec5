/**
 That redaction misses nothing: each pattern's pass is a chain of searches that goes on until the
 engine finds no more, the log has one entry for each find, and every text of every user message
 goes through one such pass per pattern, in list order.
 */
module RedactionPasses {
  import opened Prelude
  import opened Redaction

  // ------------------------------------------------------------------- one pass

  /** The engine's own answers: each match is the next one found, and after the last there is none. */
  ghost predicate Found(p: Pattern, text: string, ms: seq<Match>) {
    && (ms == [] ==> p.search(text, 0, false) == None)
    && (ms != [] ==>
          && p.search(text, 0, false) == Some(ms[0])
          && p.search(text, ms[|ms| - 1].end, ms[|ms| - 1].start == ms[|ms| - 1].end) == None)
    && forall i :: 0 <= i < |ms| - 1 ==> p.search(text, ms[i].end, ms[i].start == ms[i].end) == Some(ms[i + 1])
  }

  predicate InOrder(text: string, ms: seq<Match>) {
    && (forall i :: 0 <= i < |ms| ==> ms[i].start <= ms[i].end <= |text|)
    && (forall i :: 0 <= i < |ms| - 1 ==> ms[i].end <= ms[i + 1].start)
  }

  /** The text before match `i`, after the last one when `i` is their number. */
  function GapAt(text: string, ms: seq<Match>, i: nat): string
    requires InOrder(text, ms) && i <= |ms|
  {
    if i == 0 then text[..if ms == [] then |text| else ms[0].start]
    else text[ms[i - 1].end..if i == |ms| then |text| else ms[i].start]
  }

  function GapsOf(text: string, ms: seq<Match>): (gaps: seq<string>)
    requires InOrder(text, ms)
  {
    seq(|ms| + 1, i requires 0 <= i < |ms| + 1 => GapAt(text, ms, i))
  }

  /**
   A complete pass: the log holds exactly what the engine finds in the text, find by find, and
   the output is the text between the finds with a replacement for each.
   */
  ghost predicate PassedBy(p: Pattern, text: string, ms: seq<Match>, out: string, log: seq<Redaction>) {
    && Found(p, text, ms) && InOrder(text, ms) && |log| == |ms|
    && (forall i :: 0 <= i < |ms| ==> log[i] == Redaction(text[ms[i].start..ms[i].end], p.replacement, p.source))
    && out == Woven(GapsOf(text, ms), seq(|ms|, i requires 0 <= i < |ms| => p.replacement))
  }

  ghost predicate CompletePass(p: Pattern, text: string, out: string, log: seq<Redaction>) {
    exists ms :: PassedBy(p, text, ms, out, log)
  }

  lemma {:induction false} MatchesFound(p: Pattern, text: string, pos: nat, advance: bool)
    requires Scans(p) && pos <= |text|
    ensures var ms := Matches(p, text, pos, advance);
            && (ms == [] ==> p.search(text, pos, advance) == None)
            && (ms != [] ==>
                  && p.search(text, pos, advance) == Some(ms[0])
                  && p.search(text, ms[|ms| - 1].end, ms[|ms| - 1].start == ms[|ms| - 1].end) == None)
            && (forall i :: 0 <= i < |ms| - 1 ==>
              p.search(text, ms[i].end, ms[i].start == ms[i].end) == Some(ms[i + 1]))
    decreases |text| - pos, if advance then 0 else 1
  {
    var m := p.search(text, pos, advance);
    assert MatchOk(m, |text|, pos, advance);
    if m.Some? {
      var rest := Matches(p, text, m.value.end, m.value.start == m.value.end);
      MatchesFound(p, text, m.value.end, m.value.start == m.value.end);
      var ms := Matches(p, text, pos, advance);
      assert ms == [m.value] + rest;
    }
  }

  lemma {:induction false} GapsAgree(text: string, pos: nat, ms: seq<Match>)
    requires Ordered(text, pos, ms)
    ensures var gaps := Gaps(text, pos, ms);
            forall i :: 0 <= i <= |ms| ==>
              gaps[i] == text[(if i == 0 then pos else ms[i - 1].end)..(if i == |ms| then |text| else ms[i].start)]
    decreases |ms|
  {
    if ms != [] {
      GapsAgree(text, ms[0].end, ms[1..]);
      var gaps, rest := Gaps(text, pos, ms), Gaps(text, ms[0].end, ms[1..]);
      forall i | 0 < i <= |ms|
        ensures gaps[i] == text[ms[i - 1].end..(if i == |ms| then |text| else ms[i].start)]
      {
        assert gaps[i] == rest[i - 1];
        assert i > 1 ==> ms[1..][i - 2] == ms[i - 1];
        assert i < |ms| ==> ms[1..][i - 1] == ms[i];
      }
    }
  }

  lemma GapsSame(text: string, ms: seq<Match>)
    requires Ordered(text, 0, ms)
    ensures InOrder(text, ms) && GapsOf(text, ms) == Gaps(text, 0, ms)
  {
    GapsAgree(text, 0, ms);
    var gaps := Gaps(text, 0, ms);
    forall i | 0 <= i <= |ms| ensures GapsOf(text, ms)[i] == gaps[i] {
      if i == 0 {
        assert text[..if ms == [] then |text| else ms[0].start] == text[0..if ms == [] then |text| else ms[0].start];
      }
    }
  }

  /** One pattern's pass finds all there is to find, logs it, and replaces it. */
  lemma PassIsComplete(p: Pattern, text: string)
    requires Scans(p)
    ensures var r := Pass(p, text); CompletePass(p, text, r.text, r.log)
  {
    var ms := Matches(p, text, 0, false);
    MatchesOrdered(p, text, 0, false);
    MatchesFound(p, text, 0, false);
    WeaveReplacements(p, text, 0, false);
    GapsAgree(text, 0, ms);
    GapsSame(text, ms);
    assert Filled(ms, p.replacement) == seq(|ms|, i requires 0 <= i < |ms| => p.replacement);
    assert PassedBy(p, text, ms, Pass(p, text).text, Pass(p, text).log);
  }

  /** What a complete pass finds is logged: first of all whatever the engine finds first. */
  lemma FirstFindIsLogged(p: Pattern, text: string, out: string, log: seq<Redaction>)
    requires CompletePass(p, text, out, log)
    ensures var m := p.search(text, 0, false);
            m.Some? <==> log != []
    ensures var m := p.search(text, 0, false);
            m.Some? ==> m.value.start <= m.value.end <= |text| && log[0].original == text[m.value.start..m.value.end]
  {
    var ms :| PassedBy(p, text, ms, out, log);
  }

  // ------------------------------------------------------------------- one text

  function Flat(logs: seq<seq<Redaction>>): seq<Redaction> {
    if logs == [] then [] else Flat(logs[..|logs| - 1]) + logs[|logs| - 1]
  }

  /** A complete pass for every pattern in list order, each on the text the one before it left. */
  ghost predicate ChainedBy(patterns: seq<Pattern>, texts: seq<string>, logs: seq<seq<Redaction>>) {
    && |texts| == |patterns| + 1 && |logs| == |patterns|
    && forall i :: 0 <= i < |patterns| ==> CompletePass(patterns[i], texts[i], texts[i + 1], logs[i])
  }

  ghost predicate Chained(patterns: seq<Pattern>, text: string, out: string, log: seq<Redaction>) {
    exists texts, logs ::
      ChainedBy(patterns, texts, logs) && texts[0] == text && texts[|patterns|] == out && log == Flat(logs)
  }

  /** redact is such a chain, and its log is the passes' logs one after the other. */
  lemma {:induction false} RedactIsChained(patterns: seq<Pattern>, text: string)
    requires AllScan(patterns)
    ensures var r := RedactedBy(patterns, text); Chained(patterns, text, r.text, r.log)
  {
    if patterns == [] {
      assert ChainedBy(patterns, [text], []);
    } else {
      var init, p := patterns[..|patterns| - 1], patterns[|patterns| - 1];
      RedactIsChained(init, text);
      var before := RedactedBy(init, text);
      PassIsComplete(p, before.text);
      ChainGrows(init, text, before, p, Pass(p, before.text));
      assert patterns == init + [p];
    }
  }

  lemma ChainGrows(init: seq<Pattern>, text: string, before: Redacted, p: Pattern, pass: Redacted)
    requires Chained(init, text, before.text, before.log) && CompletePass(p, before.text, pass.text, pass.log)
    ensures Chained(init + [p], text, pass.text, before.log + pass.log)
  {
    var texts, logs :|
      ChainedBy(init, texts, logs) && texts[0] == text && texts[|init|] == before.text && before.log == Flat(logs);
    var texts', logs' := texts + [pass.text], logs + [pass.log];
    assert logs'[..|logs'| - 1] == logs;
    forall i | 0 <= i < |init + [p]| ensures CompletePass((init + [p])[i], texts'[i], texts'[i + 1], logs'[i]) {
      if i < |init| { assert CompletePass(init[i], texts[i], texts[i + 1], logs[i]); }
    }
    assert ChainedBy(init + [p], texts', logs');
  }

  // -------------------------------------------------------------------- messages

  /** The texts of a list of blocks, a missing one being empty. */
  function BlockTexts(bs: seq<Block>): seq<string> {
    if bs == [] then []
    else
      var b := bs[|bs| - 1];
      BlockTexts(bs[..|bs| - 1]) + (if b.TextBlock? then [if b.text.Some? then b.text.value else ""] else [])
  }

  /** The texts of a message that are redacted: those of a user, in order. */
  function TextsOf(m: Message): seq<string> {
    if m.role != Some("user") then []
    else match m.content
      case Absent => [""]
      case Plain(text) => [text]
      case Blocks(blocks) => BlockTexts(blocks)
      case Opaque(_) => []
  }

  function AllTexts(ms: seq<Message>): seq<string> {
    if ms == [] then [] else AllTexts(ms[..|ms| - 1]) + TextsOf(ms[|ms| - 1])
  }

  /** What holds of a text, its output and its log in the `q`th call. */
  type Link = (nat, string, string, seq<Redaction>) -> bool

  ghost function Links(plan: Plan): Link {
    (q: nat, text: string, out: string, log: seq<Redaction>) => Chained(plan(q), text, out, log)
  }

  ghost predicate AllHold(link: Link, k: nat, ins: seq<string>, outs: seq<string>, logs: seq<seq<Redaction>>) {
    && |ins| == |outs| == |logs|
    && forall q :: 0 <= q < |ins| ==> link(k + q, ins[q], outs[q], logs[q])
  }

  ghost predicate HoldTogether(link: Link, k: nat, ins: seq<string>, outs: seq<string>, log: seq<Redaction>) {
    exists logs :: AllHold(link, k, ins, outs, logs) && log == Flat(logs)
  }

  /** Text by text, the output is a complete chain of the list its call copied, from the `k`th call on. */
  ghost predicate AllChained(plan: Plan, k: nat, ins: seq<string>, outs: seq<string>, log: seq<Redaction>) {
    HoldTogether(Links(plan), k, ins, outs, log)
  }

  lemma {:induction false} FlatConcat(a: seq<seq<Redaction>>, b: seq<seq<Redaction>>)
    ensures Flat(a + b) == Flat(a) + Flat(b)
  {
    if b == [] {
      assert a + b == a;
    } else {
      assert (a + b)[..|a + b| - 1] == a + b[..|b| - 1];
      FlatConcat(a, b[..|b| - 1]);
    }
  }

  lemma TogetherConcat(link: Link, k: nat, ins: seq<string>, outs: seq<string>, log: seq<Redaction>,
                       ins': seq<string>, outs': seq<string>, log': seq<Redaction>)
    requires HoldTogether(link, k, ins, outs, log) && HoldTogether(link, k + |ins|, ins', outs', log')
    ensures HoldTogether(link, k, ins + ins', outs + outs', log + log')
  {
    var logs :| AllHold(link, k, ins, outs, logs) && log == Flat(logs);
    var logs' :| AllHold(link, k + |ins|, ins', outs', logs') && log' == Flat(logs');
    FlatConcat(logs, logs');
    forall q | 0 <= q < |ins + ins'|
      ensures link(k + q, (ins + ins')[q], (outs + outs')[q], (logs + logs')[q])
    {
      if q >= |ins| { assert link(k + |ins| + (q - |ins|), ins'[q - |ins|], outs'[q - |ins|], logs'[q - |ins|]); }
    }
    assert AllHold(link, k, ins + ins', outs + outs', logs + logs');
  }

  lemma TogetherSplit(link: Link, k: nat, allIns: seq<string>, allOuts: seq<string>, ins: seq<string>,
                      outs: seq<string>,
                      log: seq<Redaction>, ins': seq<string>, outs': seq<string>, log': seq<Redaction>)
    requires allIns == ins + ins' && allOuts == outs + outs'
    requires HoldTogether(link, k, ins, outs, log) && HoldTogether(link, k + |ins|, ins', outs', log')
    ensures HoldTogether(link, k, allIns, allOuts, log + log')
  {
    TogetherConcat(link, k, ins, outs, log, ins', outs', log');
  }

  lemma NoTexts(link: Link, k: nat)
    ensures HoldTogether(link, k, [], [], [])
  {
    assert AllHold(link, k, [], [], []);
  }

  /** The link holds of what redact does to any text in any call. */
  ghost predicate Covers(link: Link, plan: Plan)
    requires PlanScans(plan)
  {
    forall q: nat, text: string :: Covered(link, plan, q, text)
  }

  ghost predicate Covered(link: Link, plan: Plan, q: nat, text: string)
    requires PlanScans(plan)
  {
    assert AllScan(plan(q));
    var r := RedactedBy(plan(q), text);
    link(q, text, r.text, r.log)
  }

  lemma OneText(link: Link, plan: Plan, k: nat, text: string)
    requires PlanScans(plan) && Covers(link, plan)
    ensures AllScan(plan(k))
    ensures var r := RedactedBy(plan(k), text); HoldTogether(link, k, [text], [r.text], r.log)
  {
    assert AllScan(plan(k)) && Covered(link, plan, k, text);
    var r := RedactedBy(plan(k), text);
    assert Flat([r.log]) == r.log by { assert [r.log][..0] == []; }
    assert AllHold(link, k, [text], [r.text], [r.log]);
  }

  /** The texts of one block. */
  function BlockText(b: Block): seq<string> {
    if b.TextBlock? then [if b.text.Some? then b.text.value else ""] else []
  }

  lemma BlockTextsSnoc(bs: seq<Block>, b: Block)
    ensures BlockTexts(bs + [b]) == BlockTexts(bs) + BlockText(b)
  {
    assert (bs + [b])[..|bs|] == bs;
  }

  lemma BlockTogether(link: Link, plan: Plan, k: nat, b: Block)
    requires PlanScans(plan) && Covers(link, plan)
    ensures var (c, log, k') := BlockResult(plan, k, b);
            HoldTogether(link, k, BlockText(b), BlockText(c), log) && k' == k + |BlockText(b)|
  {
    if b.TextBlock? { OneText(link, plan, k, OrEmpty(b.text)); } else { NoTexts(link, k); }
  }

  lemma BlocksSnoc(plan: Plan, k: nat, bs: seq<Block>, b: Block)
    requires PlanScans(plan)
    ensures var (cleaned, log, k1) := BlocksResult(plan, k, bs);
            var (c, more, k2) := BlockResult(plan, k1, b);
            BlocksResult(plan, k, bs + [b]) == (cleaned + [c], log + more, k2)
  {
    assert (bs + [b])[..|bs + [b]| - 1] == bs;
  }

  lemma BlocksGrow(link: Link, k: nat, bs: seq<Block>, cs: seq<Block>, log: seq<Redaction>, b: Block, c: Block,
                   more: seq<Redaction>)
    requires HoldTogether(link, k, BlockTexts(bs), BlockTexts(cs), log)
    requires HoldTogether(link, k + |BlockTexts(bs)|, BlockText(b), BlockText(c), more)
    ensures HoldTogether(link, k, BlockTexts(bs + [b]), BlockTexts(cs + [c]), log + more)
  {
    BlockTextsSnoc(bs, b);
    BlockTextsSnoc(cs, c);
    TogetherSplit(link, k, BlockTexts(bs + [b]), BlockTexts(cs + [c]), BlockTexts(bs), BlockTexts(cs), log,
                  BlockText(b), BlockText(c), more);
  }

  lemma {:induction false} BlocksTogether(link: Link, plan: Plan, k: nat, bs: seq<Block>)
    requires PlanScans(plan) && Covers(link, plan)
    ensures var (cs, log, k') := BlocksResult(plan, k, bs);
            HoldTogether(link, k, BlockTexts(bs), BlockTexts(cs), log) && k' == k + |BlockTexts(bs)|
  {
    if bs == [] {
      NoTexts(link, k);
    } else {
      var init, b := bs[..|bs| - 1], bs[|bs| - 1];
      assert bs == init + [b];
      BlocksTogether(link, plan, k, init);
      var (cleaned, log, k1) := BlocksResult(plan, k, init);
      BlockTogether(link, plan, k1, b);
      var (c, more, _) := BlockResult(plan, k1, b);
      BlocksSnoc(plan, k, init, b);
      BlocksGrow(link, k, init, cleaned, log, b, c, more);
      BlockTextsSnoc(init, b);
    }
  }

  lemma MessageTogether(link: Link, plan: Plan, k: nat, m: Message)
    requires PlanScans(plan) && Covers(link, plan)
    ensures var (c, log, k') := MessageResult(plan, k, m);
            HoldTogether(link, k, TextsOf(m), TextsOf(c), log) && k' == k + |TextsOf(m)|
  {
    if m.role != Some("user") || m.content.Opaque? {
      NoTexts(link, k);
    } else if m.content.Blocks? {
      BlocksTogether(link, plan, k, m.content.blocks);
    } else {
      OneText(link, plan, k, if m.content.Plain? then m.content.text else "");
    }
  }

  lemma AllTextsSnoc(ms: seq<Message>, m: Message)
    ensures AllTexts(ms + [m]) == AllTexts(ms) + TextsOf(m)
  {
    assert (ms + [m])[..|ms|] == ms;
  }

  lemma MessagesSnoc(plan: Plan, ms: seq<Message>, m: Message)
    requires PlanScans(plan)
    ensures var (cleaned, log, k1) := MessagesResult(plan, ms);
            var (c, more, k2) := MessageResult(plan, k1, m);
            MessagesResult(plan, ms + [m]) == (cleaned + [c], log + more, k2)
  {
    assert (ms + [m])[..|ms + [m]| - 1] == ms;
  }

  lemma MessagesGrow(link: Link, ms: seq<Message>, cs: seq<Message>, log: seq<Redaction>, m: Message, c: Message,
                     more: seq<Redaction>)
    requires HoldTogether(link, 0, AllTexts(ms), AllTexts(cs), log)
    requires HoldTogether(link, |AllTexts(ms)|, TextsOf(m), TextsOf(c), more)
    ensures HoldTogether(link, 0, AllTexts(ms + [m]), AllTexts(cs + [c]), log + more)
  {
    AllTextsSnoc(ms, m);
    AllTextsSnoc(cs, c);
    TogetherSplit(link, 0, AllTexts(ms + [m]), AllTexts(cs + [c]), AllTexts(ms), AllTexts(cs), log,
                  TextsOf(m), TextsOf(c), more);
  }

  lemma {:induction false} MessagesTogether(link: Link, plan: Plan, ms: seq<Message>)
    requires PlanScans(plan) && Covers(link, plan)
    ensures var (cs, log, k) := MessagesResult(plan, ms);
            HoldTogether(link, 0, AllTexts(ms), AllTexts(cs), log) && k == |AllTexts(ms)|
  {
    if ms == [] {
      NoTexts(link, 0);
    } else {
      var init, m := ms[..|ms| - 1], ms[|ms| - 1];
      assert ms == init + [m];
      MessagesTogether(link, plan, init);
      var (cleaned, log, k1) := MessagesResult(plan, init);
      MessageTogether(link, plan, k1, m);
      var (c, more, _) := MessageResult(plan, k1, m);
      MessagesSnoc(plan, init, m);
      MessagesGrow(link, init, cleaned, log, m, c, more);
      AllTextsSnoc(init, m);
    }
  }

  lemma LinksCover(plan: Plan)
    requires PlanScans(plan)
    ensures Covers(Links(plan), plan)
  {
    forall q: nat, text: string ensures Covered(Links(plan), plan, q, text) {
      assert AllScan(plan(q));
      RedactIsChained(plan(q), text);
    }
  }

  /**
   redact_messages misses nothing: the texts of the output are, one by one and in order, complete
   chains of passes over the texts of the input, and the log is their logs one after the other.
   */
  lemma MessagesChained(plan: Plan, ms: seq<Message>)
    requires PlanScans(plan)
    ensures var (cs, log, _) := MessagesResult(plan, ms); AllChained(plan, 0, AllTexts(ms), AllTexts(cs), log)
  {
    LinksCover(plan);
    MessagesTogether(Links(plan), plan, ms);
  }

  /** What is not the text of a user stays: roles, kinds of content, other blocks, and whole messages of others. */
  predicate OnlyTextsDiffer(m: Message, c: Message) {
    if m.role != Some("user") then c == m
    else
      && c.role == Some("user") && c.rest == m.rest
      && match m.content
         case Opaque(_) => c == m
         case Blocks(bs) =>
           && c.content.Blocks? && |c.content.blocks| == |bs|
           && forall i :: 0 <= i < |bs| ==>
                if bs[i].TextBlock? then c.content.blocks[i].TextBlock? && c.content.blocks[i].rest == bs[i].rest
                else c.content.blocks[i] == bs[i]
         case _ => c.content.Plain?
  }

  lemma MessagesKeepTheRest(plan: Plan, ms: seq<Message>)
    requires PlanScans(plan)
    ensures var cs := MessagesResult(plan, ms).0;
            |cs| == |ms| && forall i :: 0 <= i < |ms| ==> OnlyTextsDiffer(ms[i], cs[i])
  {
    MessagesShape(plan, ms);
    var cs := MessagesResult(plan, ms).0;
    forall i | 0 <= i < |ms| ensures OnlyTextsDiffer(ms[i], cs[i]) {
      assert SameShape(ms[i], cs[i]);
    }
  }

  // ------------------------------------------------------------------ pattern lists

  /** An entry the engine accepts, with the replacement it gets when it names none. */
  ghost predicate CompiledFrom(engine: string -> Option<Search>, e: PatternEntry, p: Pattern) {
    && p.source == e.source && engine(e.source) == Some(p.search)
    && p.replacement == if e.replacement.Some? then e.replacement.value else "[REDACTED]"
  }

  /** Positions that pick out exactly the accepted entries, in their order. */
  ghost predicate Accepted(engine: string -> Option<Search>, raw: seq<PatternEntry>, ps: seq<Pattern>, at: seq<nat>) {
    && |at| == |ps|
    && (forall i, j :: 0 <= i < j < |at| ==> at[i] < at[j])
    && (forall i :: 0 <= i < |at| ==> at[i] < |raw| && CompiledFrom(engine, raw[at[i]], ps[i]))
    && (forall k :: 0 <= k < |raw| && engine(raw[k].source).Some? ==> k in at)
  }

  lemma AcceptedGrows(engine: string -> Option<Search>, raw: seq<PatternEntry>, ps: seq<Pattern>, at: seq<nat>,
                      e: PatternEntry, p: Pattern)
    requires Accepted(engine, raw, ps, at) && CompiledFrom(engine, e, p)
    ensures Accepted(engine, raw + [e], ps + [p], at + [|raw|])
  {
    var raw', ps', at' := raw + [e], ps + [p], at + [|raw|];
    forall k | 0 <= k < |raw'| && engine(raw'[k].source).Some? ensures k in at' {
      if k == |raw| { assert at'[|at|] == k; } else { assert raw[k] == raw'[k] && k in at; }
    }
    forall i | 0 <= i < |at'| ensures at'[i] < |raw'| && CompiledFrom(engine, raw'[at'[i]], ps'[i]) {
      if i < |at| { assert CompiledFrom(engine, raw[at[i]], ps[i]); }
    }
  }

  lemma RejectedSkipped(engine: string -> Option<Search>, raw: seq<PatternEntry>, ps: seq<Pattern>, at: seq<nat>,
                        e: PatternEntry)
    requires Accepted(engine, raw, ps, at) && engine(e.source).None?
    ensures Accepted(engine, raw + [e], ps, at)
  {
    var raw' := raw + [e];
    forall k | 0 <= k < |raw'| && engine(raw'[k].source).Some? ensures k in at {
      assert k < |raw| && raw[k] == raw'[k];
    }
    forall i | 0 <= i < |at| ensures CompiledFrom(engine, raw'[at[i]], ps[i]) {
      assert CompiledFrom(engine, raw[at[i]], ps[i]);
    }
  }

  /** The list after an update is exactly the accepted entries in their order; only rejected ones are missing. */
  lemma {:induction false} CompiledExactly(engine: string -> Option<Search>, raw: seq<PatternEntry>)
    returns (at: seq<nat>)
    ensures Accepted(engine, raw, CompiledAll(engine, raw), at)
  {
    if raw == [] {
      at := [];
    } else {
      var init, e := raw[..|raw| - 1], raw[|raw| - 1];
      assert raw == init + [e];
      at := CompiledExactly(engine, init);
      var ps := CompiledAll(engine, init);
      if engine(e.source).Some? {
        var p := CompiledEntry(engine, e)[0];
        AcceptedGrows(engine, init, ps, at, e, p);
        assert CompiledAll(engine, raw) == ps + [p];
        at := at + [|init|];
      } else {
        RejectedSkipped(engine, init, ps, at, e);
        assert CompiledAll(engine, raw) == ps;
      }
    }
  }
}
