/** Translation of the provider-neutral messages to the chat-completions shape, where every result is a message
    of its own and must follow the assistant message whose call it answers. */
module Translate {
  import opened AgentLog
  import opened ChatLoop

  datatype ApiCall = ApiCall(id: string, name: ToolName, arguments: string)

  /** An empty `content` of an assistant message is sent as null. */
  datatype ApiMessage =
    | ApiText(role: Role, text: string)
    | ApiAssistant(content: string, toolCalls: seq<ApiCall>)
    | ApiTool(toolCallId: string, result: string)

  function TextParts(bs: seq<Block>): seq<string> {
    if bs == [] then [] else
    (if bs[0].TextBlock? && bs[0].text != "" then [bs[0].text] else []) + TextParts(bs[1..])
  }

  function Joined(parts: seq<string>): string {
    if parts == [] then "" else if |parts| == 1 then parts[0] else parts[0] + "\n" + Joined(parts[1..])
  }

  function ToolCalls(bs: seq<Block>): seq<ApiCall> {
    if bs == [] then [] else
    (if bs[0].ToolUse? then [ApiCall(bs[0].id, bs[0].name, bs[0].input)] else []) + ToolCalls(bs[1..])
  }

  function ToolMessages(bs: seq<Block>): seq<ApiMessage> {
    if bs == [] then [] else
    (if bs[0].ResultBlock? then [ApiTool(bs[0].toolUseId, bs[0].content)] else []) + ToolMessages(bs[1..])
  }

  function One(m: Message): seq<ApiMessage> {
    if m.role == System then []
    else if m.content.Plain? then [ApiText(m.role, m.content.text)]
    else
      var bs := m.content.blocks;
      if m.role == Assistant then [ApiAssistant(Joined(TextParts(bs)), ToolCalls(bs))]
      else (if TextParts(bs) != [] then [ApiText(m.role, Joined(TextParts(bs)))] else []) + ToolMessages(bs)
  }

  function All(msgs: seq<Message>): seq<ApiMessage> {
    if msgs == [] then [] else One(msgs[0]) + All(msgs[1..])
  }

  function Translated(system: string, msgs: seq<Message>): seq<ApiMessage> {
    (if system != "" then [ApiText(System, system)] else []) + All(msgs)
  }

  lemma Reassociate<T>(a: seq<T>, b: seq<T>, c: seq<T>)
    ensures (a + b) + c == a + (b + c)
  {
  }

  lemma AllStep(msgs: seq<Message>, i: nat)
    requires i < |msgs|
    ensures All(msgs[i..]) == One(msgs[i]) + All(msgs[i + 1..])
  {
    assert msgs[i..][0] == msgs[i] && msgs[i..][1..] == msgs[i + 1..];
  }

  lemma AllEnd()
    ensures All([]) == []
  {
  }

  /** `_translate_messages`. */
  method TranslateMessages(system: string, msgs: seq<Message>) returns (out: seq<ApiMessage>)
    ensures out == Translated(system, msgs)
  {
    hide All;
    out := [];
    if system != "" {
      out := out + [ApiText(System, system)];
    }
    ghost var head := out;
    assert msgs[0..] == msgs;
    for i := 0 to |msgs|
      invariant out + All(msgs[i..]) == head + All(msgs)
    {
      var m := msgs[i];
      AllStep(msgs, i);
      Reassociate(out, One(m), All(msgs[i + 1..]));
      if m.role == System {
        continue;
      }
      if m.content.Plain? {
        out := out + [ApiText(m.role, m.content.text)];
        continue;
      }
      var texts := CollectTexts(m.content.blocks);
      if m.role == Assistant {
        var calls := CollectCalls(m.content.blocks);
        out := out + [ApiAssistant(Joined(texts), calls)];
        continue;
      }
      var tools := CollectTools(m.content.blocks);
      var translated: seq<ApiMessage> := if texts != [] then [ApiText(m.role, Joined(texts))] else [];
      out := out + (translated + tools);
    }
    assert msgs[|msgs|..] == [];
    AllEnd();
    assert out + [] == out;
  }

  /** One block further in each of the three passes. */
  lemma PassStep(bs: seq<Block>, i: nat)
    requires i < |bs|
    ensures TextParts(bs[i..]) == (if bs[i].TextBlock? && bs[i].text != "" then [bs[i].text] else []) + TextParts(bs[i + 1..])
    ensures ToolCalls(bs[i..]) == (if bs[i].ToolUse? then [ApiCall(bs[i].id, bs[i].name, bs[i].input)] else [])
                + ToolCalls(bs[i + 1..])
    ensures ToolMessages(bs[i..]) == (if bs[i].ResultBlock? then [ApiTool(bs[i].toolUseId, bs[i].content)] else [])
                + ToolMessages(bs[i + 1..])
  {
    assert bs[i..][0] == bs[i] && bs[i..][1..] == bs[i + 1..];
  }

  lemma PassEnd()
    ensures TextParts([]) == [] && ToolCalls([]) == [] && ToolMessages([]) == []
  {
  }

  method CollectTexts(bs: seq<Block>) returns (texts: seq<string>)
    ensures texts == TextParts(bs)
  {
    hide TextParts;
    texts := [];
    assert bs[0..] == bs;
    for i := 0 to |bs|
      invariant texts + TextParts(bs[i..]) == TextParts(bs)
    {
      PassStep(bs, i);
      Reassociate(texts, (if bs[i].TextBlock? && bs[i].text != "" then [bs[i].text] else []), TextParts(bs[i + 1..]));
      if bs[i].TextBlock? && bs[i].text != "" {
        texts := texts + [bs[i].text];
      }
    }
    assert bs[|bs|..] == [];
    PassEnd();
    assert texts + [] == texts;
  }

  method CollectCalls(bs: seq<Block>) returns (calls: seq<ApiCall>)
    ensures calls == ToolCalls(bs)
  {
    hide ToolCalls;
    calls := [];
    assert bs[0..] == bs;
    for i := 0 to |bs|
      invariant calls + ToolCalls(bs[i..]) == ToolCalls(bs)
    {
      PassStep(bs, i);
      Reassociate(calls, (if bs[i].ToolUse? then [ApiCall(bs[i].id, bs[i].name, bs[i].input)] else []), ToolCalls(bs[i + 1..]));
      if bs[i].ToolUse? {
        calls := calls + [ApiCall(bs[i].id, bs[i].name, bs[i].input)];
      }
    }
    assert bs[|bs|..] == [];
    PassEnd();
    assert calls + [] == calls;
  }

  method CollectTools(bs: seq<Block>) returns (tools: seq<ApiMessage>)
    ensures tools == ToolMessages(bs)
  {
    hide ToolMessages;
    tools := [];
    assert bs[0..] == bs;
    for i := 0 to |bs|
      invariant tools + ToolMessages(bs[i..]) == ToolMessages(bs)
    {
      PassStep(bs, i);
      Reassociate(tools, (if bs[i].ResultBlock? then [ApiTool(bs[i].toolUseId, bs[i].content)]
          else []), ToolMessages(bs[i + 1..]));
      if bs[i].ResultBlock? {
        tools := tools + [ApiTool(bs[i].toolUseId, bs[i].content)];
      }
    }
    assert bs[|bs|..] == [];
    PassEnd();
    assert tools + [] == tools;
  }

  /** Every assistant message is followed at once by exactly one tool message per call, ids in order, and there
      are no other tool messages: what the chat-completions interface demands. */
  ghost predicate ApiPaired(out: seq<ApiMessage>)
    decreases |out|
  {
    out == [] ||
    match out[0]
    case ApiText(_, _) => ApiPaired(out[1..])
    case ApiTool(_, _) => false
    case ApiAssistant(_, calls) =>
      && |out| > |calls|
      && (forall i | 0 <= i < |calls| :: out[1 + i].ApiTool? && out[1 + i].toolCallId == calls[i].id)
      && ApiPaired(out[1 + |calls|..])
  }

  lemma {:induction false} CallsAreUses(bs: seq<Block>)
    ensures |ToolCalls(bs)| == |UseIdsIn(bs)| && forall i | 0 <= i < |ToolCalls(bs)| :: ToolCalls(bs)[i].id == UseIdsIn(bs)[i]
    ensures |ToolMessages(bs)| == |ResultIdsIn(bs)|
    ensures forall i | 0 <= i < |ToolMessages(bs)| ::
                ToolMessages(bs)[i].ApiTool? && ToolMessages(bs)[i].toolCallId == ResultIdsIn(bs)[i]
  {
    if bs != [] {
      CallsAreUses(bs[1..]);
    }
  }

  lemma {:induction false} NoTexts(bs: seq<Block>)
    requires forall b | b in bs :: b.ResultBlock?
    ensures TextParts(bs) == []
  {
    if bs != [] {
      assert bs[0] in bs;
      NoTexts(bs[1..]);
    }
  }

  lemma DropHead(msgs: seq<Message>, n: nat)
    requires Paired(msgs) && n < |msgs| && n <= 1
    requires n == 0 ==> IsLone(msgs[0])
    requires n == 1 ==> PairAt(msgs, 0)
    ensures Paired(msgs[n + 1..])
  {
    var rest := msgs[n + 1..];
    forall i: nat | i < |rest| ensures Seated(rest, i) {
      assert Seated(msgs, i + n + 1);
      assert rest[i] == msgs[i + n + 1];
      assert PairAt(msgs, i + n + 1) ==> PairAt(rest, i);
      if i > 0 {
        assert PairAt(msgs, i + n) ==> PairAt(rest, i - 1);
      }
    }
  }

  lemma GroupIsPaired(content: string, calls: seq<ApiCall>, tools: seq<ApiMessage>, rest: seq<ApiMessage>)
    requires |tools| == |calls| && ApiPaired(rest)
    requires forall i | 0 <= i < |calls| :: tools[i].ApiTool? && tools[i].toolCallId == calls[i].id
    ensures ApiPaired([ApiAssistant(content, calls)] + (tools + rest))
  {
    var out := [ApiAssistant(content, calls)] + (tools + rest);
    forall i | 0 <= i < |calls| ensures out[1 + i].ApiTool? && out[1 + i].toolCallId == calls[i].id {
      assert out[1 + i] == tools[i];
    }
    assert out[1 + |calls|..] == rest;
  }

  lemma PairTranslates(a: Message, u: Message, rest: seq<ApiMessage>)
    requires IsPair(a, u) && ApiPaired(rest)
    ensures ApiPaired(One(a) + (One(u) + rest))
  {
    hide ApiPaired, Joined;
    CallsAreUses(BlocksOf(a));
    CallsAreUses(BlocksOf(u));
    assert UseIdsIn([]) == [] && ResultIdsIn([]) == [];
    NoTexts(BlocksOf(u));
    var tools := ToolMessages(BlocksOf(u));
    assert One(u) == [] + tools == tools;
    GroupIsPaired(Joined(TextParts(BlocksOf(a))), ToolCalls(BlocksOf(a)), tools, rest);
  }

  lemma LoneTranslates(m: Message, rest: seq<ApiMessage>)
    requires IsLone(m) && ApiPaired(rest)
    ensures ApiPaired(One(m) + rest)
  {
    CallsAreUses(BlocksOf(m));
    var out := One(m) + rest;
    if One(m) == [] {
      assert out == rest;
    } else {
      assert |One(m)| == 1;
      assert out[1..] == rest;
    }
  }

  /** Translation keeps the pairing of every paired conversation. */
  lemma {:induction false} TranslationKeepsPairing(msgs: seq<Message>)
    requires Paired(msgs)
    ensures ApiPaired(All(msgs))
    decreases |msgs|
  {
    if msgs != [] {
      assert Seated(msgs, 0);
      if UseIds(msgs[0]) != [] {
        DropHead(msgs, 1);
        TranslationKeepsPairing(msgs[2..]);
        assert msgs[1..][1..] == msgs[2..];
        PairTranslates(msgs[0], msgs[1], All(msgs[2..]));
      } else {
        DropHead(msgs, 0);
        TranslationKeepsPairing(msgs[1..]);
        LoneTranslates(msgs[0], All(msgs[1..]));
      }
    }
  }

  /** End to end: whatever the tools, the human and the summariser answer, a fresh run never sends the provider
      a request with an unanswered or an orphaned tool call. */
  lemma FreshRunRequestsArePaired(cfg: Config, system: string, messages: seq<Message>, memories: string,
                                  script: Script, k: nat)
    requires ToolTurns(script, k) && forall m | m in messages :: IsLone(m)
    ensures ApiPaired(Translated(system, SentAt(cfg, StartMessages(cfg, messages, memories), script, k)))
  {
    var sent := SentAt(cfg, StartMessages(cfg, messages, memories), script, k);
    FreshRunSendsPaired(cfg, messages, memories, script, k);
    TranslationKeepsPairing(sent);
    var out := Translated(system, sent);
    if system != "" {
      assert out[1..] == All(sent);
    } else {
      assert out == All(sent);
    }
  }

  // ---------------------------------------------------------------- what the provider is told

  lemma {:induction false} UsesTranslate(bs: seq<Block>)
    requires forall b | b in bs :: b.ToolUse?
    ensures TextParts(bs) == [] && |ToolCalls(bs)| == |bs|
    ensures forall i | 0 <= i < |bs| :: ToolCalls(bs)[i] == ApiCall(bs[i].id, bs[i].name, bs[i].input)
  {
    if bs != [] {
      assert bs[0] in bs;
      UsesTranslate(bs[1..]);
    }
  }

  lemma {:induction false} ResultsTranslate(bs: seq<Block>)
    requires forall b | b in bs :: b.ResultBlock?
    ensures TextParts(bs) == [] && |ToolMessages(bs)| == |bs|
    ensures forall i | 0 <= i < |bs| :: ToolMessages(bs)[i] == ApiTool(bs[i].toolUseId, bs[i].content)
  {
    if bs != [] {
      assert bs[0] in bs;
      ResultsTranslate(bs[1..]);
    }
  }

  /** In the provider's format: the turn's text with its calls, each with name and arguments, and behind it, call by
      call, what the model is to see of the outcome. */
  ghost predicate ApiTells(out: seq<ApiMessage>, text: string, calls: seq<Call>, rs: seq<CallRecord>) {
    && |rs| == |calls| && |out| == 1 + |calls| && out[0].ApiAssistant? && out[0].content == text
    && |out[0].toolCalls| == |calls|
    && forall i | 0 <= i < |calls| ::
         && out[0].toolCalls[i] == ApiCall(rs[i].id, calls[i].name, calls[i].args)
         && (rs[i].outcome.Success? ==> out[1 + i] == ApiTool(rs[i].id, calls[i].oracle.rendered))
         && (rs[i].outcome.Failure? ==> out[1 + i] == ApiTool(rs[i].id, rs[i].outcome.message))
  }

  lemma AssistantTranslates(text: string, rest: seq<Block>)
    requires forall b | b in rest :: b.ToolUse?
    ensures One(Message(Assistant, Blocks(TextBlocks(text) + rest))) == [ApiAssistant(text, ToolCalls(rest))]
  {
    UsesTranslate(rest);
    var uses := TextBlocks(text) + rest;
    if text == "" {
      assert uses == rest;
    } else {
      assert uses[1..] == rest && uses[0] == TextBlock(text);
      assert TextParts(uses) == [text] + TextParts(rest) == [text];
      assert ToolCalls(uses) == [] + ToolCalls(rest) == ToolCalls(rest);
    }
  }

  lemma UserTranslates(results: seq<Block>)
    requires forall b | b in results :: b.ResultBlock?
    ensures One(Message(User, Blocks(results))) == ToolMessages(results)
  {
    ResultsTranslate(results);
    assert [] + ToolMessages(results) == ToolMessages(results);
  }

  /** The blocks of a turn, whose calls and outcomes the two messages hold. */
  lemma TurnBlocks(rs: seq<CallRecord>)
    ensures forall b | b in UseBlocks(rs) :: b.ToolUse?
    ensures forall b | b in ReportBlocks(rs, Live) :: b.ResultBlock?
  {
  }

  lemma TurnTranslates(cfg: Config, turnIndex: nat, failures: map<ToolName, nat>, s: Scene)
    requires IsToolTurn(s)
    ensures var t := PlayTurn(cfg, turnIndex, failures, s);
            && |TurnMessages(t, Live)| == 2
            && ApiTells(One(TurnMessages(t, Live)[0]) + One(TurnMessages(t, Live)[1]), s.reply.text, s.reply.calls, t.records)
  {
    hide One, ToolCalls, ToolMessages, TextParts, TextBlocks, Outcome1, GateFor, CallId;
    var t := PlayTurn(cfg, turnIndex, failures, s);
    TurnBlocks(t.records);
    AssistantTranslates(t.text, UseBlocks(t.records));
    UserTranslates(ReportBlocks(t.records, Live));
    UsesTranslate(UseBlocks(t.records));
    ResultsTranslate(ReportBlocks(t.records, Live));
  }

  lemma {:induction false} AllAppend(xs: seq<Message>, ys: seq<Message>)
    ensures All(xs + ys) == All(xs) + All(ys)
  {
    hide One;
    if xs == [] {
      assert xs + ys == ys;
    } else {
      assert (xs + ys)[1..] == xs[1..] + ys;
      AllAppend(xs[1..], ys);
    }
  }

  lemma AllOfTwo(a: Message, u: Message)
    ensures All([a, u]) == One(a) + One(u)
  {
    assert [a, u][1..] == [u] && [u][1..] == [];
    assert All([u]) == One(u) + All([]);
  }

  /** End to end: the next request to the provider after any turn, whatever was compacted, holds that turn's text,
      every call of it with its name and arguments, and every outcome. */
  lemma EveryTurnReachesTheProvider(cfg: Config, system: string, start: seq<Message>, script: Script, k: nat) returns (q: nat)
    requires k < |script| && IsToolTurn(script[k])
    ensures var out, calls := Translated(system, SentAt(cfg, start, script, k + 1)), script[k].reply.calls;
            && q + 1 + |calls| <= |out|
            && ApiTells(out[q..q + 1 + |calls|], script[k].reply.text, calls, TurnAt(cfg, script, k).records)
  {
    hide SentAt, Tells, ApiTells, One, PlayTurn, TurnMessages;
    var sent, calls, t := SentAt(cfg, start, script, k + 1), script[k].reply.calls, TurnAt(cfg, script, k);
    var p := EveryTurnIsShown(cfg, start, script, k);
    TurnTranslates(cfg, k, FailuresBefore(cfg, script, k), script[k]);
    var a, u := TurnMessages(t, Live)[0], TurnMessages(t, Live)[1];
    var told := One(a) + One(u);
    ToldLength(told, script[k].reply.text, calls, t.records);
    assert TurnMessages(t, Live) == [a, u];
    assert sent == sent[..p] + (sent[p..p + 2] + sent[p + 2..]);
    AllAppend(sent[..p], [a, u] + sent[p + 2..]);
    AllAppend([a, u], sent[p + 2..]);
    AllOfTwo(a, u);
    var before := (if system != "" then [ApiText(System, system)] else []) + All(sent[..p]);
    assert Translated(system, sent) == before + told + All(sent[p + 2..]);
    q := |before|;
    assert (before + told + All(sent[p + 2..]))[q..q + |told|] == told;
  }

  lemma ToldLength(out: seq<ApiMessage>, text: string, calls: seq<Call>, rs: seq<CallRecord>)
    requires ApiTells(out, text, calls, rs)
    ensures |out| == 1 + |calls|
  {
  }

  /** A resumed run can lose the pairing: with one rebuilt pair and a memory message in front of a new pair, the
      four retained messages begin with the old pair's results. */
  lemma ResumedCompactionSplitsPair(cfg: Config, user: Message, a1: Message, r1: Message, memory: Message, a2: Message,
                                    r2: Message, summary: string)
    requires user.content.Plain? && memory.content.Plain? && IsPair(a1, r1) && IsPair(a2, r2) && summary != ""
    ensures var convo := [user, a1, r1, memory, a2, r2];
            Paired(convo) && !Paired(Compact(cfg, convo, Summary(summary)))
  {
    hide Compact, Paired;
    var convo := [user, a1, r1, memory, a2, r2];
    TwoPairsArePaired(user, a1, r1, memory, a2, r2);
    CompactionKeepsPairingIff(cfg, convo, Summary(summary));
  }

  lemma TwoPairsArePaired(user: Message, a1: Message, r1: Message, memory: Message, a2: Message, r2: Message)
    requires user.content.Plain? && memory.content.Plain? && IsPair(a1, r1) && IsPair(a2, r2)
    ensures Paired([user, a1, r1, memory, a2, r2])
  {
    assert IsLone(user) && IsLone(memory) by { assert UseIdsIn([]) == [] && ResultIdsIn([]) == []; }
    hide UseIds, ResultIds;
    var convo := [user, a1, r1, memory, a2, r2];
    assert PairAt(convo, 1) && PairAt(convo, 4);
    forall i: nat | i < 6 ensures Seated(convo, i) {
      assert i == 0 || i == 1 || i == 2 || i == 3 || i == 4 || i == 5;
    }
  }
}
